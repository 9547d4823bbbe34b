/**
 * ChatGPT_api_handler: the credential gate, the request body, the extraction
 * of choices[0].message.content from the reply, the cleaner, the retry loop
 * and the asynchronous wrapper that turns every exception into text.
 */
module ChatGptApi {
  import opened Wrappers
  import opened JavaString
  import opened Markup
  import opened Wire

  const Endpoint := "https://api.openai.com/v1/chat/completions"
  const MissingKeyMessage := "Error: API key not set. Please configure your OpenAI API key in API Settings."
  const ParseFailedMessage := "ChatGPT response parsing failed. Please try again."
  const MaxRetriesPrefix := "Maximum retry attempts reached: "
  const InterruptedPrefix := "API call interrupted: "
  const AsyncErrorPrefix := "Error calling ChatGPT API: "
  const MaxRetries := 3
  const InitialDelayMs := 1000

  /** The system message sent ahead of every prompt. */
  const SystemPrompt := "Be precise and concise. Do not use LaTeX, markdown formatting, or symbols like [1][2] for references. "
    + "Use plain, conversational language as if speaking directly to a person. "
    + "Format information clearly with regular bullet points for lists. "
    + "Use everyday language and avoid academic or technical jargon when possible. "
    + "Return only the actual answer content, without any metadata, json, or citations. "
    + "Do not use any markdown formatting, especially no asterisks (**) for bold text. "
    + "Do not include any special Unicode characters like \\u2022."

  /** The text of the request body before the escaped prompt. */
  const BodyHead := "{\"model\": \"gpt-4.1-nano\", \"messages\": [{\"role\": \"system\", \"content\": \""
    + EscapeQuotes(SystemPrompt) + "\"}, {\"role\": \"user\", \"content\": \""

  /** The text of the request body after the escaped prompt. */
  const BodyTail := "\"}]}"

  /** The JSON body makeApiCall writes for a prompt. */
  function RequestBody(prompt: string): string
  {
    BodyHead + EscapeQuotes(prompt) + BodyTail
  }

  /** The body determines the prompt: no two prompts are sent as the same request. */
  lemma RequestBodyDeterminesPrompt(p1: string, p2: string)
    requires RequestBody(p1) == RequestBody(p2)
    ensures p1 == p2
  {
    var e1, e2 := EscapeQuotes(p1), EscapeQuotes(p2);
    var b1, b2 := RequestBody(p1), RequestBody(p2);
    assert |e1| == |e2|;
    assert e1 == b1[|BodyHead|..|BodyHead| + |e1|];
    assert e2 == b2[|BodyHead|..|BodyHead| + |e2|];
    EscapeQuotesInjective(p1, p2);
  }

  // ---------------------------------------------------------------------
  // Cleaning the extracted content
  // ---------------------------------------------------------------------

  /** The first step of cleanResponse, its replace chain: JSON escapes become the characters they stand for. */
  function UnescapeJson(t: string): (r: string)
    ensures |r| <= |t|
  {
    var t1 := Replace(t, "\\\"", "\"");
    var t2 := Replace(t1, "\\n", "\n");
    var t3 := Replace(t2, "\\r", "\r");
    var t4 := Replace(t3, "\\t", "\t");
    var t5 := Replace(t4, "\\\\", "\\");
    ReplaceNeverLonger(t, "\\\"", "\"");
    ReplaceNeverLonger(t1, "\\n", "\n");
    ReplaceNeverLonger(t2, "\\r", "\r");
    ReplaceNeverLonger(t3, "\\t", "\t");
    ReplaceNeverLonger(t4, "\\\\", "\\");
    ReplaceNeverLonger(t5, "\\/", "/");
    Replace(t5, "\\/", "/")
  }

  /**
   * cleanResponse: null gives the empty string; otherwise the escapes are
   * undone, the markup stripped, newline runs collapsed and the result
   * trimmed, so it never holds three newlines in a row and neither starts
   * nor ends with white space.
   */
  function CleanResponse(text: Option<string>): (r: string)
    ensures text.None? ==> r == ""
    ensures text.Some? ==> |r| <= |text.value|
    ensures NoNewlineRun3(r)
    ensures IsTrimmed(r)
  {
    match text
    case None => ""
    case Some(t) => CollapseAndTrim(StripMarkup(UnescapeJson(t)))
  }

  /** The last two steps of cleanResponse: the newline collapse and the trim. */
  function CollapseAndTrim(s: string): (r: string)
    ensures |r| <= |s|
    ensures NoNewlineRun3(r)
    ensures IsTrimmed(r)
  {
    CollapseLeavesNoRun3(s);
    TrimKeepsNoRun3(CollapseNewlines(s));
    Trim(CollapseNewlines(s))
  }

  // ---------------------------------------------------------------------
  // Extracting choices[0].message.content
  // ---------------------------------------------------------------------

  const ChoicesKey := "\"choices\""
  const MessageKey := "\"message\""
  const ContentKey := "\"content\""

  /** Key a at c, key b at m, key d at k and a quote at q, in that order, the quote after key d. */
  predicate KeyPath(json: string, a: string, b: string, d: string, c: nat, m: nat, k: nat, q: nat)
  {
    c <= m <= k && k + |d| <= q
    && OccursAt(json, a, c) && OccursAt(json, b, m) && OccursAt(json, d, k) && OccursAt(json, "\"", q)
  }

  /**
   * The path indexOf finds: each key is the first one at or after the
   * previous key, and the quote is the first one after the last key.
   */
  predicate FirstKeyPath(json: string, a: string, b: string, d: string, c: nat, m: nat, k: nat, q: nat)
  {
    KeyPath(json, a, b, d, c, m, k, q)
    && (forall i :: 0 <= i < c ==> !OccursAt(json, a, i))
    && (forall i :: c <= i < m ==> !OccursAt(json, b, i))
    && (forall i :: m <= i < k ==> !OccursAt(json, d, i))
    && (forall i :: k + |d| <= i < q ==> !OccursAt(json, "\"", i))
  }

  /**
   * The chain of indexOf calls: key a from the start, key b from a, key d
   * from b, then a quote after d; the index just past that quote.
   */
  function ValueAfterKeys(json: string, a: string, b: string, d: string): (r: Option<nat>)
    requires |a| > 0 && |b| > 0 && |d| > 0
    ensures r.Some? ==> 0 < r.value <= |json| && json[r.value - 1] == '"'
  {
    match IndexOf(json, a, 0)
    case None => None
    case Some(c) =>
      match IndexOf(json, b, c)
      case None => None
      case Some(m) =>
        match IndexOf(json, d, m)
        case None => None
        case Some(k) =>
          match IndexOf(json, "\"", k + |d|)
          case None => None
          case Some(q) =>
            assert json[q..q + 1] == "\"";
            Some(q + 1)
  }

  /** A value start is always the one after the first path. */
  lemma ValueAfterKeysFindsFirstPath(json: string, a: string, b: string, d: string)
    requires |a| > 0 && |b| > 0 && |d| > 0
    ensures ValueAfterKeys(json, a, b, d).Some? ==>
      exists c: nat, m: nat, k: nat, q: nat :: FirstKeyPath(json, a, b, d, c, m, k, q) && ValueAfterKeys(json, a, b, d).value == q + 1
  {
    var c := IndexOf(json, a, 0);
    if c.Some? {
      var m := IndexOf(json, b, c.value);
      if m.Some? {
        var k := IndexOf(json, d, m.value);
        if k.Some? {
          var q := IndexOf(json, "\"", k.value + |d|);
          if q.Some? {
            assert FirstKeyPath(json, a, b, d, c.value, m.value, k.value, q.value);
          }
        }
      }
    }
  }

  /** Any path at all is enough for the searches to succeed. */
  lemma ValueAfterKeysFound(json: string, a: string, b: string, d: string, c: nat, m: nat, k: nat, q: nat)
    requires |a| > 0 && |b| > 0 && |d| > 0
    requires KeyPath(json, a, b, d, c, m, k, q)
    ensures ValueAfterKeys(json, a, b, d).Some?
  {
    var c0 := IndexOf(json, a, 0);
    assert c0.Some? && c0.value <= c;
    var m0 := IndexOf(json, b, c0.value);
    assert m0.Some? && m0.value <= m;
    var k0 := IndexOf(json, d, m0.value);
    assert k0.Some? && k0.value <= k;
    var q0 := IndexOf(json, "\"", k0.value + |d|);
    assert q0.Some?;
  }

  /** The value read is the one after the first path, and no other. */
  lemma ValueAfterKeysIsFirst(json: string, a: string, b: string, d: string, c: nat, m: nat, k: nat, q: nat)
    requires |a| > 0 && |b| > 0 && |d| > 0
    requires FirstKeyPath(json, a, b, d, c, m, k, q)
    ensures ValueAfterKeys(json, a, b, d) == Some(q + 1)
  {
    IndexOfFirst(json, a, 0, c);
    IndexOfFirst(json, b, c, m);
    IndexOfFirst(json, d, m, k);
    IndexOfFirst(json, "\"", k + |d|, q);
    ValueAfterSearches(json, a, b, d, c, m, k, q);
  }

  /** The four searches succeeding at c, m, k and q give the value start q + 1. */
  lemma ValueAfterSearches(json: string, a: string, b: string, d: string, c: nat, m: nat, k: nat, q: nat)
    requires |a| > 0 && |b| > 0 && |d| > 0
    requires IndexOf(json, a, 0) == Some(c) && IndexOf(json, b, c) == Some(m)
    requires IndexOf(json, d, m) == Some(k) && IndexOf(json, "\"", k + |d|) == Some(q)
    ensures ValueAfterKeys(json, a, b, d) == Some(q + 1)
  {
  }

  /** "choices", "message", "content" and a quote, in that order. */
  predicate ContentPath(json: string, c: nat, m: nat, k: nat, q: nat)
  {
    KeyPath(json, ChoicesKey, MessageKey, ContentKey, c, m, k, q)
  }

  /** The first such path, the one the searches of parseJsonResponse find. */
  predicate FirstContentPath(json: string, c: nat, m: nat, k: nat, q: nat)
  {
    FirstKeyPath(json, ChoicesKey, MessageKey, ContentKey, c, m, k, q)
  }

  /**
   * The index just after the quote that opens the content value: "choices",
   * then "message" at or after it, then "content" at or after that, then the
   * first quote after the "content" key.
   */
  function ContentValueStart(json: string): (r: Option<nat>)
    ensures r.Some? ==> 0 < r.value <= |json| && json[r.value - 1] == '"'
  {
    ValueAfterKeys(json, ChoicesKey, MessageKey, ContentKey)
  }

  /** A value start is always the one after the first "choices" / "message" / "content" path. */
  lemma ContentValueStartFindsFirstPath(json: string)
    ensures ContentValueStart(json).Some? ==>
      exists c: nat, m: nat, k: nat, q: nat :: FirstContentPath(json, c, m, k, q) && ContentValueStart(json).value == q + 1
  {
    ValueAfterKeysFindsFirstPath(json, ChoicesKey, MessageKey, ContentKey);
    if ContentValueStart(json).Some? {
      var c: nat, m: nat, k: nat, q: nat :|
        FirstKeyPath(json, ChoicesKey, MessageKey, ContentKey, c, m, k, q) && ContentValueStart(json).value == q + 1;
      assert FirstContentPath(json, c, m, k, q);
    }
  }

  /** Any "choices" / "message" / "content" / quote path is enough for a value start. */
  lemma ContentValueStartFound(json: string, c: nat, m: nat, k: nat, q: nat)
    requires ContentPath(json, c, m, k, q)
    ensures ContentValueStart(json).Some?
  {
    ValueAfterKeysFound(json, ChoicesKey, MessageKey, ContentKey, c, m, k, q);
  }

  /** With several "content" keys, the value start is the one after the first path. */
  lemma ContentValueStartIsFirst(json: string, c: nat, m: nat, k: nat, q: nat)
    requires FirstContentPath(json, c, m, k, q)
    ensures ContentValueStart(json) == Some(q + 1)
  {
    ValueAfterKeysIsFirst(json, ChoicesKey, MessageKey, ContentKey, c, m, k, q);
  }

  /**
   * The text of a JSON string body up to its closing quote: characters other
   * than a backslash or a quote, and two-character escapes that start with a
   * backslash. Such a text holds no quote that is not escaped.
   */
  predicate EscapedBody(t: string)
    decreases |t|
  {
    t == []
    || (t[0] != '\\' && t[0] != '"' && EscapedBody(t[1..]))
    || (|t| >= 2 && t[0] == '\\' && EscapedBody(t[2..]))
  }

  /** The closing-quote scan of parseJsonResponse: a backslash skips the next character, the first other quote ends the value. */
  function ScanEnd(json: string, i: nat): (r: Option<nat>)
    ensures r.Some? ==> i <= r.value < |json| && json[r.value] == '"'
    decreases |json| - i
  {
    if i >= |json| then None
    else if json[i] == '\\' then ScanEnd(json, i + 2)
    else if json[i] == '"' then Some(i)
    else ScanEnd(json, i + 1)
  }

  /**
   * The scan stops at j exactly when j holds a quote and everything from i
   * up to j is an escaped string body: a character after a backslash is never
   * taken for the terminator, and no earlier unescaped quote is passed over.
   */
  lemma {:induction false} ScanEndIff(json: string, i: nat, j: nat)
    requires i <= j < |json|
    ensures ScanEnd(json, i) == Some(j) <==> json[j] == '"' && EscapedBody(json[i..j])
    decreases |json| - i
  {
    var t := json[i..j];
    if j == i {
      // Nothing to do: the empty body is an escaped body.
    } else if json[i] == '\\' {
      assert t[0] == '\\';
      if j >= i + 2 {
        assert t[2..] == json[i + 2..j];
        ScanEndIff(json, i + 2, j);
      }
    } else if json[i] == '"' {
      assert t[0] == '"';
    } else {
      assert t[1..] == json[i + 1..j];
      ScanEndIff(json, i + 1, j);
    }
  }

  /** The scan finds nothing exactly when no quote ends an escaped body. */
  lemma ScanEndNoneIff(json: string, i: nat)
    requires i <= |json|
    ensures ScanEnd(json, i).None? <==>
      forall j :: i <= j < |json| && json[j] == '"' ==> !EscapedBody(json[i..j])
  {
    if ScanEnd(json, i).Some? {
      ScanEndIff(json, i, ScanEnd(json, i).value);
    }
    forall j | i <= j < |json| && json[j] == '"' && EscapedBody(json[i..j])
      ensures ScanEnd(json, i).Some?
    {
      ScanEndIff(json, i, j);
    }
  }

  /** parseJsonResponse: the cleaned content value, or the fixed diagnostic when the path or the terminator is missing. */
  function ParseResponse(json: string): string
  {
    match ContentValueStart(json)
    case None => ParseFailedMessage
    case Some(s) =>
      match ScanEnd(json, s)
      case None => ParseFailedMessage
      case Some(e) => CleanResponse(Some(json[s..e]))
  }

  /** With the path present and a terminator found, the reply is the cleaned text between the quotes. */
  lemma ParseResponseExtracts(json: string, s: nat, e: nat)
    requires ContentValueStart(json) == Some(s)
    requires s <= e < |json| && json[e] == '"' && EscapedBody(json[s..e])
    ensures ParseResponse(json) == CleanResponse(Some(json[s..e]))
  {
    ScanEndIff(json, s, e);
  }

  /**
   * With several "content" keys, the value read is the one after the first
   * path the searches find, closed by its first unescaped quote.
   */
  lemma ParseResponseReadsFirstPath(json: string, c: nat, m: nat, k: nat, q: nat, e: nat)
    requires FirstContentPath(json, c, m, k, q)
    requires q + 1 <= e < |json| && json[e] == '"' && EscapedBody(json[q + 1..e])
    ensures ParseResponse(json) == CleanResponse(Some(json[q + 1..e]))
  {
    ContentValueStartIsFirst(json, c, m, k, q);
    ParseResponseExtracts(json, q + 1, e);
  }

  /** With the path present but no unescaped closing quote, the reply is the diagnostic. */
  lemma ParseResponseNoTerminator(json: string, s: nat)
    requires ContentValueStart(json) == Some(s)
    requires forall e :: s <= e < |json| && json[e] == '"' ==> !EscapedBody(json[s..e])
    ensures ParseResponse(json) == ParseFailedMessage
  {
    ScanEndNoneIff(json, s);
  }

  /**
   * Without "choices", then "message", then "content", then a quote, in that
   * order, the reply is the diagnostic.
   */
  lemma ParseResponseNoPath(json: string)
    requires forall c: nat, m: nat, k: nat, q: nat :: !ContentPath(json, c, m, k, q)
    ensures ParseResponse(json) == ParseFailedMessage
  {
    ContentValueStartFindsFirstPath(json);
    forall c: nat, m: nat, k: nat, q: nat ensures !FirstContentPath(json, c, m, k, q) {
      assert !ContentPath(json, c, m, k, q);
    }
    assert ContentValueStart(json).None?;
  }

  /** parseJsonResponse as the source writes it: index searches, then a for loop over the value. */
  method ParseJsonResponse(json: string) returns (content: string)
    ensures content == ParseResponse(json)
  {
    content := ParseFailedMessage;
    var start := ContentValueStart(json);
    if start.None? {
      return;
    }
    var startQuote := start.value;
    var endQuote := -1;
    var foundEndQuote := false;
    var i := startQuote;
    while i < |json|
      invariant startQuote <= i <= |json| + 1
      invariant ScanEnd(json, i) == ScanEnd(json, startQuote)
      decreases |json| - i
    {
      if json[i] == '\\' {
        assert ScanEnd(json, i) == ScanEnd(json, i + 2);
        i := i + 2;
      } else if json[i] == '"' {
        endQuote := i;
        foundEndQuote := true;
        break;
      } else {
        i := i + 1;
      }
    }
    if foundEndQuote {
      assert ScanEnd(json, startQuote) == Some(endQuote);
      content := CleanResponse(Some(json[startQuote..endQuote]));
    } else {
      assert ScanEnd(json, startQuote).None?;
    }
  }

  // ---------------------------------------------------------------------
  // One call, the retry loop, the asynchronous wrapper
  // ---------------------------------------------------------------------

  /** What makeApiCall does with one HTTP exchange. */
  function CallOnce(keyValid: bool, t: Transport): Outcome
  {
    if !keyValid then Returned(MissingKeyMessage)
    else
      match t
      case Delivered(lines) => Returned(ParseResponse(JoinTrimmed(lines)))
      case Rejected(lines) => Returned(ApiErrorPrefix + JoinTrimmed(lines))
      case Failed(message) => Thrown(message)
  }

  /** makeApiCall throws exactly when a key is set and the exchange itself fails. */
  lemma CallOnceThrowsIff(keyValid: bool, t: Transport)
    ensures CallOnce(keyValid, t).Thrown? <==> keyValid && t.Failed?
    ensures CallOnce(keyValid, t).Thrown? ==> CallOnce(keyValid, t).message == t.message
  {
  }

  /** The run of the retry loop: its result, how many times makeApiCall ran, and the delays it slept (or began to). */
  datatype RetryRun = RetryRun(outcome: Outcome, attempts: nat, delays: seq<int>)

  /** What each attempt of makeApiCall yields: attempt j meets ts[j]. */
  function AttemptOutcomes(keyValid: bool, ts: seq<Transport>): (r: seq<Outcome>)
    ensures |r| == |ts| && forall j :: 0 <= j < |ts| ==> r[j] == CallOnce(keyValid, ts[j])
  {
    seq(|ts|, j requires 0 <= j < |ts| => CallOnce(keyValid, ts[j]))
  }

  /**
   * The loop of makeApiCallWithRetry from attempt k on (k failures so far),
   * with the delay it would sleep next; outs[k] is what attempt k yields.
   */
  function Retry(outs: seq<Outcome>, irq: seq<bool>, k: nat, delay: int): RetryRun
    requires k < MaxRetries && |outs| >= MaxRetries && |irq| >= MaxRetries - 1
    decreases MaxRetries - k
  {
    match outs[k]
    case Returned(text) => RetryRun(Returned(text), k + 1, [])
    case Thrown(m) =>
      if k + 1 >= MaxRetries then RetryRun(Thrown(MaxRetriesPrefix + m), k + 1, [])
      else if irq[k] then RetryRun(Thrown(InterruptedPrefix + m), k + 1, [delay])
      else
        var rest := Retry(outs, irq, k + 1, delay * 2);
        RetryRun(rest.outcome, rest.attempts, [delay] + rest.delays)
  }

  /** A whole call of makeApiCallWithRetry: attempt k uses ts[k], the sleep after it is interrupted when irq[k]. */
  function RetryCall(keyValid: bool, ts: seq<Transport>, irq: seq<bool>): RetryRun
    requires |ts| >= MaxRetries && |irq| >= MaxRetries - 1
  {
    Retry(AttemptOutcomes(keyValid, ts), irq, 0, InitialDelayMs)
  }

  /** Delays starting at d and doubling: d, 2d, 4d, ... */
  function Backoff(d: int, n: nat): seq<int>
    decreases n
  {
    if n == 0 then [] else [d] + Backoff(d * 2, n - 1)
  }

  lemma {:induction false} RetryShapeFrom(outs: seq<Outcome>, irq: seq<bool>, k: nat, delay: int)
    requires k < MaxRetries && |outs| >= MaxRetries && |irq| >= MaxRetries - 1
    ensures var run := Retry(outs, irq, k, delay);
      && k < run.attempts <= MaxRetries
      && run.delays == Backoff(delay, |run.delays|)
      && (|run.delays| == run.attempts - 1 - k
          || (|run.delays| == run.attempts - k && run.attempts < MaxRetries && outs[run.attempts - 1].Thrown?
              && run.outcome == Thrown(InterruptedPrefix + outs[run.attempts - 1].message)))
    decreases MaxRetries - k
  {
    if outs[k].Thrown? && k + 1 < MaxRetries && !irq[k] {
      RetryShapeFrom(outs, irq, k + 1, delay * 2);
    }
  }

  /**
   * At most three attempts; the sleeps are 1000 ms and then 2000 ms, one
   * fewer than the attempts unless the last sleep was interrupted, in which
   * case the call ends with the interruption message; 4000 ms is never slept.
   */
  lemma RetryShape(keyValid: bool, ts: seq<Transport>, irq: seq<bool>)
    requires |ts| >= MaxRetries && |irq| >= MaxRetries - 1
    ensures var run := RetryCall(keyValid, ts, irq);
      && 1 <= run.attempts <= MaxRetries
      && run.delays == [1000, 2000][..|run.delays|]
      && 4000 !in run.delays
      && (|run.delays| == run.attempts - 1
          || (|run.delays| == run.attempts && ts[run.attempts - 1].Failed?
              && run.outcome == Thrown(InterruptedPrefix + ts[run.attempts - 1].message)))
  {
    var outs := AttemptOutcomes(keyValid, ts);
    RetryShapeFrom(outs, irq, 0, InitialDelayMs);
    var run := RetryCall(keyValid, ts, irq);
    assert |run.delays| <= 2;
    assert Backoff(1000, 2) == [1000, 2000];
    CallOnceThrowsIff(keyValid, ts[run.attempts - 1]);
  }

  /** Attempts k0 .. k-1 failed without interruption and attempt k returned: that is the result. */
  lemma {:induction false} RetryReturnsFrom(outs: seq<Outcome>, irq: seq<bool>, k0: nat, delay: int, k: nat)
    requires k0 <= k < MaxRetries && |outs| >= MaxRetries && |irq| >= MaxRetries - 1
    requires forall j :: k0 <= j < k ==> outs[j].Thrown? && !irq[j]
    requires outs[k].Returned?
    ensures Retry(outs, irq, k0, delay) == RetryRun(outs[k], k + 1, Backoff(delay, k - k0))
    decreases k - k0
  {
    if k0 < k {
      assert outs[k0].Thrown? && !irq[k0] && k0 + 1 < MaxRetries;
      var rest := Retry(outs, irq, k0 + 1, delay * 2);
      assert Retry(outs, irq, k0, delay) == RetryRun(rest.outcome, rest.attempts, [delay] + rest.delays);
      RetryReturnsFrom(outs, irq, k0 + 1, delay * 2, k);
      assert Backoff(delay, k - k0) == [delay] + Backoff(delay * 2, k - (k0 + 1));
    }
  }

  /** If attempt k (0-based) is the first to return, the call returns its text after exactly k sleeps. */
  lemma RetryReturnsFirstSuccess(keyValid: bool, ts: seq<Transport>, irq: seq<bool>, k: nat)
    requires k < MaxRetries && |ts| >= MaxRetries && |irq| >= MaxRetries - 1
    requires forall j :: 0 <= j < k ==> CallOnce(keyValid, ts[j]).Thrown? && !irq[j]
    requires CallOnce(keyValid, ts[k]).Returned?
    ensures RetryCall(keyValid, ts, irq) == RetryRun(CallOnce(keyValid, ts[k]), k + 1, [1000, 2000][..k])
  {
    var outs := AttemptOutcomes(keyValid, ts);
    RetryReturnsFrom(outs, irq, 0, InitialDelayMs, k);
    assert Backoff(1000, 2) == [1000, 2000];
    assert Backoff(1000, 1) == [1000];
  }

  /** Three failures without interruption: the call throws "Maximum retry attempts reached: " and the last failure's message. */
  lemma RetryExhausted(keyValid: bool, ts: seq<Transport>, irq: seq<bool>)
    requires |ts| >= MaxRetries && |irq| >= MaxRetries - 1
    requires keyValid && forall j :: 0 <= j < MaxRetries ==> ts[j].Failed?
    requires !irq[0] && !irq[1]
    ensures RetryCall(keyValid, ts, irq) == RetryRun(Thrown(MaxRetriesPrefix + ts[2].message), 3, [1000, 2000])
  {
    var outs := AttemptOutcomes(keyValid, ts);
    assert outs[0] == Thrown(ts[0].message) && outs[1] == Thrown(ts[1].message) && outs[2] == Thrown(ts[2].message);
    assert Retry(outs, irq, 2, 4000) == RetryRun(Thrown(MaxRetriesPrefix + ts[2].message), 3, []);
  }

  /** An interrupt in the sleep after failed attempt k ends the call at once, with that attempt's message. */
  lemma RetryInterrupted(keyValid: bool, ts: seq<Transport>, irq: seq<bool>, k: nat)
    requires k < MaxRetries - 1 && |ts| >= MaxRetries && |irq| >= MaxRetries - 1
    requires keyValid && forall j :: 0 <= j <= k ==> ts[j].Failed?
    requires forall j :: 0 <= j < k ==> !irq[j]
    requires irq[k]
    ensures RetryCall(keyValid, ts, irq) == RetryRun(Thrown(InterruptedPrefix + ts[k].message), k + 1, [1000, 2000][..k + 1])
  {
    var outs := AttemptOutcomes(keyValid, ts);
    assert outs[0] == Thrown(ts[0].message);
    if k == 1 {
      assert outs[1] == Thrown(ts[1].message);
      assert Retry(outs, irq, 1, 2000) == RetryRun(Thrown(InterruptedPrefix + ts[1].message), 2, [2000]);
    }
  }

  /** Without a key, makeApiCall returns the fixed message, so the loop stops after one attempt and no sleep. */
  lemma RetryWithoutKey(ts: seq<Transport>, irq: seq<bool>)
    requires |ts| >= MaxRetries && |irq| >= MaxRetries - 1
    ensures RetryCall(false, ts, irq) == RetryRun(Returned(MissingKeyMessage), 1, [])
  {
    assert AttemptOutcomes(false, ts)[0] == Returned(MissingKeyMessage);
  }

  /** makeAsyncApiCall's lambda: the retry result, or the exception's message behind a fixed prefix. */
  function AsyncText(o: Outcome): string
  {
    match o
    case Returned(text) => text
    case Thrown(message) => AsyncErrorPrefix + message
  }

  /** Every body in requests is the request for prompt. */
  predicate SentFor(requests: seq<string>, prompt: string)
  {
    forall i :: 0 <= i < |requests| ==> requests[i] == RequestBody(prompt)
  }

  /** The text a future of makeAsyncApiCall completes with. */
  function AsyncResult(keyValid: bool, ts: seq<Transport>, irq: seq<bool>): string
    requires |ts| >= MaxRetries && |irq| >= MaxRetries - 1
  {
    AsyncText(RetryCall(keyValid, ts, irq).outcome)
  }

  /** When every attempt fails, the future still completes normally, with both prefixes and the last message. */
  lemma AsyncExhausted(keyValid: bool, ts: seq<Transport>, irq: seq<bool>)
    requires |ts| >= MaxRetries && |irq| >= MaxRetries - 1
    requires keyValid && forall j :: 0 <= j < MaxRetries ==> ts[j].Failed?
    requires !irq[0] && !irq[1]
    ensures AsyncResult(keyValid, ts, irq) == AsyncErrorPrefix + MaxRetriesPrefix + ts[2].message
  {
    RetryExhausted(keyValid, ts, irq);
  }

  class ChatGptHandler {
    /** The OpenAI key; None stands for a null reference. */
    var apiKey: Option<string>

    /** A new handler starts with the empty key, so it has no valid key. */
    constructor ()
      ensures apiKey == Some("") && !HasValidApiKey()
    {
      apiKey := Some("");
    }

    method SetApiKey(key: Option<string>)
      modifies this
      ensures apiKey == key
      ensures HasValidApiKey() <==> key.Some? && key.value != ""
    {
      apiKey := key;
    }

    /** The key is neither null nor empty. */
    predicate HasValidApiKey()
      reads this
    {
      apiKey.Some? && apiKey.value != ""
    }

    /**
     * makeApiCall: without a key, the fixed message and no request at all;
     * otherwise the request body is built and the exchange decides the result.
     */
    method MakeApiCall(prompt: string, t: Transport) returns (outcome: Outcome, request: Option<string>)
      ensures outcome == CallOnce(HasValidApiKey(), t)
      ensures request.Some? == HasValidApiKey()
      ensures request.Some? ==> request.value == RequestBody(prompt)
    {
      if !HasValidApiKey() {
        return Returned(MissingKeyMessage), None;
      }
      request := Some(RequestBody(prompt));
      match t
      case Delivered(lines) =>
        var response := ReadTrimmedLines(lines);
        var content := ParseJsonResponse(response);
        outcome := Returned(content);
      case Rejected(lines) =>
        var errorText := ReadTrimmedLines(lines);
        outcome := Returned(ApiErrorPrefix + errorText);
      case Failed(message) =>
        outcome := Thrown(message);
    }

    /**
     * makeApiCallWithRetry: ts[k] is what attempt k meets on the network and
     * irq[k] whether the sleep after a failed attempt k is interrupted;
     * requests are the bodies sent, one per attempt that got past the key
     * check.
     */
    method MakeApiCallWithRetry(prompt: string, ts: seq<Transport>, irq: seq<bool>)
      returns (outcome: Outcome, attempts: nat, delays: seq<int>, requests: seq<string>)
      requires |ts| >= MaxRetries && |irq| >= MaxRetries - 1
      ensures RetryRun(outcome, attempts, delays) == RetryCall(HasValidApiKey(), ts, irq)
      ensures |requests| == (if HasValidApiKey() then attempts else 0) && SentFor(requests, prompt)
    {
      ghost var outs := AttemptOutcomes(HasValidApiKey(), ts);
      var retryCount := 0;
      var retryDelayMs := InitialDelayMs;
      delays := [];
      requests := [];
      while retryCount < MaxRetries
        invariant 0 <= retryCount < MaxRetries
        invariant var rest := Retry(outs, irq, retryCount, retryDelayMs);
          RetryRun(rest.outcome, rest.attempts, delays + rest.delays) == RetryCall(HasValidApiKey(), ts, irq)
        invariant HasValidApiKey() ==> |requests| == retryCount
        invariant !HasValidApiKey() ==> requests == []
        invariant SentFor(requests, prompt)
        decreases MaxRetries - retryCount
      {
        var result, request := MakeApiCall(prompt, ts[retryCount]);
        assert result == outs[retryCount];
        if request.Some? {
          requests := requests + [request.value];
        }
        match result
        case Returned(text) =>
          assert delays + [] == delays;
          return Returned(text), retryCount + 1, delays, requests;
        case Thrown(message) =>
          retryCount := retryCount + 1;
          if retryCount >= MaxRetries {
            assert delays + [] == delays;
            return Thrown(MaxRetriesPrefix + message), retryCount, delays, requests;
          }
          delays := delays + [retryDelayMs];
          if irq[retryCount - 1] {
            return Thrown(InterruptedPrefix + message), retryCount, delays, requests;
          }
          assert delays + Retry(outs, irq, retryCount, retryDelayMs * 2).delays
            == (delays[..|delays| - 1]) + ([retryDelayMs] + Retry(outs, irq, retryCount, retryDelayMs * 2).delays);
          retryDelayMs := retryDelayMs * 2;
      }
      // The fallback return after the loop is unreachable: every exit is a return above.
      assert false;
    }

    /** makeAsyncApiCall: the future's text, and the bodies its attempts sent; no exception escapes it. */
    method MakeAsyncApiCall(prompt: string, ts: seq<Transport>, irq: seq<bool>)
      returns (text: string, requests: seq<string>)
      requires |ts| >= MaxRetries && |irq| >= MaxRetries - 1
      ensures text == AsyncResult(HasValidApiKey(), ts, irq)
      ensures |requests| == (if HasValidApiKey() then RetryCall(HasValidApiKey(), ts, irq).attempts else 0)
      ensures SentFor(requests, prompt)
    {
      var outcome, _, _, sent := MakeApiCallWithRetry(prompt, ts, irq);
      requests := sent;
      match outcome
      case Returned(t) => text := t;
      case Thrown(message) => text := AsyncErrorPrefix + message;
    }
  }
}
