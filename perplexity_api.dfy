/**
 * Perplexity_api_handler: the credential gate, the request body, one
 * exchange with no retry, the canned reply that stands in for parsing, and
 * the asynchronous wrapper that turns every exception into text.
 */
module PerplexityApi {
  import opened Wrappers
  import opened JavaString
  import opened Wire

  const Endpoint := "https://api.perplexity.ai/chat/completions"
  const Model := "sonar-medium-online"
  const MissingKeyMessage := "Error: API key not set. Please configure your Perplexity API key in Settings."
  const AsyncErrorPrefix := "Error calling Perplexity API: "
  const ReplyPrefix := "Perplexity response to: "
  const SimulatedSuffix := " [Simulated Perplexity response with web-search capability]"

  /** The five canned openings simulateResponse chooses from. */
  const CannedReplies := [
    "I've searched the web and found the following information...",
    "According to the latest information available online...",
    "Multiple sources suggest that...",
    "Based on my real-time search capabilities, I can tell you that...",
    "The most up-to-date information indicates that..."
  ]

  /** The text of the request body before the escaped prompt. */
  const BodyHead := "{\"model\": \"" + Model + "\", \"messages\": [{\"role\": \"user\", \"content\": \""

  /** The text of the request body after the escaped prompt. */
  const BodyTail := "\"}], \"options\": {\"temperature\": 0.7}}"

  /** The JSON body makeApiCall writes for a prompt. */
  function RequestBody(prompt: string): string
  {
    BodyHead + EscapeQuotes(prompt) + BodyTail
  }

  /** The body names the model sonar-medium-online and determines the prompt. */
  lemma RequestBodyDeterminesPrompt(p1: string, p2: string)
    requires RequestBody(p1) == RequestBody(p2)
    ensures p1 == p2
    ensures RequestBody(p1)[..11 + |Model|] == "{\"model\": \"" + Model
  {
    var e1, e2 := EscapeQuotes(p1), EscapeQuotes(p2);
    var b1, b2 := RequestBody(p1), RequestBody(p2);
    assert |e1| == |e2|;
    assert e1 == b1[|BodyHead|..|BodyHead| + |e1|];
    assert e2 == b2[|BodyHead|..|BodyHead| + |e2|];
    EscapeQuotesInjective(p1, p2);
  }

  /**
   * Math.abs(hash % 5) with Java's truncating remainder: always a valid index
   * into the five replies, and equal to |hash| mod 5 for every int.
   */
  function ReplyIndex(hash: int): (i: nat)
    ensures i < |CannedReplies|
    ensures i == JavaAbs(hash) % 5
  {
    JavaAbs(JavaRem(hash, |CannedReplies|))
  }

  /** simulateResponse: one of the canned replies followed by the fixed suffix; hash stands for prompt.hashCode(). */
  function SimulateResponse(hash: int): (r: string)
    ensures |r| > |SimulatedSuffix|
    ensures r[|r| - |SimulatedSuffix|..] == SimulatedSuffix
    ensures r[..|r| - |SimulatedSuffix|] in CannedReplies
  {
    var reply := CannedReplies[ReplyIndex(hash)];
    assert (reply + SimulatedSuffix)[..|reply|] == reply;
    reply + SimulatedSuffix
  }

  /** What makeApiCall does with one HTTP exchange. */
  function CallOnce(keyValid: bool, prompt: string, t: Transport, hash: int): Outcome
  {
    if !keyValid then Returned(MissingKeyMessage)
    else
      match t
      case Delivered(_) => Returned(ReplyPrefix + prompt + "\n\n" + SimulateResponse(hash))
      case Rejected(lines) => Returned(ApiErrorPrefix + JoinTrimmed(lines))
      case Failed(message) => Thrown(message)
  }

  /**
   * On a delivered response the reply echoes the prompt and ends with the
   * simulated suffix, whatever the response body holds.
   */
  lemma DeliveredReplyIgnoresBody(prompt: string, lines1: seq<string>, lines2: seq<string>, hash: int)
    ensures CallOnce(true, prompt, Delivered(lines1), hash) == CallOnce(true, prompt, Delivered(lines2), hash)
    ensures var r := CallOnce(true, prompt, Delivered(lines1), hash).text;
      && r[..|ReplyPrefix| + |prompt|] == ReplyPrefix + prompt
      && r[|r| - |SimulatedSuffix|..] == SimulatedSuffix
  {
    var sim := SimulateResponse(hash);
    ConcatEnds(ReplyPrefix + prompt, "\n\n", sim, |SimulatedSuffix|);
  }

  /** The head and the tail of a three-part concatenation. */
  lemma ConcatEnds(a: string, b: string, c: string, n: nat)
    requires n <= |c|
    ensures (a + b + c)[..|a|] == a
    ensures (a + b + c)[|a + b + c| - n..] == c[|c| - n..]
  {
  }

  /** makeApiCall throws exactly when a key is set and the exchange itself fails. */
  lemma CallOnceThrowsIff(keyValid: bool, prompt: string, t: Transport, hash: int)
    ensures CallOnce(keyValid, prompt, t, hash).Thrown? <==> keyValid && t.Failed?
  {
  }

  /** makeAsyncApiCall's lambda: one call, and the exception's message behind a fixed prefix. */
  function AsyncText(o: Outcome): string
  {
    match o
    case Returned(text) => text
    case Thrown(message) => AsyncErrorPrefix + message
  }

  /** Every body in requests is the request for prompt. */
  predicate SentFor(requests: seq<string>, prompt: string)
  {
    forall i :: 0 <= i < |requests| ==> requests[i] == RequestBody(prompt)
  }

  /** The text a future of makeAsyncApiCall completes with. */
  function AsyncResult(keyValid: bool, prompt: string, t: Transport, hash: int): string
  {
    AsyncText(CallOnce(keyValid, prompt, t, hash))
  }

  /** There is no retry: a failed exchange is reported at once. */
  lemma AsyncFailureNoRetry(prompt: string, message: string, hash: int)
    ensures AsyncResult(true, prompt, Failed(message), hash) == AsyncErrorPrefix + message
  {
  }

  class PerplexityHandler {
    /** The Perplexity key; None stands for a null reference. */
    var apiKey: Option<string>

    /** A new handler starts with the empty key, so it has no valid key. */
    constructor ()
      ensures apiKey == Some("") && !HasValidApiKey()
    {
      apiKey := Some("");
    }

    method SetApiKey(key: Option<string>)
      modifies this
      ensures apiKey == key
      ensures HasValidApiKey() <==> key.Some? && key.value != ""
    {
      apiKey := key;
    }

    /** The key is neither null nor empty. */
    predicate HasValidApiKey()
      reads this
    {
      apiKey.Some? && apiKey.value != ""
    }

    /**
     * makeApiCall: without a key, the fixed message and no request at all;
     * otherwise the request body is built and the exchange decides the result.
     * hash stands for prompt.hashCode().
     */
    method MakeApiCall(prompt: string, t: Transport, hash: int) returns (outcome: Outcome, request: Option<string>)
      ensures outcome == CallOnce(HasValidApiKey(), prompt, t, hash)
      ensures request == if HasValidApiKey() then Some(RequestBody(prompt)) else None
    {
      if !HasValidApiKey() {
        return Returned(MissingKeyMessage), None;
      }
      request := Some(RequestBody(prompt));
      match t
      case Delivered(lines) =>
        // The body is read to its end, and then not used.
        var _ := ReadTrimmedLines(lines);
        outcome := Returned(ReplyPrefix + prompt + "\n\n" + SimulateResponse(hash));
      case Rejected(lines) =>
        var errorText := ReadTrimmedLines(lines);
        outcome := Returned(ApiErrorPrefix + errorText);
      case Failed(message) =>
        outcome := Thrown(message);
    }

    /** makeAsyncApiCall: one call of makeApiCall, and the bodies it sent (one, or none without a key); no exception escapes. */
    method MakeAsyncApiCall(prompt: string, t: Transport, hash: int) returns (text: string, requests: seq<string>)
      ensures text == AsyncResult(HasValidApiKey(), prompt, t, hash)
      ensures |requests| == (if HasValidApiKey() then 1 else 0) && SentFor(requests, prompt)
    {
      var outcome, request := MakeApiCall(prompt, t, hash);
      requests := if request.Some? then [request.value] else [];
      match outcome
      case Returned(r) => text := r;
      case Thrown(message) => text := AsyncErrorPrefix + message;
    }
  }
}
