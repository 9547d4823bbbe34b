/**
 * What the two handlers share around the HTTP exchange: the abstract
 * outcome of one request, the loop that reads a stream line by line and
 * appends each trimmed line, and the quote escaping used to embed text in
 * a JSON request body.
 */
module Wire {
  import opened JavaString

  /**
   * What one HTTP exchange delivers, standing in for HttpURLConnection:
   * the lines of the response stream, the lines of the error stream after
   * reading the response stream failed, or an exception (with its message)
   * that makeApiCall lets escape.
   */
  datatype Transport =
    | Delivered(lines: seq<string>)
    | Rejected(errorLines: seq<string>)
    | Failed(message: string)

  /** A Java call that either returns a string or throws an exception with a message. */
  datatype Outcome = Returned(text: string) | Thrown(message: string)

  const ApiErrorPrefix := "API Error: "

  /** The text a StringBuilder holds after appending line.trim() for every line read. */
  function JoinTrimmed(lines: seq<string>): string
    decreases |lines|
  {
    if lines == [] then [] else JoinTrimmed(lines[..|lines| - 1]) + Trim(lines[|lines| - 1])
  }

  /** Reading a stream to its end: `while ((line = br.readLine()) != null) sb.append(line.trim())`. */
  method ReadTrimmedLines(lines: seq<string>) returns (text: string)
    ensures text == JoinTrimmed(lines)
  {
    text := [];
    var i := 0;
    while i < |lines|
      invariant 0 <= i <= |lines|
      invariant text == JoinTrimmed(lines[..i])
    {
      assert lines[..i + 1][..i] == lines[..i];
      text := text + Trim(lines[i]);
      i := i + 1;
    }
    assert lines[..i] == lines;
  }

  /** Reading two stretches of a stream one after the other yields the two texts concatenated. */
  lemma {:induction false} JoinTrimmedAppend(a: seq<string>, b: seq<string>)
    ensures JoinTrimmed(a + b) == JoinTrimmed(a) + JoinTrimmed(b)
    decreases |b|
  {
    if b != [] {
      var b' := b[..|b| - 1];
      assert (a + b)[..|a + b| - 1] == a + b';
      JoinTrimmedAppend(a, b');
    } else {
      assert a + b == a;
    }
  }

  /** prompt.replace("\"", "\\\""): the only escaping the handlers apply to a prompt. */
  function EscapeQuotes(s: string): string
  {
    Replace(s, "\"", "\\\"")
  }

  /** EscapeQuotes works character by character: a quote becomes backslash-quote, anything else stays. */
  lemma EscapeQuotesCons(c: char, t: string)
    ensures EscapeQuotes([c] + t) == (if c == '"' then "\\\"" else [c]) + EscapeQuotes(t)
  {
    var s := [c] + t;
    assert s[1..] == t;
    assert StartsWith(s, "\"") <==> c == '"';
  }

  /** An escaped text never begins with a bare quote. */
  lemma EscapeQuotesHead(t: string)
    ensures EscapeQuotes(t) == [] || EscapeQuotes(t)[0] != '"'
  {
    if t != [] {
      assert t == [t[0]] + t[1..];
      EscapeQuotesCons(t[0], t[1..]);
    }
  }

  /** In the escaped text every quote comes right after a backslash. */
  lemma {:induction false} EscapedQuotesArePreceded(s: string)
    ensures forall k :: 0 <= k < |EscapeQuotes(s)| && EscapeQuotes(s)[k] == '"' ==>
      k > 0 && EscapeQuotes(s)[k - 1] == '\\'
  {
    if s != [] {
      var t := s[1..];
      assert s == [s[0]] + t;
      EscapeQuotesCons(s[0], t);
      EscapedQuotesArePreceded(t);
      var e, et := EscapeQuotes(s), EscapeQuotes(t);
      var h := if s[0] == '"' then "\\\"" else [s[0]];
      assert e == h + et;
      forall k | 0 <= k < |e| && e[k] == '"' ensures k > 0 && e[k - 1] == '\\' {
        if k >= |h| {
          assert e[k] == et[k - |h|];
          if k - |h| == 0 {
            EscapeQuotesHead(t);
          } else {
            assert e[k - 1] == et[k - |h| - 1];
          }
        }
      }
    }
  }

  /**
   * The escaping is undone by replacing backslash-quote with a quote (the
   * first rewrite of the ChatGPT cleaner): no prompt is lost or altered by it,
   * even one that already holds backslashes.
   */
  lemma {:induction false} EscapeQuotesRoundTrip(s: string)
    ensures Replace(EscapeQuotes(s), "\\\"", "\"") == s
  {
    if s != [] {
      var t := s[1..];
      assert s == [s[0]] + t;
      EscapeQuotesCons(s[0], t);
      EscapeQuotesRoundTrip(t);
      var e, et := EscapeQuotes(s), EscapeQuotes(t);
      if s[0] == '"' {
        assert StartsWith(e, "\\\"");
        assert e[2..] == et;
      } else {
        EscapeQuotesHead(t);
        assert e == [s[0]] + et;
        assert |e| >= 2 ==> e[1] == et[0];
        assert !StartsWith(e, "\\\"");
        assert e[1..] == et;
      }
    }
  }

  /** Different prompts give different escaped texts. */
  lemma EscapeQuotesInjective(s1: string, s2: string)
    requires EscapeQuotes(s1) == EscapeQuotes(s2)
    ensures s1 == s2
  {
    EscapeQuotesRoundTrip(s1);
    EscapeQuotesRoundTrip(s2);
  }
}
