/**
 * The regular-expression rewrites of ChatGPT_api_handler.cleanResponse, each
 * written as the left-to-right scan that java.util.regex performs for
 * `replaceAll`: try a match at the current index, and on success continue
 * after it, otherwise keep one character and move on.
 */
module Markup {
  import opened Wrappers
  import opened JavaString

  /** The characters Java's `.` refuses when DOTALL is off. */
  predicate IsLineTerminator(c: char) {
    c == '\n' || c == '\r' || c == '\U{0085}' || c == '\U{2028}' || c == '\U{2029}'
  }

  /** Java's `\s`: [ \t\n\x0B\f\r]. */
  predicate IsRegexSpace(c: char) {
    c == ' ' || c == '\t' || c == '\n' || c == '\U{000B}' || c == '\U{000C}' || c == '\r'
  }

  predicate IsHexDigit(c: char) {
    ('0' <= c <= '9') || ('a' <= c <= 'f') || ('A' <= c <= 'F')
  }

  /** The single-character classes the rewrites repeat with `+`, `*` or `{3,}`. */
  datatype CharClass = Hash | Space | Digit | Newline

  predicate InClass(c: char, cls: CharClass) {
    match cls
    case Hash => c == '#'
    case Space => IsRegexSpace(c)
    case Digit => '0' <= c <= '9'
    case Newline => c == '\n'
  }

  /** How many characters a greedy `cls*` takes at the start of s. */
  function Run(s: string, cls: CharClass): (n: nat)
    ensures n <= |s|
    ensures forall k :: 0 <= k < n ==> InClass(s[k], cls)
    ensures n == |s| || !InClass(s[n], cls)
    decreases |s|
  {
    if |s| > 0 && InClass(s[0], cls) then 1 + Run(s[1..], cls) else 0
  }

  /** Looking one character further into t is looking at the same index of t[1..]. */
  lemma OccursShift(t: string, d: string, j: nat)
    requires |t| > 0
    ensures OccursAt(t[1..], d, j) <==> OccursAt(t, d, j + 1)
  {
    if j + 1 + |d| <= |t| {
      assert t[1..][j..j + |d|] == t[j + 1..j + 1 + |d|];
    }
  }

  /**
   * The length of the body a lazy `(.*?)` (or `[\s\S]*?` when anyChar)
   * takes before the closing delimiter d: the first index where d occurs,
   * provided no line terminator comes before it.
   */
  function LazyBody(t: string, d: string, anyChar: bool): (r: Option<nat>)
    requires |d| > 0
    ensures r.Some? ==> OccursAt(t, d, r.value)
    ensures r.Some? ==> forall k :: 0 <= k < r.value ==> !OccursAt(t, d, k)
    ensures r.Some? && !anyChar ==> forall k :: 0 <= k < r.value ==> !IsLineTerminator(t[k])
    ensures r.None? && anyChar ==> forall k :: !OccursAt(t, d, k)
    decreases |t|
  {
    if StartsWith(t, d) then Some(0)
    else if t == [] || (!anyChar && IsLineTerminator(t[0])) then None
    else
      var rest := LazyBody(t[1..], d, anyChar);
      assert forall j: nat :: 1 <= j ==> (OccursAt(t, d, j) <==> OccursAt(t[1..], d, j - 1)) by {
        forall j: nat | 1 <= j ensures OccursAt(t, d, j) <==> OccursAt(t[1..], d, j - 1) {
          OccursShift(t, d, j - 1);
        }
      }
      assert !OccursAt(t, d, 0);
      match rest
      case None => None
      case Some(k) => Some(k + 1)
  }

  /**
   * replaceAll of `d(.*?)d` (or `d[\s\S]*?d` when anyChar) with "$1" when
   * keep holds, or with "" otherwise.
   */
  function StripDelimited(s: string, d: string, keep: bool, anyChar: bool): (r: string)
    requires |d| > 0
    ensures |r| <= |s|
    decreases |s|
  {
    if s == [] then []
    else if StartsWith(s, d) && LazyBody(s[|d|..], d, anyChar).Some? then
      var k := LazyBody(s[|d|..], d, anyChar).value;
      (if keep then s[|d|..|d| + k] else []) + StripDelimited(s[|d| + k + |d|..], d, keep, anyChar)
    else [s[0]] + StripDelimited(s[1..], d, keep, anyChar)
  }

  /** A text in which the delimiter never occurs passes through unchanged. */
  lemma {:induction false} StripDelimitedAbsent(s: string, d: string, keep: bool, anyChar: bool)
    requires |d| > 0
    requires forall k :: !OccursAt(s, d, k)
    ensures StripDelimited(s, d, keep, anyChar) == s
    decreases |s|
  {
    if s != [] {
      assert !OccursAt(s, d, 0);
      forall k: nat ensures !OccursAt(s[1..], d, k) {
        assert !OccursAt(s, d, k + 1);
        if k + 1 + |d| <= |s| {
          assert s[1..][k..k + |d|] == s[k + 1..k + 1 + |d|];
        }
      }
      StripDelimitedAbsent(s[1..], d, keep, anyChar);
    }
  }

  /** replaceAll("#+\\s+", ""): a run of '#' followed by white space, anywhere in the text. */
  function StripHeaders(s: string): (r: string)
    ensures |r| <= |s|
    decreases |s|
  {
    if s == [] then []
    else
      var h := Run(s, Hash);
      var w := Run(s[h..], Space);
      if h > 0 && w > 0 then StripHeaders(s[h + w..]) else [s[0]] + StripHeaders(s[1..])
  }

  /** replaceAll("^\\s*[\\*•]\\s+", ""): without MULTILINE, `^` anchors at index 0 only. */
  function StripLeadingBullet(s: string): (r: string)
    ensures |r| <= |s| && r == s[|s| - |r|..]
  {
    var w := Run(s, Space);
    if w < |s| && (s[w] == '*' || s[w] == '\U{2022}') && Run(s[w + 1..], Space) > 0
    then s[w + 1 + Run(s[w + 1..], Space)..]
    else s
  }

  /** replaceAll("^\\s*\\d+\\.\\s+", ""): a number marker at index 0 only. */
  function StripLeadingNumber(s: string): (r: string)
    ensures |r| <= |s| && r == s[|s| - |r|..]
  {
    var w := Run(s, Space);
    var n := Run(s[w..], Digit);
    if n > 0 && w + n < |s| && s[w + n] == '.' && Run(s[w + n + 1..], Space) > 0
    then s[w + n + 1 + Run(s[w + n + 1..], Space)..]
    else s
  }

  /** replaceAll("\\\\u([0-9a-fA-F]{4})", ""): a backslash, 'u' and four hex digits. */
  function StripUnicodeEscapes(s: string): (r: string)
    ensures |r| <= |s|
    decreases |s|
  {
    if s == [] then []
    else if |s| >= 6 && s[0] == '\\' && s[1] == 'u'
      && IsHexDigit(s[2]) && IsHexDigit(s[3]) && IsHexDigit(s[4]) && IsHexDigit(s[5])
    then StripUnicodeEscapes(s[6..])
    else [s[0]] + StripUnicodeEscapes(s[1..])
  }

  /** replaceAll("\\n{3,}", "\n\n"): every run of three or more newlines becomes two. */
  function CollapseNewlines(s: string): (r: string)
    ensures |r| <= |s|
    decreases |s|
  {
    if s == [] then []
    else if s[0] == '\n' then
      var n := Run(s, Newline);
      (if n >= 3 then "\n\n" else s[..n]) + CollapseNewlines(s[n..])
    else [s[0]] + CollapseNewlines(s[1..])
  }

  predicate NewlineAt(s: string, k: int) {
    0 <= k < |s| && s[k] == '\n'
  }

  /** No three consecutive newlines anywhere in s. */
  predicate NoNewlineRun3(s: string) {
    forall k :: 0 <= k < |s| ==> !(NewlineAt(s, k) && NewlineAt(s, k + 1) && NewlineAt(s, k + 2))
  }

  /** One or two leading characters cannot start a run of three when what follows begins with no newline. */
  lemma NoRun3AfterShortPrefix(x: string, c: string)
    requires |x| <= 2 && NoNewlineRun3(c) && (c == [] || c[0] != '\n')
    ensures NoNewlineRun3(x + c)
  {
    var r := x + c;
    forall k | 0 <= k < |r| ensures !(NewlineAt(r, k) && NewlineAt(r, k + 1) && NewlineAt(r, k + 2)) {
      if k >= |x| {
        assert NewlineAt(r, k) ==> NewlineAt(c, k - |x|);
        assert NewlineAt(r, k + 1) ==> NewlineAt(c, k - |x| + 1);
        assert NewlineAt(r, k + 2) ==> NewlineAt(c, k - |x| + 2);
      } else {
        assert NewlineAt(r, |x|) ==> NewlineAt(c, 0);
      }
    }
  }

  /** A character other than a newline cannot start a run of three. */
  lemma NoRun3AfterOther(ch: char, c: string)
    requires ch != '\n' && NoNewlineRun3(c)
    ensures NoNewlineRun3([ch] + c)
  {
    var r := [ch] + c;
    forall k | 1 <= k < |r| ensures !(NewlineAt(r, k) && NewlineAt(r, k + 1) && NewlineAt(r, k + 2)) {
      assert NewlineAt(r, k) ==> NewlineAt(c, k - 1);
      assert NewlineAt(r, k + 1) ==> NewlineAt(c, k);
      assert NewlineAt(r, k + 2) ==> NewlineAt(c, k + 1);
    }
    assert !NewlineAt(r, 0);
  }

  /** After the collapse no run of three newlines is left, and the text still starts as before. */
  lemma {:induction false} CollapseLeavesNoRun3(s: string)
    ensures NoNewlineRun3(CollapseNewlines(s))
    ensures CollapseNewlines(s) == [] <==> s == []
    ensures s != [] ==> CollapseNewlines(s)[0] == s[0]
    decreases |s|
  {
    if s != [] && s[0] == '\n' {
      var n := Run(s, Newline);
      var x := if n >= 3 then "\n\n" else s[..n];
      CollapseLeavesNoRun3(s[n..]);
      NoRun3AfterShortPrefix(x, CollapseNewlines(s[n..]));
    } else if s != [] {
      CollapseLeavesNoRun3(s[1..]);
      NoRun3AfterOther(s[0], CollapseNewlines(s[1..]));
    }
  }

  /** Cutting characters off either end cannot create a run of three newlines. */
  lemma NoRun3Infix(s: string, i: nat, j: nat)
    requires i <= j <= |s| && NoNewlineRun3(s)
    ensures NoNewlineRun3(s[i..j])
  {
    var t := s[i..j];
    forall k | 0 <= k < |t| ensures !(NewlineAt(t, k) && NewlineAt(t, k + 1) && NewlineAt(t, k + 2)) {
      assert NewlineAt(t, k) ==> NewlineAt(s, k + i);
      assert NewlineAt(t, k + 1) ==> NewlineAt(s, k + i + 1);
      assert NewlineAt(t, k + 2) ==> NewlineAt(s, k + i + 2);
    }
  }

  /** Trimming cuts an infix, so it cannot create a run of three newlines. */
  lemma TrimKeepsNoRun3(s: string)
    requires NoNewlineRun3(s)
    ensures NoNewlineRun3(Trim(s))
  {
    var b := SkipSpaces(s, 0);
    NoRun3Infix(s, b, b + |Trim(s)|);
  }

  /** A text with no run of three newlines is a fixed point of the collapse, so the collapse is idempotent. */
  lemma {:induction false} CollapseFixesNoRun3(s: string)
    requires NoNewlineRun3(s)
    ensures CollapseNewlines(s) == s
    decreases |s|
  {
    if s != [] {
      var n := if s[0] == '\n' then Run(s, Newline) else 1;
      if s[0] == '\n' && n >= 3 {
        assert NewlineAt(s, 0) && NewlineAt(s, 1) && NewlineAt(s, 2);
      }
      assert s == s[..n] + s[n..];
      forall k | 0 <= k < |s[n..]| ensures !(NewlineAt(s[n..], k) && NewlineAt(s[n..], k + 1) && NewlineAt(s[n..], k + 2)) {
        assert NewlineAt(s[n..], k) ==> NewlineAt(s, k + n);
        assert NewlineAt(s[n..], k + 1) ==> NewlineAt(s, k + n + 1);
        assert NewlineAt(s[n..], k + 2) ==> NewlineAt(s, k + n + 2);
      }
      CollapseFixesNoRun3(s[n..]);
    }
  }

  lemma CollapseIdempotent(s: string)
    ensures CollapseNewlines(CollapseNewlines(s)) == CollapseNewlines(s)
  {
    CollapseLeavesNoRun3(s);
    CollapseFixesNoRun3(CollapseNewlines(s));
  }

  /** s with every newline removed. */
  function WithoutNewlines(s: string): string
    decreases |s|
  {
    if s == [] then [] else (if s[0] == '\n' then [] else [s[0]]) + WithoutNewlines(s[1..])
  }

  lemma {:induction false} WithoutNewlinesAppend(a: string, b: string)
    ensures WithoutNewlines(a + b) == WithoutNewlines(a) + WithoutNewlines(b)
    decreases |a|
  {
    if a != [] {
      assert (a + b)[1..] == a[1..] + b;
      WithoutNewlinesAppend(a[1..], b);
    } else {
      assert a + b == b;
    }
  }

  lemma {:induction false} WithoutNewlinesOfNewlines(s: string)
    requires forall k :: 0 <= k < |s| ==> s[k] == '\n'
    ensures WithoutNewlines(s) == []
    decreases |s|
  {
    if s != [] {
      WithoutNewlinesOfNewlines(s[1..]);
    }
  }

  /** The collapse touches newlines only: every other character survives, in order. */
  lemma {:induction false} CollapseKeepsOtherCharacters(s: string)
    ensures WithoutNewlines(CollapseNewlines(s)) == WithoutNewlines(s)
    decreases |s|
  {
    if s != [] {
      CollapseKeepsOtherCharacters(s[1..]);
      if s[0] == '\n' {
        var n := Run(s, Newline);
        var x := if n >= 3 then "\n\n" else s[..n];
        CollapseKeepsOtherCharacters(s[n..]);
        WithoutNewlinesAppend(x, CollapseNewlines(s[n..]));
        WithoutNewlinesOfNewlines(x);
        assert s == s[..n] + s[n..];
        WithoutNewlinesAppend(s[..n], s[n..]);
        WithoutNewlinesOfNewlines(s[..n]);
      }
    }
  }

  /**
   * The middle steps of cleanResponse: LaTeX, markdown headers,
   * emphasis, code, list markers and Unicode escapes, in the source's order.
   */
  function StripMarkup(s: string): (r: string)
    ensures |r| <= |s|
  {
    var noBlockMath := StripDelimited(s, "$$", false, false);
    var noInlineMath := StripDelimited(noBlockMath, "$", false, false);
    var noHeaders := StripHeaders(noInlineMath);
    var noBold := StripDelimited(noHeaders, "**", true, false);
    var noDoubleUnderline := StripDelimited(noBold, "__", true, false);
    var noItalic := StripDelimited(noDoubleUnderline, "*", true, false);
    var noUnderline := StripDelimited(noItalic, "_", true, false);
    var noFences := StripDelimited(noUnderline, "```", false, true);
    var noInlineCode := StripDelimited(noFences, "`", true, false);
    var noBullet := StripLeadingBullet(noInlineCode);
    var noNumber := StripLeadingNumber(noBullet);
    var escapedBullets := Replace(noNumber, "\\u2022", "\U{2022}");
    var bullets := Replace(escapedBullets, "/u2022", "\U{2022}");
    ReplaceNeverLonger(noNumber, "\\u2022", "\U{2022}");
    ReplaceNeverLonger(escapedBullets, "/u2022", "\U{2022}");
    StripUnicodeEscapes(bullets)
  }
}
