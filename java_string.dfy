/**
 * The java.lang.String operations the handlers and panels rely on, written
 * out with Java's meaning: indexOf(String, int), replace(CharSequence,
 * CharSequence), trim(), and the `%` of int, which truncates toward zero.
 */
module JavaString {
  import opened Wrappers

  /** The characters String.trim() removes: every code point up to U+0020. */
  predicate IsTrimSpace(c: char) {
    c <= ' '
  }

  /** `p` occurs in `s` starting at index `k`. */
  predicate OccursAt(s: string, p: string, k: nat) {
    k + |p| <= |s| && s[k..k + |p|] == p
  }

  predicate StartsWith(s: string, p: string) {
    |p| <= |s| && s[..|p|] == p
  }

  /** s.indexOf(p, from) for a non-empty p; None stands for -1. */
  function IndexOf(s: string, p: string, from: nat): (r: Option<nat>)
    requires |p| > 0
    ensures r.Some? ==> from <= r.value && OccursAt(s, p, r.value)
    ensures r.Some? ==> forall k :: from <= k < r.value ==> !OccursAt(s, p, k)
    ensures r.None? ==> forall k :: from <= k ==> !OccursAt(s, p, k)
    decreases |s| - from
  {
    if from + |p| > |s| then None
    else if OccursAt(s, p, from) then Some(from)
    else IndexOf(s, p, from + 1)
  }

  /** indexOf finds an occurrence exactly when none comes before it. */
  lemma IndexOfFirst(s: string, p: string, from: nat, i: nat)
    requires |p| > 0 && from <= i && OccursAt(s, p, i)
    requires forall j :: from <= j < i ==> !OccursAt(s, p, j)
    ensures IndexOf(s, p, from) == Some(i)
  {
  }

  /**
   * s.replace(p, r): every occurrence of p, found from left to right and
   * without overlaps, is replaced by r.
   */
  function Replace(s: string, p: string, r: string): string
    requires |p| > 0
    decreases |s|
  {
    if |s| == 0 then []
    else if StartsWith(s, p) then r + Replace(s[|p|..], p, r)
    else [s[0]] + Replace(s[1..], p, r)
  }

  /** A replacement no longer than the pattern never lengthens the string. */
  lemma {:induction false} ReplaceNeverLonger(s: string, p: string, r: string)
    requires |p| > 0 && |r| <= |p|
    ensures |Replace(s, p, r)| <= |s|
    decreases |s|
  {
    if |s| > 0 {
      if StartsWith(s, p) {
        ReplaceNeverLonger(s[|p|..], p, r);
      } else {
        ReplaceNeverLonger(s[1..], p, r);
      }
    }
  }

  /** With no occurrence of p, replace leaves the string as it is. */
  lemma {:induction false} ReplaceAbsent(s: string, p: string, r: string)
    requires |p| > 0
    requires forall k :: !OccursAt(s, p, k)
    ensures Replace(s, p, r) == s
  {
    if |s| > 0 {
      assert !OccursAt(s, p, 0);
      assert !StartsWith(s, p);
      forall k: nat ensures !OccursAt(s[1..], p, k) {
        assert !OccursAt(s, p, k + 1);
        if k + 1 + |p| <= |s| {
          assert s[k + 1..k + 1 + |p|] == s[1..][k..k + |p|];
        }
      }
      ReplaceAbsent(s[1..], p, r);
    }
  }

  /** From index i on, the index of the first character that is not a trim-space. */
  function SkipSpaces(s: string, i: nat): (j: nat)
    requires i <= |s|
    ensures i <= j <= |s|
    ensures forall k :: i <= k < j ==> IsTrimSpace(s[k])
    ensures j < |s| ==> !IsTrimSpace(s[j])
    decreases |s| - i
  {
    if i < |s| && IsTrimSpace(s[i]) then SkipSpaces(s, i + 1) else i
  }

  /**
   * Scanning back from j but never below lo: the end of the last character
   * that is not a trim-space.
   */
  function SkipSpacesBack(s: string, lo: nat, j: nat): (e: nat)
    requires lo <= j <= |s|
    ensures lo <= e <= j
    ensures forall k :: e <= k < j ==> IsTrimSpace(s[k])
    ensures lo < e ==> !IsTrimSpace(s[e - 1])
    decreases j - lo
  {
    if lo < j && IsTrimSpace(s[j - 1]) then SkipSpacesBack(s, lo, j - 1) else j
  }

  /** Neither the first nor the last character is a trim-space. */
  predicate IsTrimmed(s: string) {
    s == [] || (!IsTrimSpace(s[0]) && !IsTrimSpace(s[|s| - 1]))
  }

  /**
   * s.trim(): the longest infix that neither starts nor ends with a
   * trim-space; everything cut off on either side is a trim-space. As in
   * Java, the start index moves forward first and the end index then moves
   * back, never past the start.
   */
  function Trim(s: string): (r: string)
    ensures IsTrimmed(r)
    ensures var b := SkipSpaces(s, 0);
      b + |r| <= |s| && r == s[b..b + |r|]
      && (forall k :: 0 <= k < b ==> IsTrimSpace(s[k]))
      && (forall k :: b + |r| <= k < |s| ==> IsTrimSpace(s[k]))
  {
    var b := SkipSpaces(s, 0);
    s[b..SkipSpacesBack(s, b, |s|)]
  }

  /** trim() yields the empty string exactly when every character is a trim-space. */
  lemma TrimEmptyIff(s: string)
    ensures Trim(s) == [] <==> forall k :: 0 <= k < |s| ==> IsTrimSpace(s[k])
  {
    if Trim(s) != [] {
      var b := SkipSpaces(s, 0);
      assert s[b] == Trim(s)[0];
    }
  }

  /** trim() is idempotent. */
  lemma TrimIdempotent(s: string)
    ensures Trim(Trim(s)) == Trim(s)
  {
    var r := Trim(s);
    assert SkipSpaces(r, 0) == 0;
    assert SkipSpacesBack(r, 0, |r|) == |r|;
  }

  /** Java's `a % b` for b > 0: the remainder takes the sign of a. */
  function JavaRem(a: int, b: int): (r: int)
    requires b > 0
    ensures -b < r < b
    ensures a >= 0 ==> r >= 0
    ensures a <= 0 ==> r <= 0
    ensures a >= 0 ==> r == a % b
    ensures a < 0 ==> r == -((-a) % b)
  {
    if a >= 0 then a % b else -((-a) % b)
  }

  /** Math.abs; the model applies it only to remainders, far from Integer.MIN_VALUE. */
  function JavaAbs(a: int): (r: nat)
    ensures r == a || r == -a
  {
    if a < 0 then -a else a
  }
}
