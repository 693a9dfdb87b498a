/**
 * ECMAScript `String.prototype.trim`, over Dafny characters (Unicode scalar values). Every
 * character `trim` removes is a single UTF-16 code unit, so the result is the same.
 */
module JsText {
  /** ECMAScript WhiteSpace and LineTerminator code points, the characters `trim` removes. */
  predicate IsSpace(c: char) {
    || c == '\t' || c == '\n' || c == '\U{000B}' || c == '\U{000C}' || c == '\r' || c == ' '
    || c == '\U{00A0}' || c == '\U{1680}' || ('\U{2000}' <= c <= '\U{200A}')
    || c == '\U{2028}' || c == '\U{2029}' || c == '\U{202F}' || c == '\U{205F}' || c == '\U{3000}' || c == '\U{FEFF}'
  }

  predicate Blank(s: string) {
    forall i :: 0 <= i < |s| ==> IsSpace(s[i])
  }

  /** The first index at or after `i` that holds no white space, or `|s|` if there is none. */
  function SkipLeading(s: string, i: nat): (j: nat)
    requires i <= |s|
    ensures i <= j <= |s|
    ensures forall k :: i <= k < j ==> IsSpace(s[k])
    ensures j == |s| || !IsSpace(s[j])
    decreases |s| - i
  {
    if i < |s| && IsSpace(s[i]) then SkipLeading(s, i + 1) else i
  }

  /** Where `s[lo..j]` ends once its trailing white space is dropped. */
  function SkipTrailing(s: string, lo: nat, j: nat): (e: nat)
    requires lo <= j <= |s|
    ensures lo <= e <= j
    ensures forall k :: e <= k < j ==> IsSpace(s[k])
    ensures e == lo || !IsSpace(s[e - 1])
    decreases j
  {
    if lo < j && IsSpace(s[j - 1]) then SkipTrailing(s, lo, j - 1) else j
  }

  /** Where the trimmed text starts in `s`. */
  function TrimFrom(s: string): nat {
    SkipLeading(s, 0)
  }

  /** Where the trimmed text ends in `s`. */
  function TrimTo(s: string): nat {
    SkipTrailing(s, TrimFrom(s), |s|)
  }

  /**
   * `trim()`: a slice of `s` that starts and ends with a character other than white space,
   * with only white space cut off before and after it.
   */
  function Trim(s: string): (r: string)
    ensures TrimFrom(s) <= TrimTo(s) <= |s| && r == s[TrimFrom(s)..TrimTo(s)]
    ensures forall k :: 0 <= k < TrimFrom(s) ==> IsSpace(s[k])
    ensures forall k :: TrimTo(s) <= k < |s| ==> IsSpace(s[k])
    ensures r == [] || (!IsSpace(r[0]) && !IsSpace(r[|r| - 1]))
  {
    s[TrimFrom(s)..TrimTo(s)]
  }

  /** `trim()` yields the empty string exactly for blank input. */
  lemma TrimEmptyIffBlank(s: string)
    ensures Trim(s) == [] <==> Blank(s)
  {
    var r := Trim(s);
    if r != [] {
      assert r[0] == s[TrimFrom(s)];
    }
  }

  /** Trimming twice trims nothing more. */
  lemma TrimIdempotent(s: string)
    ensures Trim(Trim(s)) == Trim(s)
  {
    var r := Trim(s);
    if r != [] {
      assert TrimFrom(r) == 0;
      assert TrimTo(r) == |r|;
    }
    assert r[0..|r|] == r;
  }
}
