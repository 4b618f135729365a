/**
 * The two JavaScript string built-ins the page relies on:
 * `String.prototype.trim` (used on the user's input before validation) and
 * `String.prototype.includes` (used by the copy, speak and share guards).
 * Characters are Unicode scalar values; see README for the UTF-16 caveat.
 */
module JsString {

  /** ECMAScript WhiteSpace and LineTerminator code points: what `trim` removes. */
  predicate IsWhitespace(c: char) {
    var n := c as int;
    (0x09 <= n <= 0x0D) || n == 0x20 || n == 0xA0 || n == 0x1680 ||
    (0x2000 <= n <= 0x200A) || n == 0x2028 || n == 0x2029 || n == 0x202F ||
    n == 0x205F || n == 0x3000 || n == 0xFEFF
  }

  /** Every character of `s` is whitespace. */
  predicate AllWhitespace(s: string) {
    forall k :: 0 <= k < |s| ==> IsWhitespace(s[k])
  }

  /** Where trimming starts: the first index at or after `from` that is not
      whitespace, or `|s|` when there is none. */
  function SkipLeading(s: string, from: nat): (i: nat)
    requires from <= |s|
    ensures from <= i <= |s|
    ensures forall k :: from <= k < i ==> IsWhitespace(s[k])
    ensures i < |s| ==> !IsWhitespace(s[i])
    decreases |s| - from
  {
    if from < |s| && IsWhitespace(s[from]) then SkipLeading(s, from + 1) else from
  }

  /** Where trimming ends: the least index `j`, not below `lo`, after which
      `s[..upto]` holds only whitespace. */
  function SkipTrailing(s: string, lo: nat, upto: nat): (j: nat)
    requires lo <= upto <= |s|
    ensures lo <= j <= upto
    ensures forall k :: j <= k < upto ==> IsWhitespace(s[k])
    ensures j > lo ==> !IsWhitespace(s[j - 1])
    decreases upto
  {
    if lo < upto && IsWhitespace(s[upto - 1]) then SkipTrailing(s, lo, upto - 1) else upto
  }

  /** `r` is `s` with whitespace alone cut away before index `i` and after
      `r` ends. */
  ghost predicate TrimmedAt(s: string, r: string, i: int) {
    0 <= i <= i + |r| <= |s| && r == s[i..i + |r|]
    && AllWhitespace(s[..i]) && AllWhitespace(s[i + |r|..])
  }

  /** `s.trim()`: a contiguous slice of `s` with only whitespace cut away on either
      side, neither end of which is whitespace; it is empty exactly when `s` is
      all whitespace. */
  function Trim(s: string): (r: string)
    ensures exists i :: TrimmedAt(s, r, i)
    ensures r != [] ==> !IsWhitespace(r[0]) && !IsWhitespace(r[|r| - 1])
    ensures r == [] <==> AllWhitespace(s)
  {
    var i := SkipLeading(s, 0);
    var j := SkipTrailing(s, i, |s|);
    TrimCut(s, i, j);
    s[i..j]
  }

  /** What `Trim` promises of the slice between the two cut points. */
  lemma TrimCut(s: string, i: nat, j: nat)
    requires i == SkipLeading(s, 0) && j == SkipTrailing(s, i, |s|)
    ensures TrimmedAt(s, s[i..j], i)
    ensures i < j ==> !IsWhitespace(s[i..j][0]) && !IsWhitespace(s[i..j][j - i - 1])
    ensures (i == j) == AllWhitespace(s)
  {
  }

  /** `p` occurs in `s` starting at index `i`. */
  ghost predicate OccursAt(s: string, p: string, i: int) {
    0 <= i && i + |p| <= |s| && s[i..i + |p|] == p
  }

  /** `s.includes(p)`: true exactly when `p` occurs somewhere in `s`. */
  function Contains(s: string, p: string): (b: bool)
    ensures b <==> exists i :: OccursAt(s, p, i)
    decreases |s|
  {
    if p <= s then
      assert OccursAt(s, p, 0);
      true
    else if |s| <= |p| then
      assert forall i :: !OccursAt(s, p, i) by {
        forall i | 0 <= i <= |s| - |p| ensures !OccursAt(s, p, i) {
          assert s[i..i + |p|] == s[..|p|];
        }
      }
      false
    else
      var b := Contains(s[1..], p);
      assert forall i :: OccursAt(s[1..], p, i) ==> OccursAt(s, p, i + 1);
      assert forall i :: OccursAt(s, p, i) && i > 0 ==> OccursAt(s[1..], p, i - 1);
      b
  }

  /** An occurrence at a known index makes `Contains` true, and an occurrence of
      the whole of a concatenation's middle part is found. */
  lemma {:induction false} ContainsMiddle(a: string, p: string, c: string)
    ensures Contains(a + p + c, p)
  {
    var s := a + p + c;
    assert s[|a|..|a| + |p|] == p;
    assert OccursAt(s, p, |a|);
  }
}
