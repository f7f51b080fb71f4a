/** The Python string primitives `analyze_mood` relies on: `str.lower` (ASCII
    only), the `in` substring test, `str.find`, `str.rfind` and slicing with
    Python's bound normalisation. */
module Text {

  /** True for the 26 upper-case ASCII letters. */
  predicate IsUpper(c: char) {
    'A' <= c <= 'Z'
  }

  /** `str.lower` on one character, restricted to ASCII. */
  function LowerChar(c: char): (r: char)
    ensures !IsUpper(r)
    ensures IsUpper(c) ==> r as int == c as int + 32
    ensures !IsUpper(c) ==> r == c
  {
    if IsUpper(c) then (c as int + 32) as char else c
  }

  /** `str.lower`, restricted to ASCII: every upper-case letter becomes its
      lower-case partner, every other character is kept. */
  function Lower(s: string): (r: string)
    ensures |r| == |s|
    ensures forall i :: 0 <= i < |r| ==> !IsUpper(r[i])
    ensures forall i :: 0 <= i < |s| && !IsUpper(s[i]) ==> r[i] == s[i]
    ensures forall i :: 0 <= i < |s| && IsUpper(s[i]) ==> r[i] as int == s[i] as int + 32
  {
    seq(|s|, i requires 0 <= i < |s| => LowerChar(s[i]))
  }

  lemma LowerSlice(s: string, i: int, j: int)
    requires 0 <= i <= j <= |s|
    ensures Lower(s)[i..j] == Lower(s[i..j])
  {
  }

  /** `sub` stands in `s` starting at index `i`. */
  predicate OccursAt(sub: string, s: string, i: int) {
    0 <= i <= |s| - |sub| && s[i..i + |sub|] == sub
  }

  /** Python's `sub in s`. */
  predicate Occurs(sub: string, s: string) {
    exists i | 0 <= i <= |s| - |sub| :: OccursAt(sub, s, i)
  }

  /** Lower-casing both sides keeps an occurrence: a title containing
      "Remix" in any casing contains "remix" once lower-cased. */
  lemma LowerKeepsOccurrence(sub: string, s: string)
    requires Occurs(sub, s)
    ensures Occurs(Lower(sub), Lower(s))
  {
    var i :| 0 <= i <= |s| - |sub| && OccursAt(sub, s, i);
    LowerSlice(s, i, i + |sub|);
    assert OccursAt(Lower(sub), Lower(s), i);
  }

  /** `str.find` for one character: the first index holding `c`, or -1. */
  function Find(s: string, c: char): (r: int)
    ensures -1 <= r < |s|
    ensures r == -1 <==> c !in s
    ensures r >= 0 ==> s[r] == c && c !in s[..r]
  {
    if |s| == 0 then -1
    else if s[0] == c then 0
    else
      var k := Find(s[1..], c);
      assert s[1..][..k + 1] == s[1..k + 2] by {
        if k >= 0 { assert s[1..][..k] == s[1..k + 1]; }
      }
      if k == -1 then
        assert forall j :: 1 <= j < |s| ==> s[j] == s[1..][j - 1];
        -1
      else
        assert s[..k + 1] == [s[0]] + s[1..][..k];
        k + 1
  }

  /** `str.rfind` for one character: the last index holding `c`, or -1. */
  function RFind(s: string, c: char): (r: int)
    ensures -1 <= r < |s|
    ensures r == -1 <==> c !in s
    ensures r >= 0 ==> s[r] == c && c !in s[r + 1..]
  {
    if |s| == 0 then -1
    else if s[|s| - 1] == c then |s| - 1
    else
      var k := RFind(s[..|s| - 1], c);
      assert s == s[..|s| - 1] + [s[|s| - 1]];
      assert k >= 0 ==> s[k + 1..] == s[..|s| - 1][k + 1..] + [s[|s| - 1]];
      k
  }

  /** How Python normalises a slice bound `i` against a sequence of length
      `n`: a negative bound counts from the end, and the result is clamped
      into 0..n. */
  function SliceBound(i: int, n: nat): (r: nat)
    ensures r <= n
    ensures 0 <= i <= n ==> r == i
    ensures i > n ==> r == n
    ensures i < 0 && i + n >= 0 ==> r == i + n
    ensures i + n < 0 ==> r == 0
  {
    if i < 0 then (if i + n < 0 then 0 else i + n)
    else if i > n then n
    else i
  }

  /** Python's `s[start:end]`: empty when the normalised start is not
      before the normalised end. */
  function Slice(s: string, start: int, end: int): (r: string)
    ensures 0 <= start <= end <= |s| ==> r == s[start..end]
    ensures SliceBound(end, |s|) <= SliceBound(start, |s|) ==> r == []
    ensures SliceBound(start, |s|) < SliceBound(end, |s|) ==>
      r == s[SliceBound(start, |s|)..SliceBound(end, |s|)]
    ensures |r| <= |s|
  {
    var a := SliceBound(start, |s|);
    var b := SliceBound(end, |s|);
    if a < b then s[a..b] else []
  }
}
