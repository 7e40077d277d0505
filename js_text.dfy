/** The few JavaScript string operations the core relies on. */
module JsText {

  /** `sub` occurs in `s` at index `i`. */
  predicate OccursAt(s: string, sub: string, i: int) {
    0 <= i <= |s| - |sub| && s[i..i + |sub|] == sub
  }

  /** `s.includes(sub)` (String.prototype.includes): the empty string is included in
      every string, every string includes itself, and nothing longer than `s` is
      included in it. */
  function Includes(s: string, sub: string): (r: bool)
    ensures sub == [] ==> r
    ensures sub == s ==> r
    ensures r ==> |sub| <= |s|
  {
    // The witnesses for the first two clauses.
    assert sub == [] || sub == s ==> OccursAt(s, sub, 0);
    exists i | 0 <= i <= |s| - |sub| :: OccursAt(s, sub, i)
  }

  /** `s || fallback` for a string `s`: the empty string is falsy. */
  function OrElse(s: string, fallback: string): (r: string)
    ensures r == s || r == fallback
    ensures s != "" ==> r == s
    ensures r != "" <== s != "" || fallback != ""
  {
    if s == "" then fallback else s
  }

  /** A string includes every piece it is built around. */
  lemma IncludesMiddle(a: string, sub: string, b: string)
    ensures Includes(a + sub + b, sub)
  {
    assert (a + sub + b)[|a|..|a| + |sub|] == sub;
    assert OccursAt(a + sub + b, sub, |a|);
  }

  /** Every character of an included string is a character of the whole. */
  lemma IncludedChar(s: string, sub: string, j: nat)
    requires Includes(s, sub) && j < |sub|
    ensures sub[j] in s
  {
    var i :| 0 <= i <= |s| - |sub| && OccursAt(s, sub, i);
    assert s[i..i + |sub|][j] == sub[j];
    assert s[i + j] == sub[j];
  }

  /** `x` is immediately followed by `y` at index `i` of `s`. */
  predicate PairAt(s: string, x: char, y: char, i: int) {
    0 <= i < |s| - 1 && s[i] == x && s[i + 1] == y
  }

  /** `x` is immediately followed by `y` somewhere in `s`. */
  predicate HasPair(s: string, x: char, y: char) {
    exists i | 0 <= i < |s| - 1 :: PairAt(s, x, y, i)
  }

  /** Every pair of adjacent characters of an included string occurs in the whole. */
  lemma IncludedPair(s: string, sub: string, j: nat)
    requires Includes(s, sub) && j + 1 < |sub|
    ensures HasPair(s, sub[j], sub[j + 1])
  {
    var i :| 0 <= i <= |s| - |sub| && OccursAt(s, sub, i);
    assert s[i..i + |sub|][j] == sub[j] && s[i..i + |sub|][j + 1] == sub[j + 1];
    assert PairAt(s, sub[j], sub[j + 1], i + j);
  }

  /** A pair absent from both halves and from the seam is absent from the concatenation. */
  lemma NoPairAppend(a: string, b: string, x: char, y: char)
    requires !HasPair(a, x, y) && !HasPair(b, x, y)
    requires !(|a| > 0 && |b| > 0 && a[|a| - 1] == x && b[0] == y)
    ensures !HasPair(a + b, x, y)
  {
    forall i | 0 <= i < |a + b| - 1
      ensures !PairAt(a + b, x, y, i)
    {
      if i + 1 < |a| {
        assert !PairAt(a, x, y, i);
      } else if i + 1 > |a| {
        assert !PairAt(b, x, y, i - |a|);
      }
    }
  }

  /** A string without `x` has no pair starting with `x`. */
  lemma NoPairWithout(s: string, x: char, y: char)
    requires x !in s
    ensures !HasPair(s, x, y)
  {
  }
}
