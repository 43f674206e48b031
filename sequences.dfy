/** Facts about first occurrences in a sequence, shared by list handling in several modules. */
module Sequences {

  /** The index of the first occurrence of `c` in `s`. */
  function FirstIndex<T(==)>(s: seq<T>, c: T): (i: nat)
    requires c in s
    ensures i < |s| && s[i] == c && c !in s[..i]
  {
    if s[0] == c then 0
    else
      var i := FirstIndex(s[1..], c) + 1;
      assert s[..i] == [s[0]] + s[1..][..i - 1];
      i
  }

  /** The first occurrence is the one with none before it. */
  lemma FirstIndexAt<T>(s: seq<T>, c: T, k: nat)
    requires k < |s| && s[k] == c && c !in s[..k]
    ensures FirstIndex(s, c) == k
  {
    var i := FirstIndex(s, c);
    assert forall j :: 0 <= j < k ==> s[..k][j] == s[j];
    assert forall j :: 0 <= j < i ==> s[..i][j] == s[j];
  }

  /** Appending an element moves no first occurrence of what was already there. */
  lemma FirstIndexKept<T>(s: seq<T>, x: T)
    ensures forall c :: c in s ==> FirstIndex(s + [x], c) == FirstIndex(s, c)
  {
    forall c | c in s
      ensures FirstIndex(s + [x], c) == FirstIndex(s, c)
    {
      var k := FirstIndex(s, c);
      assert (s + [x])[..k] == s[..k];
      FirstIndexAt(s + [x], c, k);
    }
  }
}
