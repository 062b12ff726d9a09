/** Stable sorting by an integer key: sorted(rows, key=...) of the source. */
module Sorting {

  ghost predicate SortedOn<T>(s: seq<T>, key: T -> int) {
    forall i, j :: 0 <= i < j < |s| ==> key(s[i]) <= key(s[j])
  }

  ghost predicate DistinctOn<T>(s: seq<T>, key: T -> int) {
    forall i, j :: 0 <= i < j < |s| ==> key(s[i]) != key(s[j])
  }

  // Where a later row goes: after every row with a key up to `limit`.
  function Place<T>(s: seq<T>, limit: int, key: T -> int): (p: nat)
    requires SortedOn(s, key)
    ensures p <= |s|
    ensures forall i :: 0 <= i < p ==> key(s[i]) <= limit
    ensures forall i :: p <= i < |s| ==> key(s[i]) > limit
  {
    if s == [] || key(s[|s| - 1]) <= limit then |s| else Place(s[..|s| - 1], limit, key)
  }

  function SortOn<T>(s: seq<T>, key: T -> int): (r: seq<T>)
    ensures SortedOn(r, key)
    ensures |r| == |s|
  {
    if s == [] then [] else
      var init, x := SortOn(s[..|s| - 1], key), s[|s| - 1];
      var p := Place(init, key(x), key);
      init[..p] + [x] + init[p..]
  }

  lemma {:induction false} SortPermutes<T>(s: seq<T>, key: T -> int)
    ensures multiset(SortOn(s, key)) == multiset(s)
  {
    if s != [] {
      var n := |s| - 1;
      SortPermutes(s[..n], key);
      var init := SortOn(s[..n], key);
      var p := Place(init, key(s[n]), key);
      assert init == init[..p] + init[p..];
      assert s == s[..n] + [s[n]];
    }
  }

  lemma {:induction false} SortMembers<T>(s: seq<T>, key: T -> int, x: T)
    ensures x in SortOn(s, key) <==> x in s
  {
    SortPermutes(s, key);
    assert x in SortOn(s, key) <==> x in multiset(SortOn(s, key));
    assert x in s <==> x in multiset(s);
  }

  lemma {:induction false} InsertKeepsDistinct<T>(s: seq<T>, x: T, p: nat, key: T -> int)
    requires DistinctOn(s, key) && p <= |s|
    requires forall i :: 0 <= i < |s| ==> key(s[i]) != key(x)
    ensures DistinctOn(s[..p] + [x] + s[p..], key)
  {
  }

  lemma {:induction false} SortKeepsDistinct<T>(s: seq<T>, key: T -> int)
    requires DistinctOn(s, key)
    ensures DistinctOn(SortOn(s, key), key)
  {
    if s != [] {
      var n := |s| - 1;
      var init := SortOn(s[..n], key);
      SortKeepsDistinct(s[..n], key);
      forall y | y in s[..n] ensures key(y) != key(s[n]) {}
      forall i | 0 <= i < |init| ensures key(init[i]) != key(s[n]) { SortMembers(s[..n], key, init[i]); }
      InsertKeepsDistinct(init, s[n], Place(init, key(s[n]), key), key);
    }
  }

  // Rows that already come in ascending order stay as they are.
  lemma {:induction false} SortedStays<T>(s: seq<T>, key: T -> int)
    requires SortedOn(s, key)
    ensures SortOn(s, key) == s
  {
    if s != [] {
      var n := |s| - 1;
      SortedStays(s[..n], key);
      assert n > 0 ==> key(s[..n][n - 1]) <= key(s[n]);
    }
  }
}
