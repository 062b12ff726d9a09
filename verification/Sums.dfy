/** Finite sums over the rows of a table, and how they react to appending, updating and splitting. */
module Sums {

  // Recursion peels the last row, so that appending a row unfolds in one step.
  function Sum<T>(s: seq<T>, f: T -> int): int {
    if s == [] then 0 else Sum(s[..|s| - 1], f) + f(s[|s| - 1])
  }

  lemma {:induction false} Regroup<T>(a: seq<T>, b: seq<T>, c: seq<T>)
    ensures a + b + c == a + (b + c)
  {
  }

  lemma {:induction false} TakeNext<T>(s: seq<T>, n: nat)
    requires n < |s|
    ensures s[..n + 1] == s[..n] + [s[n]]
  {
  }

  lemma {:induction false} SumSnoc<T>(s: seq<T>, x: T, f: T -> int)
    ensures Sum(s + [x], f) == Sum(s, f) + f(x)
  {
    assert (s + [x])[..|s|] == s;
  }

  lemma {:induction false} SumConcat<T>(a: seq<T>, b: seq<T>, f: T -> int)
    ensures Sum(a + b, f) == Sum(a, f) + Sum(b, f)
  {
    if b == [] {
      assert a + b == a;
    } else {
      SumConcat(a, b[..|b| - 1], f);
      assert (a + b)[..|a + b| - 1] == a + b[..|b| - 1];
    }
  }

  lemma {:induction false} SumFront<T>(s: seq<T>, f: T -> int)
    requires s != []
    ensures Sum(s, f) == f(s[0]) + Sum(s[1..], f)
  {
    assert s == [s[0]] + s[1..];
    SumConcat([s[0]], s[1..], f);
    SumSnoc([], s[0], f);
  }

  lemma {:induction false} SumEqual<T>(s: seq<T>, f: T -> int, g: T -> int)
    requires forall x :: x in s ==> f(x) == g(x)
    ensures Sum(s, f) == Sum(s, g)
  {
    if s != [] { SumEqual(s[..|s| - 1], f, g); }
  }

  // The same, for two tables compared row by row.
  lemma {:induction false} SumAlike<A, B>(s: seq<A>, t: seq<B>, f: A -> int, g: B -> int)
    requires |s| == |t|
    requires forall i :: 0 <= i < |s| ==> f(s[i]) == g(t[i])
    ensures Sum(s, f) == Sum(t, g)
  {
    if s != [] { SumAlike(s[..|s| - 1], t[..|t| - 1], f, g); }
  }

  lemma {:induction false} SumAtMost<T>(s: seq<T>, f: T -> int, g: T -> int)
    requires forall x :: x in s ==> f(x) <= g(x)
    ensures Sum(s, f) <= Sum(s, g)
  {
    if s != [] { SumAtMost(s[..|s| - 1], f, g); }
  }

  lemma {:induction false} SumSplit<T>(s: seq<T>, whole: T -> int, f: T -> int, g: T -> int)
    requires forall x :: x in s ==> whole(x) == f(x) + g(x)
    ensures Sum(s, whole) == Sum(s, f) + Sum(s, g)
  {
    if s != [] { SumSplit(s[..|s| - 1], whole, f, g); }
  }

  lemma {:induction false} SumZero<T>(s: seq<T>, f: T -> int)
    requires forall x :: x in s ==> f(x) == 0
    ensures Sum(s, f) == 0
  {
    if s != [] { SumZero(s[..|s| - 1], f); }
  }

  lemma {:induction false} SumNonNegative<T>(s: seq<T>, f: T -> int)
    requires forall x :: x in s ==> f(x) >= 0
    ensures Sum(s, f) >= 0
  {
    if s != [] { SumNonNegative(s[..|s| - 1], f); }
  }

  // One row never contributes more than the whole of a non-negative sum.
  lemma {:induction false} SumCovers<T>(s: seq<T>, f: T -> int, i: nat)
    requires forall x :: x in s ==> f(x) >= 0
    requires i < |s|
    ensures f(s[i]) <= Sum(s, f)
  {
    SumNonNegative(s[..|s| - 1], f);
    if i < |s| - 1 { SumCovers(s[..|s| - 1], f, i); }
  }

  lemma {:induction false} SumUpdate<T>(s: seq<T>, i: nat, x: T, f: T -> int)
    requires i < |s|
    ensures Sum(s[i := x], f) == Sum(s, f) - f(s[i]) + f(x)
  {
    var n := |s| - 1;
    if i < n {
      SumUpdate(s[..n], i, x, f);
      assert s[i := x][..n] == s[..n][i := x];
    } else {
      assert s[i := x][..n] == s[..n];
    }
  }

  lemma {:induction false} SumRemoveAt<T>(s: seq<T>, i: nat, f: T -> int)
    requires i < |s|
    ensures Sum(s, f) == f(s[i]) + Sum(s[..i] + s[i + 1..], f)
  {
    assert s == s[..i] + [s[i]] + s[i + 1..];
    SumConcat(s[..i] + [s[i]], s[i + 1..], f);
    SumSnoc(s[..i], s[i], f);
    SumConcat(s[..i], s[i + 1..], f);
  }

  lemma {:induction false} MultisetWithout<T>(s: seq<T>, i: nat)
    requires i < |s|
    ensures multiset(s[..i] + s[i + 1..]) == multiset(s) - multiset{s[i]}
  {
    assert s == s[..i] + ([s[i]] + s[i + 1..]);
  }

  // A sum only depends on which rows there are, not on their order.
  lemma {:induction false} SumAnyOrder<T>(a: seq<T>, b: seq<T>, f: T -> int)
    requires multiset(a) == multiset(b)
    ensures Sum(a, f) == Sum(b, f)
  {
    if a == [] {
      assert |multiset(b)| == 0;
    } else {
      var n := |a| - 1;
      assert a[n] in multiset(b);
      var i :| 0 <= i < |b| && b[i] == a[n];
      MultisetWithout(a, n);
      MultisetWithout(b, i);
      assert a[..n] + a[n + 1..] == a[..n];
      SumAnyOrder(a[..n], b[..i] + b[i + 1..], f);
      SumRemoveAt(b, i, f);
    }
  }

  // Summing over selected rows is summing over all rows with the others counted as zero.
  function Select<T(!new)>(s: seq<T>, p: T -> bool): (r: seq<T>)
    ensures forall x :: x in r <==> x in s && p(x)
  {
    if s == [] then [] else
      var init := Select(s[..|s| - 1], p);
      if p(s[|s| - 1]) then init + [s[|s| - 1]] else init
  }

  lemma {:induction false} SelectNone<T(!new)>(s: seq<T>, p: T -> bool)
    requires forall x :: x in s ==> !p(x)
    ensures Select(s, p) == []
  {
    if s != [] { SelectNone(s[..|s| - 1], p); }
  }

  lemma {:induction false} SelectConcat<T(!new)>(a: seq<T>, b: seq<T>, p: T -> bool)
    ensures Select(a + b, p) == Select(a, p) + Select(b, p)
  {
    if b == [] {
      assert a + b == a;
    } else {
      SelectConcat(a, b[..|b| - 1], p);
      assert (a + b)[..|a + b| - 1] == a + b[..|b| - 1];
    }
  }

  lemma {:induction false} SelectAll<T(!new)>(s: seq<T>, p: T -> bool)
    requires forall x :: x in s ==> p(x)
    ensures Select(s, p) == s
  {
    if s != [] {
      SelectAll(s[..|s| - 1], p);
      assert s == s[..|s| - 1] + [s[|s| - 1]];
    }
  }

  lemma {:induction false} SelectAlike<T(!new)>(s: seq<T>, p: T -> bool, q: T -> bool)
    requires forall x :: x in s ==> (p(x) <==> q(x))
    ensures Select(s, p) == Select(s, q)
  {
    if s != [] { SelectAlike(s[..|s| - 1], p, q); }
  }

  lemma {:induction false} SumSelect<T(!new)>(s: seq<T>, p: T -> bool, f: T -> int, g: T -> int)
    requires forall x :: x in s ==> g(x) == if p(x) then f(x) else 0
    ensures Sum(Select(s, p), f) == Sum(s, g)
  {
    if s != [] {
      SumSelect(s[..|s| - 1], p, f, g);
      if p(s[|s| - 1]) { SumSnoc(Select(s[..|s| - 1], p), s[|s| - 1], f); }
    }
  }

  function Minus<T>(f: T -> int): T -> int {
    (x: T) => -f(x)
  }

  lemma {:induction false} SumMinus<T>(s: seq<T>, f: T -> int)
    ensures Sum(s, Minus(f)) == -Sum(s, f)
  {
    if s != [] { SumMinus(s[..|s| - 1], f); }
  }

  // All rows but one count zero.
  lemma {:induction false} SumOnly<T>(s: seq<T>, i: nat, f: T -> int)
    requires i < |s| && forall j :: 0 <= j < |s| && j != i ==> f(s[j]) == 0
    ensures Sum(s, f) == f(s[i])
  {
    SumRemoveAt(s, i, f);
    var others := s[..i] + s[i + 1..];
    forall x | x in others ensures f(x) == 0 {
      var j :| 0 <= j < |others| && others[j] == x;
      assert x == s[if j < i then j else j + 1];
    }
    SumZero(others, f);
  }

  // ---------------------------------------------------------------------------------------------
  // Counting a table by rows or by columns
  // ---------------------------------------------------------------------------------------------

  function Given<A, B>(f: (A, B) -> int, a: A): B -> int {
    (b: B) => f(a, b)
  }

  function Against<A, B>(f: (A, B) -> int, b: B): A -> int {
    (a: A) => f(a, b)
  }

  function RowSums<A, B>(f: (A, B) -> int, columns: seq<B>): A -> int {
    (a: A) => Sum(columns, Given(f, a))
  }

  function ColumnSums<A, B>(f: (A, B) -> int, rows: seq<A>): B -> int {
    (b: B) => Sum(rows, Against(f, b))
  }

  lemma {:induction false} DoubleCount<A, B>(rows: seq<A>, columns: seq<B>, f: (A, B) -> int)
    ensures Sum(rows, RowSums(f, columns)) == Sum(columns, ColumnSums(f, rows))
  {
    if rows == [] {
      SumZero(columns, ColumnSums(f, rows));
    } else {
      var init, a := rows[..|rows| - 1], rows[|rows| - 1];
      DoubleCount(init, columns, f);
      SumSplit(columns, ColumnSums(f, rows), ColumnSums(f, init), Given(f, a));
    }
  }

  function Positions(n: nat): (r: seq<int>)
    ensures |r| == n && forall i :: 0 <= i < n ==> r[i] == i
  {
    seq(n, i requires 0 <= i < n => i)
  }
}
