/** Ordered vectors: the lexicographic order of ordered sets of vectors, and strictly ascending sequences. */
module Ordering {

  predicate LexLess(a: seq<int>, b: seq<int>) {
    if b == [] then false
    else if a == [] then true
    else a[0] < b[0] || (a[0] == b[0] && LexLess(a[1..], b[1..]))
  }

  lemma {:induction false} LexIrreflexive(a: seq<int>)
    ensures !LexLess(a, a)
  {
    if a != [] { LexIrreflexive(a[1..]); }
  }

  lemma {:induction false} LexTransitive(a: seq<int>, b: seq<int>, c: seq<int>)
    requires LexLess(a, b) && LexLess(b, c)
    ensures LexLess(a, c)
  {
    if a != [] && a[0] == b[0] == c[0] { LexTransitive(a[1..], b[1..], c[1..]); }
  }

  lemma {:induction false} LexTotal(a: seq<int>, b: seq<int>)
    ensures LexLess(a, b) || a == b || LexLess(b, a)
  {
    if a != [] && b != [] && a[0] == b[0] {
      LexTotal(a[1..], b[1..]);
      assert a == [a[0]] + a[1..] && b == [b[0]] + b[1..];
    }
  }

  /** The iteration order of an ordered set of vectors. */
  predicate LexAscending(xs: seq<seq<int>>) {
    forall i, j | 0 <= i < j < |xs| :: LexLess(xs[i], xs[j])
  }

  lemma LexAscendingDistinct(xs: seq<seq<int>>, i: nat, j: nat)
    requires LexAscending(xs) && i < j < |xs|
    ensures xs[i] != xs[j]
  {
    LexIrreflexive(xs[i]);
  }

  /** Inserts a vector into an ordered set. */
  method LexInsert(xs: seq<seq<int>>, v: seq<int>) returns (r: seq<seq<int>>)
    requires LexAscending(xs)
    ensures LexAscending(r)
    ensures forall x :: x in r <==> x in xs || x == v
    ensures |r| == |xs| + if v in xs then 0 else 1
  {
    var i := 0;
    while i < |xs| && LexLess(xs[i], v)
      invariant i <= |xs|
      invariant forall k | 0 <= k < i :: LexLess(xs[k], v)
    {
      i := i + 1;
    }
    if i < |xs| && xs[i] == v { return xs; }
    forall k | i <= k < |xs|
      ensures LexLess(v, xs[k])
    {
      LexTotal(xs[i], v);
      if i < k { LexTransitive(v, xs[i], xs[k]); }
    }
    r := xs[..i] + [v] + xs[i..];
    forall k | 0 <= k < |xs|
      ensures xs[k] != v
    {
      LexIrreflexive(v);
    }
    assert forall x :: x in r <==> x in xs || x == v by {
      assert xs == xs[..i] + xs[i..];
    }
  }

  // ---------------------------------------------------------------- ascending numbers

  predicate Ascending(xs: seq<int>) {
    forall i, j | 0 <= i < j < |xs| :: xs[i] < xs[j]
  }

  /** Inserts a number into an ascending sequence that lacks it. */
  function Inserted(xs: seq<int>, v: int): (r: seq<int>)
    ensures forall x :: x in r <==> x in xs || x == v
    ensures |r| == |xs| + 1
  {
    if xs == [] || v < xs[0] then [v] + xs else [xs[0]] + Inserted(xs[1..], v)
  }

  lemma {:induction false} InsertedAscending(xs: seq<int>, v: int)
    requires Ascending(xs) && v !in xs
    ensures Ascending(Inserted(xs, v))
  {
    if xs != [] && v >= xs[0] {
      InsertedAscending(xs[1..], v);
      var r := Inserted(xs[1..], v);
      forall i, j | 0 <= i < j < |r| + 1
        ensures Inserted(xs, v)[i] < Inserted(xs, v)[j]
      {
        if i == 0 { assert r[j - 1] in r; }
      }
    }
  }

  predicate AllDifferent<T(==)>(xs: seq<T>) {
    forall i, j | 0 <= i < j < |xs| :: xs[i] != xs[j]
  }

  /** Insertion sort. */
  function Sorted(xs: seq<int>): (r: seq<int>)
    ensures |r| == |xs|
    ensures forall x :: x in r <==> x in xs
  {
    if xs == [] then []
    else
      assert xs == xs[..|xs| - 1] + [xs[|xs| - 1]];
      Inserted(Sorted(xs[..|xs| - 1]), xs[|xs| - 1])
  }

  lemma {:induction false} SortedAscending(xs: seq<int>)
    requires AllDifferent(xs)
    ensures Ascending(Sorted(xs))
  {
    if xs != [] {
      SortedAscending(xs[..|xs| - 1]);
      InsertedAscending(Sorted(xs[..|xs| - 1]), xs[|xs| - 1]);
    }
  }

  // ---------------------------------------------------------------- ordered sets of numbers

  lemma {:induction false} LeastExists(s: set<nat>)
    requires s != {}
    ensures exists x | x in s :: forall y | y in s :: x <= y
    decreases s
  {
    var x: nat :| x in s;
    assert forall y | y in s :: y == x || y in s - {x};
    if s - {x} != {} {
      LeastExists(s - {x});
      var z: nat :| z in s - {x} && forall y | y in s - {x} :: z <= y;
      var w := if x <= z then x else z;
      assert w in s && forall y | y in s :: w <= y;
    }
  }

  function Least(s: set<nat>): (r: nat)
    requires s != {}
    ensures r in s && forall y | y in s :: r <= y
  {
    LeastExists(s);
    var x :| x in s && forall y | y in s :: x <= y;
    x
  }

  /** The iteration order of an ordered set of numbers. */
  function Elements(s: set<nat>): (r: seq<nat>)
    ensures Ascending(r)
    ensures forall x :: x in r <==> x in s
  {
    if s == {} then []
    else
      var x, rest := Least(s), Elements(s - {Least(s)});
      assert forall y | y in rest :: x < y;
      [x] + rest
  }

  lemma {:induction false} ElementsCount(s: set<nat>)
    ensures |Elements(s)| == |s|
  {
    if s != {} {
      ElementsCount(s - {Least(s)});
    }
  }
}
