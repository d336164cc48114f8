/** Bounded candidate lattices and the exhaustive distribution of a total over endpoints. */
module Candidates {
  import opened Checked
  import opened Ordering
  import SharePool

  // ---------------------------------------------------------------- distributions

  function Sum(v: seq<int>): int {
    if v == [] then 0 else v[0] + Sum(v[1..])
  }

  lemma {:induction false} SumUpdate(v: seq<int>, i: nat, a: int)
    requires i < |v|
    ensures Sum(v[i := a]) == Sum(v) - v[i] + a
  {
    if i == 0 {
      assert v[i := a][1..] == v[1..];
    } else {
      assert v[i := a][1..] == v[1..][i - 1 := a];
      SumUpdate(v[1..], i - 1, a);
    }
  }

  /** A partial choice: the amounts chosen so far, zero elsewhere, and their subtotal. */
  datatype Partial = Partial(selected: seq<int>, subtotal: int)

  function Zeros(n: nat): (z: seq<int>)
    ensures |z| == n && (forall i | 0 <= i < n :: z[i] == 0) && Sum(z) == 0
  {
    if n == 0 then [] else [0] + Zeros(n - 1)
  }

  predicate Sized(ps: seq<Partial>, n: nat) {
    forall p | p in ps :: |p.selected| == n
  }

  function Extension(p: Partial, index: nat, a: int): Partial
    requires index < |p.selected|
  {
    Partial(p.selected[index := a], p.subtotal + a)
  }

  /** One partial choice extended by every amount that keeps it within the total, in lattice order. */
  function ExtendOne(p: Partial, index: nat, amounts: seq<int>, total: int): (r: seq<Partial>)
    requires index < |p.selected|
    ensures Sized(r, |p.selected|)
  {
    if amounts == [] then []
    else
      var a, before := amounts[|amounts| - 1], ExtendOne(p, index, amounts[..|amounts| - 1], total);
      if p.subtotal + a > total then before
      else before + [Extension(p, index, a)]
  }

  function ExtendAll(ps: seq<Partial>, n: nat, index: nat, amounts: seq<int>, total: int): (r: seq<Partial>)
    requires Sized(ps, n) && index < n
    ensures Sized(r, n)
  {
    if ps == [] then []
    else
      var last := ps[|ps| - 1];
      assert last in ps;
      ExtendAll(ps[..|ps| - 1], n, index, amounts, total) + ExtendOne(last, index, amounts, total)
  }

  /** All partial choices over the first `k` endpoints other than the sink. */
  function Stage(n: nat, lattices: seq<seq<int>>, total: int, sink: nat, k: nat): (r: seq<Partial>)
    requires k <= |lattices| == n
    ensures Sized(r, n)
  {
    if k == 0 then [Partial(Zeros(n), 0)]
    else if k - 1 == sink then Stage(n, lattices, total, sink, k - 1)
    else ExtendAll(Stage(n, lattices, total, sink, k - 1), n, k - 1, lattices[k - 1], total)
  }

  /** The vector in which the sink takes the residual. */
  function Completed(p: Partial, sink: nat, total: int): seq<int>
    requires sink < |p.selected|
  {
    p.selected[sink := total - p.subtotal]
  }

  /** The sink takes the residual; endpoints below the minimum action are refused. */
  predicate Accepted(p: Partial, sinkMaximum: int, total: int, minimum: int) {
    var residual := total - p.subtotal;
    && residual <= sinkMaximum
    && (residual == 0 || residual >= minimum)
    && (forall i | 0 <= i < |p.selected| :: p.selected[i] == 0 || p.selected[i] >= minimum)
  }

  /** Whether the first `j` partial choices through a sink, or any choice through an earlier one, give `v`. */
  ghost predicate Produced(maximums: seq<int>, lattices: seq<seq<int>>, total: int, minimum: int, sink: nat, j: nat, v: seq<int>)
    requires |lattices| == |maximums| && sink <= |maximums|
    requires sink < |maximums| ==> j <= |Stage(|maximums|, lattices, total, sink, |maximums|)|
  {
    var n := |maximums|;
    || (exists s: nat, p | s < sink && p in Stage(n, lattices, total, s, n) ::
          Accepted(p, maximums[s], total, minimum) && v == Completed(p, s, total))
    || (sink < n && exists p | p in Stage(n, lattices, total, sink, n)[..j] ::
          Accepted(p, maximums[sink], total, minimum) && v == Completed(p, sink, total))
  }

  /** Some stage of the search has more partial choices than the limit. */
  ghost predicate StageOverflows(maximums: seq<int>, lattices: seq<seq<int>>, total: int, limit: nat)
    requires |lattices| == |maximums|
  {
    exists s: nat, k: nat | s < |maximums| && k <= |maximums| :: |Stage(|maximums|, lattices, total, s, k)| > limit
  }

  /** There are more distinct distributions than the limit. */
  ghost predicate ResultsOverflow(maximums: seq<int>, lattices: seq<seq<int>>, total: int, minimum: int, limit: nat) {
    exists vs: seq<seq<int>> | LexAscending(vs) && |vs| > limit :: AllDistributions(maximums, lattices, total, minimum, vs)
  }

  ghost predicate AllDistributions(maximums: seq<int>, lattices: seq<seq<int>>, total: int, minimum: int, vs: seq<seq<int>>) {
    forall v | v in vs :: IsDistribution(maximums, lattices, total, minimum, v)
  }

  /** Lattice amounts lie between zero and the endpoint's maximum. */
  predicate WithinMaxima(maximums: seq<int>, lattices: seq<seq<int>>) {
    && |lattices| == |maximums|
    && forall i | 0 <= i < |lattices| :: forall a | a in lattices[i] :: 0 <= a <= maximums[i]
  }

  /** An exact distribution: conserves the total, respects maxima and the minimum action, and takes every
      amount but one from its lattice. */
  ghost predicate IsDistribution(maximums: seq<int>, lattices: seq<seq<int>>, total: int, minimum: int, v: seq<int>) {
    && |v| == |maximums| == |lattices| && Sum(v) == total
    && (forall i | 0 <= i < |v| :: 0 <= v[i] <= maximums[i] && (v[i] == 0 || v[i] >= minimum))
    && exists sink | 0 <= sink < |v| :: FromLattices(lattices, v, sink)
  }

  ghost predicate FromLattices(lattices: seq<seq<int>>, v: seq<int>, sink: int) {
    |v| == |lattices| && forall i | 0 <= i < |v| && i != sink :: v[i] in lattices[i]
  }

  /** A partial choice over the first `k` endpoints. */
  ghost predicate IsPartial(lattices: seq<seq<int>>, total: int, sink: nat, k: nat, v: seq<int>) {
    && |v| == |lattices| && Sum(v) <= total
    && (forall i | 0 <= i < |v| :: if i < k && i != sink then v[i] in lattices[i] else v[i] == 0)
  }

  lemma {:induction false} ExtendOneMembers(p: Partial, index: nat, amounts: seq<int>, total: int, q: Partial)
    requires index < |p.selected|
    ensures q in ExtendOne(p, index, amounts, total) <==>
            exists a | a in amounts :: p.subtotal + a <= total && q == Extension(p, index, a)
  {
    if amounts != [] {
      var a, front := amounts[|amounts| - 1], amounts[..|amounts| - 1];
      ExtendOneMembers(p, index, front, total, q);
      assert amounts == front + [a];
      if p.subtotal + a <= total && q == Extension(p, index, a) {
        assert a in amounts;
      } else {
        assert q in ExtendOne(p, index, amounts, total) <==> q in ExtendOne(p, index, front, total);
      }
    }
  }

  lemma {:induction false} ExtendAllMembers(ps: seq<Partial>, n: nat, index: nat, amounts: seq<int>, total: int, q: Partial)
    requires Sized(ps, n) && index < n
    ensures q in ExtendAll(ps, n, index, amounts, total) <==>
            exists p | p in ps :: |p.selected| == n && q in ExtendOne(p, index, amounts, total)
  {
    if ps != [] {
      var last, front := ps[|ps| - 1], ps[..|ps| - 1];
      assert last in ps;
      ExtendAllMembers(front, n, index, amounts, total, q);
      assert ps == front + [last];
    }
  }

  lemma {:induction false} StageSound(n: nat, lattices: seq<seq<int>>, total: int, sink: nat, k: nat, q: Partial)
    requires k <= |lattices| == n && total >= 0 && q in Stage(n, lattices, total, sink, k)
    ensures IsPartial(lattices, total, sink, k, q.selected) && q.subtotal == Sum(q.selected)
    decreases k
  {
    hide ExtendAll, ExtendOne, Sum;
    if k == 0 {
    } else if k - 1 == sink {
      StageSound(n, lattices, total, sink, k - 1, q);
    } else {
      var i := k - 1;
      ExtendAllMembers(Stage(n, lattices, total, sink, i), n, i, lattices[i], total, q);
      var p :| p in Stage(n, lattices, total, sink, i) && |p.selected| == n && q in ExtendOne(p, i, lattices[i], total);
      StageSound(n, lattices, total, sink, i, p);
      ExtendOneMembers(p, i, lattices[i], total, q);
      var a :| a in lattices[i] && p.subtotal + a <= total && q == Extension(p, i, a);
      SumUpdate(p.selected, i, a);
    }
  }

  predicate NonNegative(lattices: seq<seq<int>>) {
    forall i | 0 <= i < |lattices| :: forall a | a in lattices[i] :: a >= 0
  }

  lemma {:induction false} StageComplete(n: nat, lattices: seq<seq<int>>, total: int, sink: nat, k: nat, v: seq<int>)
    requires k <= |lattices| == n && NonNegative(lattices) && IsPartial(lattices, total, sink, k, v)
    ensures Partial(v, Sum(v)) in Stage(n, lattices, total, sink, k)
    decreases k
  {
    hide ExtendAll, ExtendOne, Sum;
    if k == 0 {
      assert v == Zeros(n);
    } else if k - 1 == sink {
      StageComplete(n, lattices, total, sink, k - 1, v);
    } else {
      var i := k - 1;
      var a, w := v[i], v[i := 0];
      SumUpdate(v, i, 0);
      StageComplete(n, lattices, total, sink, i, w);
      var p, q := Partial(w, Sum(w)), Partial(v, Sum(v));
      assert w[i := a] == v;
      assert q == Extension(p, i, a);
      ExtendOneMembers(p, i, lattices[i], total, q);
      ExtendAllMembers(Stage(n, lattices, total, sink, i), n, i, lattices[i], total, q);
    }
  }

  /** A stage holds exactly the partial choices within the total, each with its own sum. */
  lemma StageMembers(n: nat, lattices: seq<seq<int>>, total: int, sink: nat, k: nat, q: Partial)
    requires k <= |lattices| == n && total >= 0 && NonNegative(lattices)
    ensures q in Stage(n, lattices, total, sink, k) <==> IsPartial(lattices, total, sink, k, q.selected) && q.subtotal == Sum(q.selected)
  {
    hide Stage, Sum, IsPartial;
    if q in Stage(n, lattices, total, sink, k) { StageSound(n, lattices, total, sink, k, q); }
    if IsPartial(lattices, total, sink, k, q.selected) { StageComplete(n, lattices, total, sink, k, q.selected); }
  }

  lemma CompletedIsDistribution(maximums: seq<int>, lattices: seq<seq<int>>, total: int, minimum: int, s: nat, p: Partial)
    requires WithinMaxima(maximums, lattices) && total >= 0 && s < |maximums|
    requires p in Stage(|maximums|, lattices, total, s, |maximums|) && Accepted(p, maximums[s], total, minimum)
    ensures IsDistribution(maximums, lattices, total, minimum, Completed(p, s, total))
  {
    hide Stage;
    var v := Completed(p, s, total);
    StageMembers(|maximums|, lattices, total, s, |maximums|, p);
    SumUpdate(p.selected, s, total - p.subtotal);
    assert FromLattices(lattices, v, s);
  }

  lemma DistributionIsCompleted(maximums: seq<int>, lattices: seq<seq<int>>, total: int, minimum: int, s: nat, v: seq<int>) returns (p: Partial)
    requires WithinMaxima(maximums, lattices) && total >= 0 && s < |maximums|
    requires IsDistribution(maximums, lattices, total, minimum, v) && FromLattices(lattices, v, s)
    ensures p in Stage(|maximums|, lattices, total, s, |maximums|) && Accepted(p, maximums[s], total, minimum)
    ensures v == Completed(p, s, total)
  {
    p := Partial(v[s := 0], total - v[s]);
    SumUpdate(v, s, 0);
    StageMembers(|maximums|, lattices, total, s, |maximums|, p);
  }

  /** What the search produces through all sinks is exactly the set of distributions. */
  lemma ProducedAreDistributions(maximums: seq<int>, lattices: seq<seq<int>>, total: int, minimum: int, v: seq<int>)
    requires WithinMaxima(maximums, lattices) && total >= 0
    ensures Produced(maximums, lattices, total, minimum, |maximums|, 0, v) <==> IsDistribution(maximums, lattices, total, minimum, v)
  {
    hide Stage, Accepted, Completed, IsDistribution;
    var n := |maximums|;
    if Produced(maximums, lattices, total, minimum, n, 0, v) {
      var s: nat, p :| s < n && p in Stage(n, lattices, total, s, n) && Accepted(p, maximums[s], total, minimum)
                       && v == Completed(p, s, total);
      CompletedIsDistribution(maximums, lattices, total, minimum, s, p);
    }
    if IsDistribution(maximums, lattices, total, minimum, v) {
      var s := LatticeSink(maximums, lattices, total, minimum, v);
      var p := DistributionIsCompleted(maximums, lattices, total, minimum, s, v);
    }
  }

  lemma LatticeSink(maximums: seq<int>, lattices: seq<seq<int>>, total: int, minimum: int, v: seq<int>) returns (s: nat)
    requires IsDistribution(maximums, lattices, total, minimum, v)
    ensures s < |maximums| && FromLattices(lattices, v, s)
  {
    s :| 0 <= s < |v| && FromLattices(lattices, v, s);
  }

  // ---------------------------------------------------------------- the search loop

  lemma {:induction false} ExtendOneGrows(p: Partial, index: nat, amounts: seq<int>, total: int, j: nat)
    requires index < |p.selected| && j <= |amounts|
    ensures |ExtendOne(p, index, amounts[..j], total)| <= |ExtendOne(p, index, amounts, total)|
    decreases |amounts|
  {
    if j < |amounts| {
      assert amounts[..|amounts| - 1][..j] == amounts[..j];
      ExtendOneGrows(p, index, amounts[..|amounts| - 1], total, j);
    } else {
      assert amounts[..j] == amounts;
    }
  }

  lemma {:induction false} ExtendAllGrows(ps: seq<Partial>, n: nat, index: nat, amounts: seq<int>, total: int, i: nat)
    requires Sized(ps, n) && index < n && i <= |ps|
    ensures Sized(ps[..i], n)
    ensures |ExtendAll(ps[..i], n, index, amounts, total)| <= |ExtendAll(ps, n, index, amounts, total)|
    decreases |ps|
  {
    if i < |ps| {
      assert ps[..|ps| - 1][..i] == ps[..i];
      ExtendAllGrows(ps[..|ps| - 1], n, index, amounts, total, i);
    } else {
      assert ps[..i] == ps;
    }
  }

  /** Extends every partial choice by one endpoint; gives up as soon as one more than `bound` would result. */
  method ExtendStage(partials: seq<Partial>, n: nat, index: nat, amounts: seq<U256>, total: U256, bound: nat) returns (r: Option<seq<Partial>>)
    requires Sized(partials, n)
    ensures r.Some? ==> Sized(r.value, n) && |r.value| <= bound
    ensures index < n ==> r == if |ExtendAll(partials, n, index, amounts, total)| <= bound
                               then Some(ExtendAll(partials, n, index, amounts, total)) else None
  {
    var next: seq<Partial> := [];
    for i := 0 to |partials|
      invariant Sized(next, n) && |next| <= bound
      invariant index < n ==> next == ExtendAll(partials[..i], n, index, amounts, total)
    {
      var p := partials[i];
      assert partials[..i + 1][..i] == partials[..i];
      for j := 0 to |amounts|
        invariant Sized(next, n) && |next| <= bound
        invariant index < n ==> next == ExtendAll(partials[..i], n, index, amounts, total) + ExtendOne(p, index, amounts[..j], total)
      {
        assert amounts[..j + 1][..j] == amounts[..j];
        var updated := p.subtotal + amounts[j];
        if updated > MAX_U256 || updated > total { continue; }
        if |next| >= bound {
          if index < n {
            ExtendOneGrows(p, index, amounts, total, j + 1);
            ExtendAllGrows(partials, n, index, amounts, total, i + 1);
          }
          return None;
        }
        if index >= n { return None; }
        next := next + [Extension(p, index, amounts[j])];
      }
      assert amounts[..|amounts|] == amounts;
    }
    assert partials[..|partials|] == partials;
    return Some(next);
  }

  /** Enumerates the exact distributions of `total`, or nothing when the bound would cut the search short.

      On equal-length inputs whose lattice amounts respect the maxima, a result is exactly the set of
      distributions in lexicographic order, and there is none exactly when some stage or the result
      itself outgrows the limit. */
  method BoundedDistributions(maximums: seq<U256>, lattices: seq<seq<U256>>, total: U256, minimum: U256, limit: nat)
    returns (r: Option<seq<seq<int>>>)
    ensures r.Some? ==> LexAscending(r.value) && |r.value| <= Max(limit, 1)
    ensures WithinMaxima(maximums, lattices) && r.Some? ==>
              forall v :: v in r.value <==> IsDistribution(maximums, lattices, total, minimum, v)
    ensures WithinMaxima(maximums, lattices) ==>
              (r.None? <==> StageOverflows(maximums, lattices, total, Max(limit, 1))
                            || ResultsOverflow(maximums, lattices, total, minimum, Max(limit, 1)))
  {
    hide Accepted, Completed, ExtendAll;
    var n, bound := |maximums|, Max(limit, 1);
    ghost var proper := WithinMaxima(maximums, lattices);
    var unique: seq<seq<int>> := [];
    for sink := 0 to n
      invariant LexAscending(unique) && |unique| <= bound
      invariant proper ==> forall v :: v in unique <==> Produced(maximums, lattices, total, minimum, sink, 0, v)
      invariant proper ==> forall s: nat, k: nat | s < sink && k <= n :: |Stage(n, lattices, total, s, k)| <= bound
    {
      var partials := [Partial(Zeros(n), 0)];
      for index := 0 to |lattices|
        invariant Sized(partials, n) && |partials| <= bound
        invariant proper ==> partials == Stage(n, lattices, total, sink, index)
        invariant proper ==> forall k: nat | k <= index :: |Stage(n, lattices, total, sink, k)| <= bound
      {
        if index == sink { continue; }
        var next := ExtendStage(partials, n, index, lattices[index], total, bound);
        if next.None? {
          if proper { assert |Stage(n, lattices, total, sink, index + 1)| > bound; }
          return None;
        }
        partials := next.value;
      }
      for j := 0 to |partials|
        invariant LexAscending(unique) && |unique| <= bound
        invariant proper ==> forall v :: v in unique <==> Produced(maximums, lattices, total, minimum, sink, j, v)
      {
        var p := partials[j];
        assert p in partials;
        ghost var known := unique;
        if Accepted(p, maximums[sink], total, minimum) {
          unique := LexInsert(unique, Completed(p, sink, total));
        }
        if proper { ProducedStep(maximums, lattices, total, minimum, sink, j, known, unique); }
        if |unique| > bound {
          if proper {
            AllProduced(maximums, lattices, total, minimum, sink, j + 1, unique);
          }
          return None;
        }
      }
      if proper { ProducedSink(maximums, lattices, total, minimum, sink, unique); }
    }
    if proper {
      forall v ensures v in unique <==> IsDistribution(maximums, lattices, total, minimum, v) {
        ProducedAreDistributions(maximums, lattices, total, minimum, v);
      }
      NoOverflow(maximums, lattices, total, minimum, unique, bound);
    }
    return Some(unique);
  }

  lemma ProducedStep(maximums: seq<U256>, lattices: seq<seq<U256>>, total: U256, minimum: U256, sink: nat, j: nat,
                     known: seq<seq<int>>, unique: seq<seq<int>>)
    requires |lattices| == |maximums| && sink < |maximums| && j < |Stage(|maximums|, lattices, total, sink, |maximums|)|
    requires forall v :: v in known <==> Produced(maximums, lattices, total, minimum, sink, j, v)
    requires var p := Stage(|maximums|, lattices, total, sink, |maximums|)[j];
             && |p.selected| == |maximums|
             && forall v :: v in unique <==> v in known || (Accepted(p, maximums[sink], total, minimum) && v == Completed(p, sink, total))
    ensures forall v :: v in unique <==> Produced(maximums, lattices, total, minimum, sink, j + 1, v)
  {
    hide Accepted, Completed, Stage, Produced;
    forall v ensures v in unique <==> Produced(maximums, lattices, total, minimum, sink, j + 1, v) {
      ProducedOne(maximums, lattices, total, minimum, sink, j, v);
    }
  }

  lemma ProducedOne(maximums: seq<U256>, lattices: seq<seq<U256>>, total: U256, minimum: U256, sink: nat, j: nat, v: seq<int>)
    requires |lattices| == |maximums| && sink < |maximums| && j < |Stage(|maximums|, lattices, total, sink, |maximums|)|
    ensures var p := Stage(|maximums|, lattices, total, sink, |maximums|)[j];
            && |p.selected| == |maximums|
            && (Produced(maximums, lattices, total, minimum, sink, j + 1, v) <==>
                Produced(maximums, lattices, total, minimum, sink, j, v)
                || (Accepted(p, maximums[sink], total, minimum) && v == Completed(p, sink, total)))
  {
    hide Accepted, Completed, Stage;
    var stage := Stage(|maximums|, lattices, total, sink, |maximums|);
    assert stage[..j + 1] == stage[..j] + [stage[j]];
    assert stage[j] in stage;
    forall p | p in stage
      ensures p in stage[..j + 1] <==> p in stage[..j] || p == stage[j]
    {
    }
  }

  lemma ProducedSink(maximums: seq<U256>, lattices: seq<seq<U256>>, total: U256, minimum: U256, sink: nat, unique: seq<seq<int>>)
    requires |lattices| == |maximums| && sink < |maximums|
    requires var n := |Stage(|maximums|, lattices, total, sink, |maximums|)|;
             forall v :: v in unique <==> Produced(maximums, lattices, total, minimum, sink, n, v)
    ensures forall v :: v in unique <==> Produced(maximums, lattices, total, minimum, sink + 1, 0, v)
  {
    hide Accepted, Completed, Stage;
    var stage := Stage(|maximums|, lattices, total, sink, |maximums|);
    assert stage[..|stage|] == stage;
    forall v ensures v in unique <==> Produced(maximums, lattices, total, minimum, sink + 1, 0, v) {
      var n := |maximums|;
      if Produced(maximums, lattices, total, minimum, sink + 1, 0, v) {
        var s: nat, p :| s < sink + 1 && p in Stage(n, lattices, total, s, n)
                         && Accepted(p, maximums[s], total, minimum) && v == Completed(p, s, total);
      }
    }
  }

  lemma AllProduced(maximums: seq<U256>, lattices: seq<seq<U256>>, total: U256, minimum: U256, sink: nat, j: nat, vs: seq<seq<int>>)
    requires WithinMaxima(maximums, lattices) && sink < |maximums| && j <= |Stage(|maximums|, lattices, total, sink, |maximums|)|
    requires forall v | v in vs :: Produced(maximums, lattices, total, minimum, sink, j, v)
    ensures AllDistributions(maximums, lattices, total, minimum, vs)
  {
    hide Accepted, Completed, Stage, IsDistribution;
    var n := |maximums|;
    forall v | v in vs ensures IsDistribution(maximums, lattices, total, minimum, v) {
      var s: nat, p :| s < n && p in Stage(n, lattices, total, s, n)
                       && Accepted(p, maximums[s], total, minimum) && v == Completed(p, s, total);
      CompletedIsDistribution(maximums, lattices, total, minimum, s, p);
    }
  }

  lemma {:induction false} DistinctCount(vs: seq<seq<int>>)
    requires LexAscending(vs)
    ensures |set v | v in vs| == |vs|
  {
    if vs != [] {
      var front, last := vs[..|vs| - 1], vs[|vs| - 1];
      DistinctCount(front);
      assert last !in front by {
        forall i | 0 <= i < |front| ensures front[i] != last { LexAscendingDistinct(vs, i, |vs| - 1); }
      }
      assert vs == front + [last];
      assert (set v | v in vs) == (set v | v in front) + {last};
    }
  }

  lemma SubsetCount<T>(a: set<T>, b: set<T>)
    requires a <= b
    ensures |a| <= |b|
  {
    assert |b| == |b - a| + |a| by { assert b == (b - a) + a; }
  }

  /** A complete result leaves no room for more distributions than it holds. */
  lemma NoOverflow(maximums: seq<U256>, lattices: seq<seq<U256>>, total: U256, minimum: U256, results: seq<seq<int>>, bound: nat)
    requires LexAscending(results) && |results| <= bound
    requires forall v :: v in results <==> IsDistribution(maximums, lattices, total, minimum, v)
    ensures !ResultsOverflow(maximums, lattices, total, minimum, bound)
  {
    hide IsDistribution;
    forall vs: seq<seq<int>> | LexAscending(vs) && AllDistributions(maximums, lattices, total, minimum, vs)
      ensures |vs| <= bound
    {
      DistinctCount(vs);
      DistinctCount(results);
      SubsetCount(set v | v in vs, set v | v in results);
    }
  }

  // ---------------------------------------------------------------- candidate lattices

  /** A boundary and its neighbours inside the range, ascending. */
  function Neighbours(value: int, maximum: int): seq<int>
    requires 0 <= value <= maximum
  {
    (if value > 0 then [value - 1] else []) + [value] + (if value < maximum then [value + 1] else [])
  }

  /** Zero, the minimum action and the maximum: the boundaries that should survive every limit. */
  function CoreBoundaries(minimumAction: int, maximum: int): seq<int> { [0, Min(minimumAction, maximum), maximum] }

  /** Every amount considered, most important first: core boundaries, caller boundaries, neighbours of
      both, then sixteen binary fractions. */
  function Priority(minimumAction: U256, maximum: U256, boundaries: seq<U256>): (r: seq<int>)
    ensures InRange(r, maximum)
    ensures CoreBoundaries(minimumAction, maximum) <= r
  {
    var core := CoreBoundaries(minimumAction, maximum);
    core + Clamped(boundaries, maximum)
    + AllNeighbours(core, maximum) + AllNeighbours(Clamped(boundaries, maximum), maximum)
    + Fractions(maximum, 2, 16)
  }

  predicate InRange(xs: seq<int>, maximum: int) {
    forall i | 0 <= i < |xs| :: 0 <= xs[i] <= maximum
  }

  function Clamped(xs: seq<U256>, maximum: U256): (r: seq<int>)
    ensures InRange(r, maximum)
  {
    if xs == [] then [] else [Min(xs[0], maximum)] + Clamped(xs[1..], maximum)
  }

  function AllNeighbours(xs: seq<int>, maximum: int): (r: seq<int>)
    requires InRange(xs, maximum)
    ensures InRange(r, maximum)
  {
    if xs == [] then [] else Neighbours(xs[0], maximum) + AllNeighbours(xs[1..], maximum)
  }

  function Fractions(maximum: nat, divisor: nat, count: nat): (r: seq<int>)
    requires divisor > 0
    ensures InRange(r, maximum)
    decreases count
  {
    if count == 0 then [] else FractionFits(maximum, divisor); [maximum / divisor] + Fractions(maximum, 2 * divisor, count - 1)
  }

  lemma FractionFits(maximum: nat, divisor: nat)
    requires divisor > 0
    ensures 0 <= maximum / divisor <= maximum
  {
    SharePool.DivAtLeast(maximum, divisor, 0);
    SharePool.MulMonotone(1, divisor, maximum + 1);
    SharePool.DivAtMost(maximum, divisor, maximum);
  }

  /** The first `limit` distinct elements of a sequence. */
  function FirstDistinct(xs: seq<int>, limit: nat): (r: seq<int>)
    ensures |r| <= limit
    ensures forall x | x in r :: x in xs
  {
    if xs == [] then []
    else
      var before, last := FirstDistinct(xs[..|xs| - 1], limit), xs[|xs| - 1];
      if last in before || |before| >= limit then before else before + [last]
  }

  lemma {:induction false} FirstDistinctExtends(xs: seq<int>, limit: nat, k: nat)
    requires k <= |xs|
    ensures FirstDistinct(xs[..k], limit) <= FirstDistinct(xs, limit)
    decreases |xs|
  {
    if k < |xs| {
      assert xs[..|xs| - 1][..k] == xs[..k];
      FirstDistinctExtends(xs[..|xs| - 1], limit, k);
    } else {
      assert xs[..k] == xs;
    }
  }

  lemma {:induction false} FirstDistinctIsDistinct(xs: seq<int>, limit: nat)
    ensures AllDifferent(FirstDistinct(xs, limit))
  {
    if xs != [] {
      FirstDistinctIsDistinct(xs[..|xs| - 1], limit);
      var r, before, last := FirstDistinct(xs, limit), FirstDistinct(xs[..|xs| - 1], limit), xs[|xs| - 1];
      assert r == before || (last !in before && r == before + [last]);
      assert forall i | 0 <= i < |before| :: before[i] in before;
    }
  }

  /** Full prefixes are kept: an element is missing only when the limit is already reached. */
  lemma {:induction false} FirstDistinctComplete(xs: seq<int>, limit: nat, x: int)
    requires x in xs
    ensures x in FirstDistinct(xs, limit) || |FirstDistinct(xs, limit)| == limit
  {
    var front, last := xs[..|xs| - 1], xs[|xs| - 1];
    assert xs == front + [last];
    if x in front { FirstDistinctComplete(front, limit, x); }
  }

  /** The first distinct elements of a prefix are chosen before any other. */
  lemma PrefixSurvives(core: seq<int>, xs: seq<int>, limit: nat)
    requires core <= xs
    ensures (forall x | x in core :: x in FirstDistinct(xs, limit)) <==> |set x | x in core| <= limit
  {
    assert xs[..|core|] == core;
    FirstDistinctExtends(xs, limit, |core|);
    FirstDistinctIsDistinct(core, limit);
    var chosen := FirstDistinct(core, limit);
    SetOfDistinct(chosen);
    SubsetCount(set x | x in chosen, set x | x in core);
    if |set x | x in core| <= limit {
      forall x | x in core ensures x in FirstDistinct(xs, limit) {
        FirstDistinctComplete(core, limit, x);
        if x !in chosen {
          SubsetCount((set y | y in chosen) + {x}, set y | y in core);
        }
      }
    } else if forall x | x in core :: x in FirstDistinct(xs, limit) {
      FirstDistinctIsDistinct(xs, limit);
      SetOfDistinct(FirstDistinct(xs, limit));
      SubsetCount(set x | x in core, set x | x in FirstDistinct(xs, limit));
    }
  }

  lemma {:induction false} SetOfDistinct(xs: seq<int>)
    requires AllDifferent(xs)
    ensures |set x | x in xs| == |xs|
  {
    if xs != [] {
      var front, last := xs[..|xs| - 1], xs[|xs| - 1];
      SetOfDistinct(front);
      assert xs == front + [last];
      assert (set x | x in xs) == (set x | x in front) + {last};
    }
  }

  /** Takes distinct amounts in priority order until the bound is reached. */
  method SelectDistinct(priority: seq<int>, bound: nat) returns (selected: seq<int>)
    requires bound > 0
    ensures selected == FirstDistinct(priority, bound)
  {
    selected := [];
    for i := 0 to |priority|
      invariant |selected| < bound && selected == FirstDistinct(priority[..i], bound)
    {
      var amount := priority[i];
      assert priority[..i + 1][..i] == priority[..i];
      if amount !in selected {
        selected := selected + [amount];
        if |selected| == bound {
          FirstDistinctExtends(priority, bound, i + 1);
          return;
        }
      }
    }
    assert priority[..|priority|] == priority;
  }

  /** The amounts tried for one endpoint. */
  function Lattice(minimumAction: U256, maximum: U256, boundaries: seq<U256>, limit: nat): seq<int> {
    if maximum + 1 <= Max(limit, 1) then seq(maximum + 1, i => i)
    else Sorted(FirstDistinct(Priority(minimumAction, maximum, boundaries), Max(limit, 1)))
  }

  /** What a lattice promises: ascending distinct amounts within the maximum and the limit, with zero; and
      zero, the minimum action and the maximum all present exactly when the limit admits them. */
  ghost predicate IsLattice(amounts: seq<int>, minimumAction: int, maximum: int, bound: nat) {
    && Ascending(amounts) && 1 <= |amounts| <= bound
    && InRange(amounts, maximum)
    && 0 in amounts
    && ((forall a | a in CoreBoundaries(minimumAction, maximum) :: a in amounts)
        <==> |set a | a in CoreBoundaries(minimumAction, maximum)| <= bound)
  }

  lemma LatticeWithin(minimumAction: U256, maximum: U256, boundaries: seq<U256>, limit: nat)
    ensures InRange(Lattice(minimumAction, maximum, boundaries, limit), maximum)
  {
    hide Lattice;
    LatticeHolds(minimumAction, maximum, boundaries, limit);
  }

  /** Every lattice keeps these promises, and a small maximum is enumerated completely. */
  lemma LatticeHolds(minimumAction: U256, maximum: U256, boundaries: seq<U256>, limit: nat)
    ensures IsLattice(Lattice(minimumAction, maximum, boundaries, limit), minimumAction, maximum, Max(limit, 1))
    ensures maximum + 1 <= Max(limit, 1) ==> forall a | 0 <= a <= maximum :: a in Lattice(minimumAction, maximum, boundaries, limit)
  {
    hide IsLattice, Priority;
    var amounts, bound := Lattice(minimumAction, maximum, boundaries, limit), Max(limit, 1);
    if maximum + 1 <= bound {
      FullRangeIsLattice(amounts, minimumAction, maximum, bound);
      forall a | 0 <= a <= maximum ensures a in amounts { assert amounts[a] == a; }
    } else {
      FirstDistinctIsDistinct(Priority(minimumAction, maximum, boundaries), bound);
      SortedAscending(FirstDistinct(Priority(minimumAction, maximum, boundaries), bound));
      SelectionIsLattice(amounts, minimumAction, maximum, boundaries, bound);
    }
  }

  /** With room for two amounts, a lattice over ten units with minimum action two loses one of its core boundaries. */
  lemma LatticeLosesBoundary()
    ensures exists a | a in CoreBoundaries(2, 10) :: a !in Lattice(2, 10, [], 2)
  {
    hide Lattice;
    LatticeHolds(2, 10, [], 2);
    var core := set a | a in CoreBoundaries(2, 10);
    assert 0 in core && 2 in core && 10 in core;
    assert |{0, 2, 10}| == 3;
    SubsetCount({0, 2, 10}, core);
  }

  lemma FullRangeIsLattice(amounts: seq<int>, minimumAction: U256, maximum: U256, bound: nat)
    requires |amounts| == maximum + 1 <= bound && forall i | 0 <= i <= maximum :: amounts[i] == i
    ensures IsLattice(amounts, minimumAction, maximum, bound)
  {
    var core := CoreBoundaries(minimumAction, maximum);
    assert amounts[0] == 0;
    forall a | a in core ensures a in amounts { assert amounts[a] == a; }
    SetOfDistinct(amounts);
    SubsetCount(set a | a in core, set a | a in amounts);
  }

  lemma SelectionIsLattice(amounts: seq<int>, minimumAction: U256, maximum: U256, boundaries: seq<U256>, bound: nat)
    requires bound > 0 && Ascending(amounts)
    requires var selected := FirstDistinct(Priority(minimumAction, maximum, boundaries), bound);
             |amounts| == |selected| && forall a :: a in amounts <==> a in selected
    ensures IsLattice(amounts, minimumAction, maximum, bound)
  {
    hide Priority;
    var priority, core := Priority(minimumAction, maximum, boundaries), CoreBoundaries(minimumAction, maximum);
    PrefixSurvives(core, priority, bound);
    assert 0 in amounts by {
      assert [0] <= core && (set x | x in [0]) == {0} && 0 in [0];
      PrefixSurvives([0], priority, bound);
    }
    forall i | 0 <= i < |amounts| ensures 0 <= amounts[i] <= maximum { assert amounts[i] in priority; }
  }

  /** Builds a lattice with loops that stop at the limit. */
  method BuildLattice(minimumAction: U256, maximum: U256, boundaries: seq<U256>, limit: nat) returns (amounts: seq<int>)
    ensures amounts == Lattice(minimumAction, maximum, boundaries, limit)
  {
    hide Priority;
    var bound := Max(limit, 1);
    if maximum + 1 <= bound {
      amounts := [];
      for a := 0 to maximum + 1
        invariant amounts == seq(a, i => i)
      {
        amounts := amounts + [a];
      }
    } else {
      var selected := SelectDistinct(Priority(minimumAction, maximum, boundaries), bound);
      amounts := [];
      for k := 0 to |selected|
        invariant amounts == Sorted(selected[..k])
      {
        assert selected[..k + 1][..k] == selected[..k];
        amounts := Inserted(amounts, selected[k]);
      }
      assert selected[..|selected|] == selected;
    }
  }
}
