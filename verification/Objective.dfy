/** Lexicographic ranking of candidate plans and the spread of a frozen market set. */
module Objective {
  import opened Checked
  import opened Ordering
  import opened Market

  datatype PlanReason = CapitalDeployment | RateRebalance | TopKApyRebalance | LiquidityMaintenance | PositionSyncRequired

  datatype Metrics = Metrics(
    unreservedIdle: U256,
    deployed: U256,
    spread: U256,
    secondary: U256,
    terminalDelta: I256,
    movement: U256,
    actionCount: nat)

  /** Whether `a` ranks strictly ahead of `b` for a plan class; a reversed component is compared negated. */
  predicate RanksBefore(reason: PlanReason, a: Metrics, b: Metrics, target: U256, reachable: bool) {
    match reason
    case CapitalDeployment =>
      LexLess([a.unreservedIdle, 0 - a.deployed, a.spread, 0 - a.terminalDelta, a.movement, a.actionCount],
              [b.unreservedIdle, 0 - b.deployed, b.spread, 0 - b.terminalDelta, b.movement, b.actionCount])
    case LiquidityMaintenance =>
      LexLess([a.unreservedIdle, a.spread, a.movement, a.actionCount], [b.unreservedIdle, b.spread, b.movement, b.actionCount])
    case PositionSyncRequired => false
    case _ =>
      var aReaches, bReaches := a.spread <= target, b.spread <= target;
      if reachable && aReaches != bReaches then aReaches
      else if reachable && aReaches then
        LexLess([a.movement, a.spread, a.secondary, 0 - a.terminalDelta, a.actionCount],
                [b.movement, b.spread, b.secondary, 0 - b.terminalDelta, b.actionCount])
      else
        LexLess([a.spread, a.secondary, 0 - a.terminalDelta, a.actionCount, a.movement],
                [b.spread, b.secondary, 0 - b.terminalDelta, b.actionCount, b.movement])
  }

  /** A single sort key per plan. */
  function Rank(reason: PlanReason, m: Metrics, target: U256, reachable: bool): seq<int> {
    match reason
    case CapitalDeployment => [m.unreservedIdle, 0 - m.deployed, m.spread, 0 - m.terminalDelta, m.movement, m.actionCount]
    case LiquidityMaintenance => [m.unreservedIdle, m.spread, m.movement, m.actionCount]
    case PositionSyncRequired => []
    case _ =>
      if reachable && m.spread <= target then [0, m.movement, m.spread, m.secondary, 0 - m.terminalDelta, m.actionCount]
      else [1, m.spread, m.secondary, 0 - m.terminalDelta, m.actionCount, m.movement]
  }

  /** The branching comparison is the lexicographic order of one key. */
  lemma RanksByKey(reason: PlanReason, a: Metrics, b: Metrics, target: U256, reachable: bool)
    ensures RanksBefore(reason, a, b, target, reachable) <==>
            LexLess(Rank(reason, a, target, reachable), Rank(reason, b, target, reachable))
  {
    if reason.RateRebalance? || reason.TopKApyRebalance? {
      var ra, rb := Rank(reason, a, target, reachable), Rank(reason, b, target, reachable);
      if ra[0] == rb[0] {
        if reachable && a.spread <= target {
          assert ra[1..] == [a.movement, a.spread, a.secondary, 0 - a.terminalDelta, a.actionCount];
          assert rb[1..] == [b.movement, b.spread, b.secondary, 0 - b.terminalDelta, b.actionCount];
        } else {
          assert ra[1..] == [a.spread, a.secondary, 0 - a.terminalDelta, a.actionCount, a.movement];
          assert rb[1..] == [b.spread, b.secondary, 0 - b.terminalDelta, b.actionCount, b.movement];
        }
      }
    }
  }

  /** A strict weak order: irreflexive, transitive, and with transitive incomparability. */
  lemma RanksStrictly(reason: PlanReason, a: Metrics, b: Metrics, c: Metrics, target: U256, reachable: bool)
    ensures !RanksBefore(reason, a, a, target, reachable)
    ensures RanksBefore(reason, a, b, target, reachable) && RanksBefore(reason, b, c, target, reachable) ==>
              RanksBefore(reason, a, c, target, reachable)
    ensures !RanksBefore(reason, a, b, target, reachable) && !RanksBefore(reason, b, c, target, reachable) ==>
              !RanksBefore(reason, a, c, target, reachable)
  {
    hide RanksBefore, Rank;
    RanksByKey(reason, a, a, target, reachable);
    RanksByKey(reason, a, b, target, reachable);
    RanksByKey(reason, b, c, target, reachable);
    RanksByKey(reason, a, c, target, reachable);
    LexIsStrictWeak(Rank(reason, a, target, reachable), Rank(reason, b, target, reachable), Rank(reason, c, target, reachable));
  }

  lemma LexIsStrictWeak(x: seq<int>, y: seq<int>, z: seq<int>)
    ensures !LexLess(x, x)
    ensures LexLess(x, y) && LexLess(y, z) ==> LexLess(x, z)
    ensures !LexLess(x, y) && !LexLess(y, z) ==> !LexLess(x, z)
  {
    hide LexLess;
    LexIrreflexive(x);
    LexTotal(x, y);
    LexTotal(y, z);
    if LexLess(x, y) && LexLess(y, z) { LexTransitive(x, y, z); }
    if LexLess(y, x) && LexLess(z, y) {
      LexTransitive(z, y, x);
      if LexLess(x, z) {
        LexTransitive(x, z, x);
      }
    }
  }

  /** When the target is reachable, a plan that nothing outranks reaches it with the least movement. */
  lemma BestReachesCheaply(best: Metrics, other: Metrics, target: U256)
    requires !RanksBefore(RateRebalance, other, best, target, true) && other.spread <= target
    ensures best.spread <= target && best.movement <= other.movement
  {
  }

  // ---------------------------------------------------------------- spreads

  datatype Kind = SpotBorrowRateSpread | UtilizationSpread

  function Smallest(values: seq<U256>): U256
    requires values != []
  {
    if |values| == 1 then values[0] else Min(Smallest(values[..|values| - 1]), values[|values| - 1])
  }

  function Largest(values: seq<U256>): U256
    requires values != []
  {
    if |values| == 1 then values[0] else Max(Largest(values[..|values| - 1]), values[|values| - 1])
  }

  function Spread(values: seq<U256>): U256 {
    if values == [] then 0 else SaturatingSub(Largest(values), Smallest(values))
  }

  lemma {:induction false} ExtremesBound(values: seq<U256>)
    requires values != []
    ensures forall v | v in values :: Smallest(values) <= v <= Largest(values)
    ensures Smallest(values) in values && Largest(values) in values
  {
    if |values| > 1 {
      ExtremesBound(values[..|values| - 1]);
      assert values == values[..|values| - 1] + [values[|values| - 1]];
    }
  }

  /** The spread is the largest gap between two values, and some two values have it. */
  lemma SpreadIsLargestGap(values: seq<U256>)
    ensures forall x, y | x in values && y in values :: x - y <= Spread(values)
    ensures values != [] ==> exists x, y | x in values && y in values :: x - y == Spread(values)
    ensures |values| <= 1 ==> Spread(values) == 0
  {
    if values != [] {
      ExtremesBound(values);
      assert Largest(values) - Smallest(values) == Spread(values);
    }
  }

  /** `rate_spread`: one pass over the values. */
  method RateSpread(values: seq<U256>) returns (r: U256)
    ensures r == Spread(values)
  {
    var minimum: Option<U256>, maximum: Option<U256> := None, None;
    for i := 0 to |values|
      invariant i == 0 ==> minimum.None? && maximum.None?
      invariant i > 0 ==> minimum == Some(Smallest(values[..i])) && maximum == Some(Largest(values[..i]))
    {
      assert values[..i + 1][..i] == values[..i];
      minimum := Some(if minimum.None? then values[i] else Min(minimum.value, values[i]));
      maximum := Some(if maximum.None? then values[i] else Max(maximum.value, values[i]));
    }
    assert values[..|values|] == values;
    r := if maximum.Some? && minimum.Some? && minimum.value <= maximum.value then maximum.value - minimum.value else 0;
  }

  function ValueOf(state: MarketState, kind: Kind): U256 {
    match kind case SpotBorrowRateSpread => state.spotBorrowRate case UtilizationSpread => state.utilization
  }

  function ValuesOf(markets: seq<MarketId>, states: map<MarketId, MarketState>, kind: Kind): seq<U256>
    requires forall m | m in markets :: m in states
  {
    if markets == [] then [] else [ValueOf(states[markets[0]], kind)] + ValuesOf(markets[1..], states, kind)
  }

  /** The spread of a nonempty market set whose states are all present. */
  function CompleteSpread(markets: set<MarketId>, states: map<MarketId, MarketState>, kind: Kind): Option<U256> {
    if markets == {} || exists m | m in markets :: m !in states then None
    else Some(Spread(ValuesOf(Elements(markets), states, kind)))
  }
}
