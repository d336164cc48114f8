/** Market-to-market movement candidates of the top-K strategy. */
module Movement {
  import opened Checked
  import opened Ordering
  import opened Candidates
  import Simulation

  type MarketId = nat

  /** The configured position of a market, with its movement limits. */
  datatype Configured = Configured(key: nat, adapter: nat, data: seq<nat>, maximumAction: U256, minimumPosition: U256)

  /** The frozen target: selected markets, target and current assets, destination headroom. */
  datatype Goal = Goal(
    selected: seq<MarketId>,
    targets: map<MarketId, U256>,
    current: map<MarketId, U256>,
    capacity: map<MarketId, U256>)
  {
    /** Target assets, zero for a market that is not targeted. */
    function TargetOf(m: MarketId): U256 { if m in targets then targets[m] else 0 }
  }

  type Positions = map<MarketId, Configured>

  /** A market that can give or take up to `available` assets. */
  datatype Endpoint = Endpoint(market: MarketId, available: U256)

  function SourceRoom(goal: Goal, positions: Positions, m: MarketId): U256
    requires m in goal.current && m in positions
  {
    Min(Min(SaturatingSub(goal.current[m], goal.TargetOf(m)), positions[m].maximumAction),
        SaturatingSub(goal.current[m], positions[m].minimumPosition))
  }

  function Sources(goal: Goal, positions: Positions, markets: seq<MarketId>): seq<Endpoint> {
    if markets == [] then []
    else
      var m, rest := markets[0], Sources(goal, positions, markets[1..]);
      if m in goal.current && m in positions && SourceRoom(goal, positions, m) != 0
      then [Endpoint(m, SourceRoom(goal, positions, m))] + rest else rest
  }

  predicate Fillable(goal: Goal, positions: Positions, m: MarketId) {
    m in goal.selected && m in goal.current && m in goal.targets && m in positions && m in goal.capacity
  }

  function DestinationRoom(goal: Goal, positions: Positions, m: MarketId): U256
    requires Fillable(goal, positions, m)
  {
    Min(Min(SaturatingSub(goal.targets[m], goal.current[m]), positions[m].maximumAction), goal.capacity[m])
  }

  function Destinations(goal: Goal, positions: Positions, markets: seq<MarketId>): seq<Endpoint> {
    if markets == [] then []
    else
      var m, rest := markets[0], Destinations(goal, positions, markets[1..]);
      if Fillable(goal, positions, m) && DestinationRoom(goal, positions, m) != 0
      then [Endpoint(m, DestinationRoom(goal, positions, m))] + rest else rest
  }

  function CheckedSum(endpoints: seq<Endpoint>, total: U256): Result<U256>
    decreases |endpoints|
  {
    if endpoints == [] then Ok(total)
    else
      var sum :- Add(total, endpoints[0].available, Arithmetic);
      CheckedSum(endpoints[1..], sum)
  }

  function Rooms(endpoints: seq<Endpoint>): (r: seq<U256>)
    ensures |r| == |endpoints| && forall i | 0 <= i < |r| :: r[i] == endpoints[i].available
  {
    if endpoints == [] then [] else [endpoints[0].available] + Rooms(endpoints[1..])
  }

  // ---------------------------------------------------------------- candidates as actions

  predicate Known(endpoints: seq<Endpoint>, positions: Positions) {
    forall e | e in endpoints :: e.market in positions
  }

  /** One action per endpoint with a nonzero amount, in market order. */
  function Actions(endpoints: seq<Endpoint>, amounts: seq<int>, positions: Positions, drain: bool): seq<Simulation.Action>
    requires |amounts| == |endpoints| && Known(endpoints, positions)
    requires forall i | 0 <= i < |amounts| :: 0 <= amounts[i] <= MAX_U256
  {
    if endpoints == [] then []
    else
      assert endpoints[0] in endpoints;
      var c, rest := positions[endpoints[0].market], Actions(endpoints[1..], amounts[1..], positions, drain);
      if amounts[0] == 0 then rest
      else if drain then [Simulation.Deallocation(c.key, c.adapter, c.data, amounts[0])] + rest
      else [Simulation.Allocation(c.key, c.adapter, c.data, amounts[0])] + rest
  }

  /** Signed change that an action list requests for a position. */
  function Net(actions: seq<Simulation.Action>, key: nat): int {
    if actions == [] then 0
    else
      (if actions[0].position != key then 0
       else if actions[0].Deallocation? then 0 - actions[0].requested else actions[0].requested)
      + Net(actions[1..], key)
  }

  function Total(actions: seq<Simulation.Action>, deallocations: bool): int {
    if actions == [] then 0
    else (if actions[0].Deallocation? == deallocations then actions[0].requested else 0) + Total(actions[1..], deallocations)
  }

  function Abs(x: int): int { if x < 0 then -x else x }

  /** Requested assets of a market after the actions. */
  function AfterOf(goal: Goal, positions: Positions, actions: seq<Simulation.Action>, m: MarketId): int {
    (if m in goal.current then goal.current[m] else 0) + (if m in positions then Net(actions, positions[m].key) else 0)
  }

  /** Sum of the distances to target over the given markets. */
  function Distance(goal: Goal, positions: Positions, actions: seq<Simulation.Action>, markets: seq<MarketId>): int {
    if markets == [] then 0
    else Abs(AfterOf(goal, positions, actions, markets[0]) - goal.TargetOf(markets[0]))
         + Distance(goal, positions, actions, markets[1..])
  }

  /** Amount given to a market by a vector over endpoints. */
  function AmountOf(endpoints: seq<Endpoint>, amounts: seq<int>, m: MarketId): int
    requires |amounts| == |endpoints|
  {
    if endpoints == [] then 0
    else if endpoints[0].market == m then amounts[0]
    else AmountOf(endpoints[1..], amounts[1..], m)
  }

  function SumOf(endpoints: seq<Endpoint>, amounts: seq<int>, markets: seq<MarketId>): int
    requires |amounts| == |endpoints|
  {
    if markets == [] then 0 else AmountOf(endpoints, amounts, markets[0]) + SumOf(endpoints, amounts, markets[1..])
  }

  predicate DistinctMarkets(endpoints: seq<Endpoint>) {
    forall i, j | 0 <= i < j < |endpoints| :: endpoints[i].market != endpoints[j].market
  }

  /** Different markets have different position keys. */
  predicate DistinctKeys(positions: Positions) {
    forall m, m' | m in positions && m' in positions && m != m' :: positions[m].key != positions[m'].key
  }

  lemma {:induction false} AmountOfAbsent(endpoints: seq<Endpoint>, amounts: seq<int>, m: MarketId)
    requires |amounts| == |endpoints| && forall e | e in endpoints :: e.market != m
    ensures AmountOf(endpoints, amounts, m) == 0
  {
    if endpoints != [] {
      assert endpoints[0] in endpoints;
      AmountOfAbsent(endpoints[1..], amounts[1..], m);
    }
  }

  lemma {:induction false} SumOfAbsent(endpoints: seq<Endpoint>, amounts: seq<int>, markets: seq<MarketId>)
    requires |amounts| == |endpoints| > 0 && endpoints[0].market !in markets
    ensures SumOf(endpoints, amounts, markets) == SumOf(endpoints[1..], amounts[1..], markets)
    decreases |markets|
  {
    if markets != [] { SumOfAbsent(endpoints, amounts, markets[1..]); }
  }

  lemma {:induction false} SumOfFirst(endpoints: seq<Endpoint>, amounts: seq<int>, markets: seq<MarketId>)
    requires |amounts| == |endpoints| > 0 && DistinctMarkets(endpoints)
    requires AllDifferent(markets) && endpoints[0].market in markets
    ensures SumOf(endpoints, amounts, markets) == amounts[0] + SumOf(endpoints[1..], amounts[1..], markets)
    decreases |markets|
  {
    var m := endpoints[0].market;
    if markets[0] == m {
      SumOfAbsent(endpoints, amounts, markets[1..]);
      AmountOfAbsent(endpoints[1..], amounts[1..], m);
    } else {
      SumOfFirst(endpoints, amounts, markets[1..]);
    }
  }

  lemma {:induction false} SumOfNothing(markets: seq<MarketId>)
    ensures SumOf([], [], markets) == 0
  {
    if markets != [] { SumOfNothing(markets[1..]); }
  }

  /** Adding up by market gives the same total as adding up by endpoint. */
  lemma {:induction false} SumOfIsSum(endpoints: seq<Endpoint>, amounts: seq<int>, markets: seq<MarketId>)
    requires |amounts| == |endpoints| && DistinctMarkets(endpoints) && AllDifferent(markets)
    requires forall e | e in endpoints :: e.market in markets
    ensures SumOf(endpoints, amounts, markets) == Sum(amounts)
    decreases |endpoints|
  {
    if endpoints == [] {
      SumOfNothing(markets);
    } else {
      assert endpoints[0] in endpoints;
      SumOfFirst(endpoints, amounts, markets);
      SumOfIsSum(endpoints[1..], amounts[1..], markets);
    }
  }

  lemma {:induction false} NetOfActions(endpoints: seq<Endpoint>, amounts: seq<int>, positions: Positions, drain: bool, m: MarketId)
    requires |amounts| == |endpoints| && Known(endpoints, positions) && DistinctKeys(positions) && DistinctMarkets(endpoints)
    requires m in positions && forall i | 0 <= i < |amounts| :: 0 <= amounts[i] <= MAX_U256
    ensures Net(Actions(endpoints, amounts, positions, drain), positions[m].key)
            == if drain then -AmountOf(endpoints, amounts, m) else AmountOf(endpoints, amounts, m)
    decreases |endpoints|
  {
    if endpoints != [] {
      assert endpoints[0] in endpoints;
      NetOfActions(endpoints[1..], amounts[1..], positions, drain, m);
      if endpoints[0].market == m { AmountOfAbsent(endpoints[1..], amounts[1..], m); }
      var all, rest := Actions(endpoints, amounts, positions, drain), Actions(endpoints[1..], amounts[1..], positions, drain);
      if amounts[0] != 0 { assert all[1..] == rest; }
    }
  }

  lemma {:induction false} TotalOfActions(endpoints: seq<Endpoint>, amounts: seq<int>, positions: Positions, drain: bool, deallocations: bool)
    requires |amounts| == |endpoints| && Known(endpoints, positions)
    requires forall i | 0 <= i < |amounts| :: 0 <= amounts[i] <= MAX_U256
    ensures Total(Actions(endpoints, amounts, positions, drain), deallocations) == if drain == deallocations then Sum(amounts) else 0
    decreases |endpoints|
  {
    if endpoints != [] {
      TotalOfActions(endpoints[1..], amounts[1..], positions, drain, deallocations);
      var all, rest := Actions(endpoints, amounts, positions, drain), Actions(endpoints[1..], amounts[1..], positions, drain);
      if amounts[0] != 0 { assert all[1..] == rest; }
    }
  }

  lemma {:induction false} NetConcat(a: seq<Simulation.Action>, b: seq<Simulation.Action>, key: nat)
    ensures Net(a + b, key) == Net(a, key) + Net(b, key)
  {
    if a == [] { assert a + b == b; } else {
      assert (a + b)[1..] == a[1..] + b;
      NetConcat(a[1..], b, key);
    }
  }

  lemma {:induction false} TotalConcat(a: seq<Simulation.Action>, b: seq<Simulation.Action>, deallocations: bool)
    ensures Total(a + b, deallocations) == Total(a, deallocations) + Total(b, deallocations)
  {
    if a == [] { assert a + b == b; } else {
      assert (a + b)[1..] == a[1..] + b;
      TotalConcat(a[1..], b, deallocations);
    }
  }

  // ---------------------------------------------------------------- what a candidate does

  /** Amounts within every endpoint's room, moving `movement` in total. */
  predicate Spread(endpoints: seq<Endpoint>, amounts: seq<int>, movement: int) {
    && |amounts| == |endpoints| && Sum(amounts) == movement
    && forall i | 0 <= i < |amounts| :: 0 <= amounts[i] <= endpoints[i].available
  }

  lemma {:induction false} SourceFacts(goal: Goal, positions: Positions, markets: seq<MarketId>)
    requires AllDifferent(markets)
    ensures var es := Sources(goal, positions, markets);
            && DistinctMarkets(es)
            && forall e | e in es :: e.market in markets && e.market in goal.current && e.market in positions
                                     && e.available == SourceRoom(goal, positions, e.market) > 0
  {
    if markets != [] {
      SourceFacts(goal, positions, markets[1..]);
      var rest := Sources(goal, positions, markets[1..]);
      assert forall i | 0 <= i < |rest| :: rest[i] in rest;
    }
  }

  lemma {:induction false} DestinationFacts(goal: Goal, positions: Positions, markets: seq<MarketId>)
    requires AllDifferent(markets)
    ensures var es := Destinations(goal, positions, markets);
            && DistinctMarkets(es)
            && forall e | e in es :: e.market in markets && Fillable(goal, positions, e.market)
                                     && e.available == DestinationRoom(goal, positions, e.market) > 0
  {
    hide Fillable;
    if markets != [] {
      DestinationFacts(goal, positions, markets[1..]);
      var rest := Destinations(goal, positions, markets[1..]);
      assert forall i | 0 <= i < |rest| :: rest[i] in rest;
    }
  }

  lemma {:induction false} AmountWithinRoom(endpoints: seq<Endpoint>, amounts: seq<int>, m: MarketId)
    requires |amounts| == |endpoints| && forall i | 0 <= i < |amounts| :: 0 <= amounts[i] <= endpoints[i].available
    ensures AmountOf(endpoints, amounts, m) >= 0
    ensures AmountOf(endpoints, amounts, m) > 0 ==>
              exists e | e in endpoints :: e.market == m && AmountOf(endpoints, amounts, m) <= e.available
  {
    if endpoints != [] {
      assert endpoints[0] in endpoints;
      AmountWithinRoom(endpoints[1..], amounts[1..], m);
    }
  }

  /** The whole candidate for one pair of distributions. */
  function Candidate(sources: seq<Endpoint>, sa: seq<int>, destinations: seq<Endpoint>, da: seq<int>, positions: Positions): seq<Simulation.Action>
    requires |sa| == |sources| && |da| == |destinations| && Known(sources, positions) && Known(destinations, positions)
    requires forall i | 0 <= i < |sa| :: 0 <= sa[i] <= MAX_U256
    requires forall i | 0 <= i < |da| :: 0 <= da[i] <= MAX_U256
  {
    Actions(sources, sa, positions, true) + Actions(destinations, da, positions, false)
  }

  /** The change a candidate requests for one market, within the limits of that market. */
  ghost predicate MovesTowardsTarget(goal: Goal, positions: Positions, actions: seq<Simulation.Action>, m: MarketId) {
    var x := if m in positions then Net(actions, positions[m].key) else 0;
    && (x < 0 ==> m in goal.current && goal.current[m] + x >= goal.TargetOf(m)
                  && goal.current[m] + x >= positions[m].minimumPosition && -x <= positions[m].maximumAction)
    && (x > 0 ==> m in goal.selected && m in goal.current && goal.current[m] + x <= goal.TargetOf(m)
                  && m in goal.capacity && x <= goal.capacity[m] && x <= positions[m].maximumAction)
  }

  ghost predicate Setup(goal: Goal, positions: Positions, markets: seq<MarketId>, sources: seq<Endpoint>, destinations: seq<Endpoint>) {
    && AllDifferent(markets) && DistinctKeys(positions)
    && sources == Sources(goal, positions, markets) && destinations == Destinations(goal, positions, markets)
    && Known(sources, positions) && Known(destinations, positions)
  }

  /** A market only drains or only fills, never past its target. */
  lemma MarketMoves(goal: Goal, positions: Positions, markets: seq<MarketId>, sources: seq<Endpoint>, sa: seq<int>,
                    destinations: seq<Endpoint>, da: seq<int>, movement: int, m: MarketId)
    requires Setup(goal, positions, markets, sources, destinations)
    requires Spread(sources, sa, movement) && Spread(destinations, da, movement)
    ensures var actions := Candidate(sources, sa, destinations, da, positions);
            var out, into := AmountOf(sources, sa, m), AmountOf(destinations, da, m);
            && out >= 0 && into >= 0 && (out == 0 || into == 0)
            && (m in positions ==> Net(actions, positions[m].key) == into - out)
            && (out > 0 || into > 0 ==> m in positions)
            && MovesTowardsTarget(goal, positions, actions, m)
  {
    hide Actions, AmountOf, Sources, Destinations, Net;
    SourceFacts(goal, positions, markets);
    DestinationFacts(goal, positions, markets);
    AmountWithinRoom(sources, sa, m);
    AmountWithinRoom(destinations, da, m);
    if m in positions {
      NetOfActions(sources, sa, positions, true, m);
      NetOfActions(destinations, da, positions, false, m);
      NetConcat(Actions(sources, sa, positions, true), Actions(destinations, da, positions, false), positions[m].key);
    }
  }

  lemma {:induction false} DistanceFalls(goal: Goal, positions: Positions, markets: seq<MarketId>, sources: seq<Endpoint>, sa: seq<int>,
                                         destinations: seq<Endpoint>, da: seq<int>, movement: int, some: seq<MarketId>)
    requires Setup(goal, positions, markets, sources, destinations)
    requires Spread(sources, sa, movement) && Spread(destinations, da, movement)
    ensures Distance(goal, positions, Candidate(sources, sa, destinations, da, positions), some)
            == Distance(goal, positions, [], some) - SumOf(sources, sa, some) - SumOf(destinations, da, some)
    decreases |some|
  {
    hide AmountOf, Candidate, Setup, Spread;
    if some != [] {
      DistanceFalls(goal, positions, markets, sources, sa, destinations, da, movement, some[1..]);
      MarketMoves(goal, positions, markets, sources, sa, destinations, da, movement, some[0]);
      assert some[0] in positions ==> Net([], positions[some[0]].key) == 0;
    }
  }

  /** No position is both drained and filled. */
  predicate OneWay(actions: seq<Simulation.Action>) {
    forall x, y | x in actions && y in actions && x.Deallocation? && y.Allocation? :: x.position != y.position
  }

  lemma {:induction false} ActionEndpoint(endpoints: seq<Endpoint>, amounts: seq<int>, positions: Positions, drain: bool, action: Simulation.Action)
    requires |amounts| == |endpoints| && Known(endpoints, positions)
    requires forall i | 0 <= i < |amounts| :: 0 <= amounts[i] <= MAX_U256
    requires action in Actions(endpoints, amounts, positions, drain)
    ensures action.Deallocation? == drain
    ensures exists e | e in endpoints :: e.market in positions && action.position == positions[e.market].key
    decreases |endpoints|
  {
    if endpoints != [] {
      assert endpoints[0] in endpoints;
      var rest := Actions(endpoints[1..], amounts[1..], positions, drain);
      if action in rest { ActionEndpoint(endpoints[1..], amounts[1..], positions, drain, action); }
    }
  }

  /** Sources are above their target and destinations below, so no market is both. */
  lemma CandidateIsOneWay(goal: Goal, positions: Positions, markets: seq<MarketId>, sources: seq<Endpoint>, sa: seq<int>,
                          destinations: seq<Endpoint>, da: seq<int>, movement: int)
    requires Setup(goal, positions, markets, sources, destinations)
    requires Spread(sources, sa, movement) && Spread(destinations, da, movement)
    ensures OneWay(Candidate(sources, sa, destinations, da, positions))
  {
    hide Sources, Destinations, Actions;
    SourceFacts(goal, positions, markets);
    DestinationFacts(goal, positions, markets);
    var out, into := Actions(sources, sa, positions, true), Actions(destinations, da, positions, false);
    forall x: Simulation.Action, y: Simulation.Action | x in out + into && y in out + into && x.Deallocation? && y.Allocation?
      ensures x.position != y.position
    {
      if x in into { ActionEndpoint(destinations, da, positions, false, x); }
      if y in out { ActionEndpoint(sources, sa, positions, true, y); }
      ActionEndpoint(sources, sa, positions, true, x);
      ActionEndpoint(destinations, da, positions, false, y);
      var e :| e in sources && e.market in positions && x.position == positions[e.market].key;
      var f :| f in destinations && f.market in positions && y.position == positions[f.market].key;
    }
  }

  /** What every candidate does, stated on its actions alone. */
  ghost predicate IsMovement(goal: Goal, positions: Positions, markets: seq<MarketId>, actions: seq<Simulation.Action>, movement: int) {
    && (forall m :: MovesTowardsTarget(goal, positions, actions, m))
    && OneWay(actions)
    && Total(actions, true) == movement && Total(actions, false) == movement
    && Distance(goal, positions, actions, markets) == Distance(goal, positions, [], markets) - 2 * movement
  }

  /** Every candidate only drains or only fills each market, within its limits and never past its target,
      takes out what it puts in, and lowers the total distance to target by exactly twice that amount. */
  lemma CandidateMoves(goal: Goal, positions: Positions, markets: seq<MarketId>, sources: seq<Endpoint>, sa: seq<int>,
                       destinations: seq<Endpoint>, da: seq<int>, movement: int)
    requires Setup(goal, positions, markets, sources, destinations)
    requires Spread(sources, sa, movement) && Spread(destinations, da, movement)
    ensures IsMovement(goal, positions, markets, Candidate(sources, sa, destinations, da, positions), movement)
  {
    hide MovesTowardsTarget, Sources, Destinations, Actions, Distance, Total, SumOf;
    forall m ensures MovesTowardsTarget(goal, positions, Candidate(sources, sa, destinations, da, positions), m) {
      MarketMoves(goal, positions, markets, sources, sa, destinations, da, movement, m);
    }
    TotalOfActions(sources, sa, positions, true, true);
    TotalOfActions(sources, sa, positions, true, false);
    TotalOfActions(destinations, da, positions, false, true);
    TotalOfActions(destinations, da, positions, false, false);
    TotalConcat(Actions(sources, sa, positions, true), Actions(destinations, da, positions, false), true);
    TotalConcat(Actions(sources, sa, positions, true), Actions(destinations, da, positions, false), false);
    DistanceFalls(goal, positions, markets, sources, sa, destinations, da, movement, markets);
    SourceFacts(goal, positions, markets);
    DestinationFacts(goal, positions, markets);
    SumOfIsSum(sources, sa, markets);
    SumOfIsSum(destinations, da, markets);
    hide OneWay;
    CandidateIsOneWay(goal, positions, markets, sources, sa, destinations, da, movement);
  }

  // ---------------------------------------------------------------- the candidate search

  datatype Search = Search(candidates: seq<seq<Simulation.Action>>, complete: bool)

  /** All markets with current or target assets, in identifier order. */
  function MarketsOf(goal: Goal): seq<MarketId> { Elements(goal.current.Keys + goal.targets.Keys) }

  /** The movement a request leads to: bounded by what sources give and destinations take. */
  function Movement(goal: Goal, positions: Positions, requested: U256): Result<U256> {
    var given :- CheckedSum(Sources(goal, positions, MarketsOf(goal)), 0);
    var taken :- CheckedSum(Destinations(goal, positions, MarketsOf(goal)), 0);
    Ok(Min(Min(requested, given), taken))
  }

  const ENDPOINT_LATTICE_LIMIT: nat := 8

  function Lattices(rooms: seq<U256>, minimumAction: U256): (r: seq<seq<U256>>)
    ensures WithinMaxima(rooms, r)
  {
    if rooms == [] then []
    else
      LatticeWithin(minimumAction, rooms[0], [rooms[0]], ENDPOINT_LATTICE_LIMIT);
      [Lattice(minimumAction, rooms[0], [rooms[0]], ENDPOINT_LATTICE_LIMIT)] + Lattices(rooms[1..], minimumAction)
  }

  /** Whether a vector is a distribution of the movement over the endpoints. */
  ghost predicate Distributes(endpoints: seq<Endpoint>, minimumAction: U256, movement: int, v: seq<int>) {
    IsDistribution(Rooms(endpoints), Lattices(Rooms(endpoints), minimumAction), movement, minimumAction, v)
  }

  lemma DistributesSpreads(endpoints: seq<Endpoint>, minimumAction: U256, movement: int, v: seq<int>)
    requires Distributes(endpoints, minimumAction, movement, v)
    ensures Spread(endpoints, v, movement)
  {
    hide Lattices;
  }

  /** Every pair of source and destination distributions has its candidate in the list. */
  ghost predicate AllPairs(goal: Goal, positions: Positions, minimumAction: U256, movement: int, candidates: seq<seq<Simulation.Action>>) {
    var sources, destinations := Sources(goal, positions, MarketsOf(goal)), Destinations(goal, positions, MarketsOf(goal));
    forall sa, da | Distributes(sources, minimumAction, movement, sa) && Distributes(destinations, minimumAction, movement, da) ::
      && Spread(sources, sa, movement) && Spread(destinations, da, movement)
      && Known(sources, positions) && Known(destinations, positions)
      && Candidate(sources, sa, destinations, da, positions) in candidates
  }

  /** Enumerates movements of up to `requested` assets.  Every candidate moves towards the target; a search
      that reports itself complete has tried every pair of distributions. */
  method MovementCandidates(goal: Goal, positions: Positions, minimumAction: U256, requested: U256, maximumNodes: U64)
    returns (r: Result<Search>)
    requires DistinctKeys(positions) && AllDifferent(goal.selected)
    ensures r.Ok? <==> Movement(goal, positions, requested).Ok?
    ensures r.Ok? ==> forall actions | actions in r.value.candidates ::
                        IsMovement(goal, positions, MarketsOf(goal), actions, Movement(goal, positions, requested).value)
    ensures r.Ok? && r.value.complete && Movement(goal, positions, requested).value > 0 ==>
              AllPairs(goal, positions, minimumAction, Movement(goal, positions, requested).value, r.value.candidates)
  {
    hide Sources, Destinations, IsMovement, Distributes, Lattices, Spread, Known;
    var markets := MarketsOf(goal);
    var sources, destinations := Sources(goal, positions, markets), Destinations(goal, positions, markets);
    EndpointsReady(goal, positions, markets, sources, destinations);
    var wanted := Movement(goal, positions, requested);
    if wanted.Err? { return Err(wanted.error); }
    var movement := wanted.value;
    if movement == 0 { return Ok(Search([], true)); }
    var limit := Max(maximumNodes, 1);
    var sds := EndpointDistributions(sources, minimumAction, movement, limit);
    if sds.None? { return Ok(Search([], false)); }
    var dds := EndpointDistributions(destinations, minimumAction, movement, limit);
    if dds.None? { return Ok(Search([], false)); }
    var candidates: seq<seq<Simulation.Action>> := [];
    for i := 0 to |sds.value|
      invariant forall actions | actions in candidates :: IsMovement(goal, positions, markets, actions, movement)
      invariant forall k, l | 0 <= k < i && 0 <= l < |dds.value| ::
                  HasPair(sources, sds.value[k], destinations, dds.value[l], positions, movement, candidates)
    {
      var sa := sds.value[i];
      assert sa in sds.value;
      for j := 0 to |dds.value|
        invariant forall actions | actions in candidates :: IsMovement(goal, positions, markets, actions, movement)
        invariant forall k, l | 0 <= k < i && 0 <= l < |dds.value| ::
                    HasPair(sources, sds.value[k], destinations, dds.value[l], positions, movement, candidates)
        invariant forall l | 0 <= l < j :: HasPair(sources, sa, destinations, dds.value[l], positions, movement, candidates)
      {
        var da := dds.value[j];
        assert da in dds.value;
        if |candidates| >= limit { return Ok(Search(candidates, false)); }
        DistributesSpreads(sources, minimumAction, movement, sa);
        DistributesSpreads(destinations, minimumAction, movement, da);
        CandidateMoves(goal, positions, markets, sources, sa, destinations, da, movement);
        SpreadFits(sources, sa, movement);
        SpreadFits(destinations, da, movement);
        candidates := candidates + [Candidate(sources, sa, destinations, da, positions)];
      }
    }
    PairsComplete(goal, positions, minimumAction, movement, sds.value, dds.value, candidates);
    return Ok(Search(candidates, true));
  }

  ghost predicate HasPair(sources: seq<Endpoint>, sa: seq<int>, destinations: seq<Endpoint>, da: seq<int>,
                          positions: Positions, movement: int, candidates: seq<seq<Simulation.Action>>) {
    && Spread(sources, sa, movement) && Spread(destinations, da, movement)
    && Known(sources, positions) && Known(destinations, positions)
    && Candidate(sources, sa, destinations, da, positions) in candidates
  }

  lemma SpreadFits(endpoints: seq<Endpoint>, amounts: seq<int>, movement: int)
    requires Spread(endpoints, amounts, movement)
    ensures |amounts| == |endpoints| && forall i | 0 <= i < |amounts| :: 0 <= amounts[i] <= MAX_U256
  {
  }

  lemma EndpointsReady(goal: Goal, positions: Positions, markets: seq<MarketId>, sources: seq<Endpoint>, destinations: seq<Endpoint>)
    requires Ascending(markets) && DistinctKeys(positions)
    requires sources == Sources(goal, positions, markets) && destinations == Destinations(goal, positions, markets)
    ensures Known(sources, positions) && Known(destinations, positions)
    ensures Setup(goal, positions, markets, sources, destinations)
  {
    SourceFacts(goal, positions, markets);
    DestinationFacts(goal, positions, markets);
  }

  method EndpointDistributions(endpoints: seq<Endpoint>, minimumAction: U256, movement: U256, limit: nat) returns (r: Option<seq<seq<int>>>)
    ensures r.Some? ==> forall v :: v in r.value <==> Distributes(endpoints, minimumAction, movement, v)
  {
    var lattices := Lattices(Rooms(endpoints), minimumAction);
    r := BoundedDistributions(Rooms(endpoints), lattices, movement, minimumAction, limit);
  }

  lemma PairsComplete(goal: Goal, positions: Positions, minimumAction: U256, movement: int,
                      sds: seq<seq<int>>, dds: seq<seq<int>>, candidates: seq<seq<Simulation.Action>>)
    requires var sources, destinations := Sources(goal, positions, MarketsOf(goal)), Destinations(goal, positions, MarketsOf(goal));
             && (forall v :: v in sds <==> Distributes(sources, minimumAction, movement, v))
             && (forall v :: v in dds <==> Distributes(destinations, minimumAction, movement, v))
             && forall k, l | 0 <= k < |sds| && 0 <= l < |dds| ::
                  HasPair(sources, sds[k], destinations, dds[l], positions, movement, candidates)
    ensures AllPairs(goal, positions, minimumAction, movement, candidates)
  {
    hide Sources, Destinations, Distributes, Spread, Known, Candidate;
    var sources, destinations := Sources(goal, positions, MarketsOf(goal)), Destinations(goal, positions, MarketsOf(goal));
    forall sa, da | Distributes(sources, minimumAction, movement, sa) && Distributes(destinations, minimumAction, movement, da)
      ensures HasPair(sources, sa, destinations, da, positions, movement, candidates)
    {
      assert sa in sds && da in dds;
      var k :| 0 <= k < |sds| && sds[k] == sa;
      var l :| 0 <= l < |dds| && dds[l] == da;
      assert HasPair(sources, sds[k], destinations, dds[l], positions, movement, candidates);
    }
  }
}
