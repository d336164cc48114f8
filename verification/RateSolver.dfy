/**
 The two-pass rate search.

 The first pass finds the best full movement; the second searches again under the tranche and the unlocked
 budget.  Service constraints and the terminal shareholder value of a simulated state are given functions;
 cap boundaries and reallocation capacities of the destinations are given maps.
 */
module RateSolver {
  import opened Checked
  import opened Ordering
  import opened Market
  import opened Objective
  import BlueMath
  import C = Candidates
  import E = Episodes
  import G = PlanGuarantees
  import M = Movement
  import R = SimulationRuns
  import S = Simulation

  datatype Limits = Limits(nodes: U64, amounts: nat, sourceSets: nat, destinationSets: nat)

  datatype Problem = Problem(
    env: S.Env,
    inputs: S.Inputs,
    positions: M.Positions,
    ceilings: map<MarketId, U256>,
    boundaries: map<MarketId, seq<U256>>,
    capacities: map<MarketId, U256>,
    minimumAction: U256,
    strictIdle: bool,
    maximumDust: U256,
    maximumLoss: U256,
    maximumSacrifice: U256,
    kind: Kind,
    tolerance: U256,
    portfolioImprovement: U256,
    controllableImprovement: U256,
    convergence: U256,
    trancheBps: U64,
    noPlanTerminal: Option<U256>,
    service: S.State -> bool,
    terminal: S.State -> Option<U256>,
    limits: Limits)

  // ---------------------------------------------------------------- the frozen search space

  function SourceSide(p: Problem, markets: seq<MarketId>): (r: Option<seq<M.Endpoint>>)
    ensures r.Some? ==> M.Known(r.value, p.positions)
  {
    if markets == [] then Some([])
    else
      var m, rest := markets[0], SourceSide(p, markets[1..]);
      if rest.None? || m !in p.positions || p.positions[m].key !in p.inputs.expectedAssets then None
      else
        var current := p.inputs.expectedAssets[p.positions[m].key];
        var room := Min(SaturatingSub(current, p.positions[m].minimumPosition), p.positions[m].maximumAction);
        Some((if room != 0 then [M.Endpoint(m, room)] else []) + rest.value)
  }

  function DestinationSide(p: Problem, markets: seq<MarketId>): (r: Option<seq<M.Endpoint>>)
    ensures r.Some? ==> M.Known(r.value, p.positions) && forall e | e in r.value :: e.market in p.boundaries
  {
    if markets == [] then Some([])
    else
      var m, rest := markets[0], DestinationSide(p, markets[1..]);
      if || rest.None? || m !in p.positions || p.positions[m].key !in p.inputs.expectedAssets
         || m !in p.ceilings || m !in p.boundaries
      then None
      else
        var current := p.inputs.expectedAssets[p.positions[m].key];
        var room := Min(SaturatingSub(p.ceilings[m], current), p.positions[m].maximumAction);
        Some((if room != 0 then [M.Endpoint(m, room)] else []) + rest.value)
  }

  /** Movement boundaries that the destinations contribute. */
  function DestinationBoundaries(p: Problem, destinations: seq<M.Endpoint>): Option<seq<U256>>
    requires forall e | e in destinations :: e.market in p.boundaries
  {
    if destinations == [] then Some([])
    else
      assert destinations[0] in destinations;
      var e, rest := destinations[0], DestinationBoundaries(p, destinations[1..]);
      if rest.None? || e.market !in p.capacities then None
      else Some([e.available] + p.boundaries[e.market] + [Min(e.available, p.capacities[e.market])] + rest.value)
  }

  function SourcePriorities(sources: seq<M.Endpoint>, budget: U256, total: U256): (r: seq<seq<U256>>)
    ensures |r| == |sources|
  {
    if sources == [] then [] else [[budget, total]] + SourcePriorities(sources[1..], budget, total)
  }

  function DestinationPriorities(p: Problem, destinations: seq<M.Endpoint>, budget: U256, total: U256): (r: seq<seq<U256>>)
    requires forall e | e in destinations :: e.market in p.boundaries
    ensures |r| == |destinations|
  {
    if destinations == [] then []
    else
      assert destinations[0] in destinations;
      [[budget, total, destinations[0].available] + p.boundaries[destinations[0].market]]
      + DestinationPriorities(p, destinations[1..], budget, total)
  }

  function Lattices(p: Problem, endpoints: seq<M.Endpoint>, priorities: seq<seq<U256>>): (r: seq<seq<U256>>)
    requires |priorities| == |endpoints|
    ensures C.WithinMaxima(M.Rooms(endpoints), r)
  {
    if endpoints == [] then []
    else
      C.LatticeWithin(p.minimumAction, endpoints[0].available, priorities[0], p.limits.amounts);
      [C.Lattice(p.minimumAction, endpoints[0].available, priorities[0], p.limits.amounts)]
      + Lattices(p, endpoints[1..], priorities[1..])
  }

  datatype Frame = Frame(
    before: U256,
    baseline: U256,
    sources: seq<M.Endpoint>,
    destinations: seq<M.Endpoint>,
    amounts: seq<U256>,
    sourceLattices: seq<seq<U256>>,
    destinationLattices: seq<seq<U256>>)

  predicate Ready(p: Problem, f: Frame, budget: U256) {
    && M.Known(f.sources, p.positions) && M.Known(f.destinations, p.positions)
    && C.WithinMaxima(M.Rooms(f.sources), f.sourceLattices)
    && C.WithinMaxima(M.Rooms(f.destinations), f.destinationLattices)
    && forall a | a in f.amounts :: a <= budget
  }

  /** Everything the search fixes before its loops; `None` makes the search incomplete. */
  function Prepare(p: Problem, e: E.Episode, budget: U256): (r: Option<Frame>)
    ensures r.Some? ==> Ready(p, r.value, budget)
  {
    var portfolio := CompleteSpread(e.evaluation, p.inputs.projectedMarkets, p.kind);
    var controllable := CompleteSpread(e.controllable, p.inputs.projectedMarkets, p.kind);
    var sources := SourceSide(p, Elements(e.sources));
    var destinations := DestinationSide(p, Elements(e.destinations));
    if portfolio.None? || controllable.None? || p.noPlanTerminal.None? || sources.None? || destinations.None? then None
    else
      var given, taken := M.CheckedSum(sources.value, 0), M.CheckedSum(destinations.value, 0);
      var extra := DestinationBoundaries(p, destinations.value);
      if given.Err? || taken.Err? || extra.None? then None
      else
        var maximum := Min(Min(given.value, taken.value), budget);
        var boundaries := [budget, given.value, taken.value] + extra.value;
        C.LatticeWithin(p.minimumAction, maximum, boundaries, p.limits.amounts);
        Some(Frame(if e.branch.Portfolio? then portfolio.value else controllable.value,
                   p.noPlanTerminal.value, sources.value, destinations.value,
                   C.Lattice(p.minimumAction, maximum, boundaries, p.limits.amounts),
                   Lattices(p, sources.value, SourcePriorities(sources.value, budget, given.value)),
                   Lattices(p, destinations.value, DestinationPriorities(p, destinations.value, budget, taken.value))))
  }

  // ---------------------------------------------------------------- one candidate

  datatype Reason = Simulation | ImmediateLoss | SpreadWorsening | EpisodeRule | Service

  datatype Solved = Solved(actions: seq<S.Action>, state: S.State, objective: Metrics, before: U256)
  datatype Judged = Accepted(candidate: Solved) | Rejected(reason: Reason)

  function MetricsOf(p: Problem, e: E.Episode, state: S.State, movement: U256, delta: I256): Option<Metrics> {
    var portfolio := CompleteSpread(e.evaluation, state.markets, p.kind);
    var controllable := CompleteSpread(e.controllable, state.markets, p.kind);
    if portfolio.None? || controllable.None? || state.locked > state.idle then None
    else if e.branch.Portfolio? then
      Some(Metrics(state.idle - state.locked, 0, portfolio.value, controllable.value, delta, movement, |state.actions|))
    else
      Some(Metrics(state.idle - state.locked, 0, controllable.value, portfolio.value, delta, movement, |state.actions|))
  }

  function Delta(plan: U256, baseline: U256): Option<I256> {
    if plan <= MAX_I256 && baseline <= MAX_I256 then Some(plan - baseline) else None
  }

  function JudgeSpread(p: Problem, e: E.Episode, f: Frame, actions: seq<S.Action>, state: S.State, m: Metrics): Judged {
    if m.spread > Min(f.before + p.tolerance, MAX_U256) then Rejected(SpreadWorsening)
    else if SaturatingSub(f.before, m.spread) < (if e.branch.Portfolio? then p.portfolioImprovement else p.controllableImprovement)
    then Rejected(SpreadWorsening)
    else Accepted(Solved(actions, state, m, f.before))
  }

  /** The hard filters, in order. */
  function Judge(p: Problem, e: E.Episode, f: Frame, actions: seq<S.Action>, movement: U256): Judged {
    var simulated := S.SimulateActions(p.env, p.inputs, actions);
    if simulated.Err? then Rejected(Simulation)
    else
      var state := simulated.value;
      if !p.service(state) then Rejected(Service)
      else if p.strictIdle && (state.locked > state.idle || state.idle - state.locked > p.maximumDust) then Rejected(Service)
      else if state.loss > p.maximumLoss then Rejected(ImmediateLoss)
      else
        var plan := p.terminal(state);
        if plan.None? then Rejected(Simulation)
        else if plan.value + p.maximumSacrifice > MAX_U256 || plan.value + p.maximumSacrifice < f.baseline then Rejected(ImmediateLoss)
        else
          var delta := Delta(plan.value, f.baseline);
          if delta.None? then Rejected(Simulation)
          else
            var m := MetricsOf(p, e, state, movement, delta.value);
            if m.None? then Rejected(Simulation) else JudgeSpread(p, e, f, actions, state, m.value)
  }

  /** Every hard constraint on a simulated state. */
  predicate Satisfies(p: Problem, e: E.Episode, f: Frame, state: S.State, m: Metrics) {
    && p.service(state) && state.loss <= p.maximumLoss
    && state.locked <= state.idle && m.unreservedIdle == state.idle - state.locked
    && (p.strictIdle ==> m.unreservedIdle <= p.maximumDust)
    && p.terminal(state).Some? && f.baseline <= p.terminal(state).value + p.maximumSacrifice
    && m.terminalDelta == p.terminal(state).value - f.baseline
    && CompleteSpread(if e.branch.Portfolio? then e.evaluation else e.controllable, state.markets, p.kind) == Some(m.spread)
    && CompleteSpread(if e.branch.Portfolio? then e.controllable else e.evaluation, state.markets, p.kind) == Some(m.secondary)
    && m.spread <= f.before + p.tolerance
    && SaturatingSub(f.before, m.spread) >= (if e.branch.Portfolio? then p.portfolioImprovement else p.controllableImprovement)
  }

  /** An accepted candidate carries its movement, is a successful simulation of its actions and meets every hard
      constraint. */
  lemma AcceptedFacts(p: Problem, e: E.Episode, f: Frame, actions: seq<S.Action>, movement: U256)
    requires Judge(p, e, f, actions, movement).Accepted?
    ensures var c := Judge(p, e, f, actions, movement).candidate;
            && c.actions == actions && c.objective.movement == movement && c.before == f.before
            && S.SimulateActions(p.env, p.inputs, actions) == Ok(c.state)
            && Satisfies(p, e, f, c.state, c.objective)
  {
    hide S.SimulateActions, CompleteSpread;
  }

  // ---------------------------------------------------------------- what a search examines

  /** One pair of distributions of one lattice movement. */
  ghost predicate Trial(p: Problem, f: Frame, amount: U256, sa: seq<int>, da: seq<int>) {
    && amount in f.amounts && amount >= p.minimumAction
    && C.IsDistribution(M.Rooms(f.sources), f.sourceLattices, amount, p.minimumAction, sa)
    && C.IsDistribution(M.Rooms(f.destinations), f.destinationLattices, amount, p.minimumAction, da)
  }

  lemma TrialSpreads(p: Problem, f: Frame, amount: U256, sa: seq<int>, da: seq<int>)
    requires Trial(p, f, amount, sa, da)
    ensures M.Spread(f.sources, sa, amount) && M.Spread(f.destinations, da, amount)
  {
  }

  /** The verdict on one trial. */
  ghost function Verdict(p: Problem, e: E.Episode, f: Frame, amount: U256, sa: seq<int>, da: seq<int>): Judged
    requires M.Known(f.sources, p.positions) && M.Known(f.destinations, p.positions)
    requires Trial(p, f, amount, sa, da)
  {
    TrialSpreads(p, f, amount, sa, da);
    Judge(p, e, f, M.Candidate(f.sources, sa, f.destinations, da, p.positions), amount)
  }

  /** A candidate that some trial of the frozen space accepts. */
  ghost predicate Admissible(p: Problem, e: E.Episode, f: Frame, c: Solved)
    requires M.Known(f.sources, p.positions) && M.Known(f.destinations, p.positions)
  {
    exists amount: U256, sa, da :: Trial(p, f, amount, sa, da) && Verdict(p, e, f, amount, sa, da) == Accepted(c)
  }

  // ---------------------------------------------------------------- certificates

  datatype Certificate = Certificate(nodes: U64, limit: U64, complete: bool, rejections: map<Reason, U64>)
  {
    predicate Executable() { complete && nodes <= limit }

    function Count(r: Reason): U64 { if r in rejections then rejections[r] else 0 }

    function Rejections(): nat {
      Count(Simulation) + Count(ImmediateLoss) + Count(SpreadWorsening) + Count(EpisodeRule) + Count(Service)
    }

    /** Counts one rejection; a full counter makes the certificate incomplete. */
    function Reject(r: Reason): (c: Certificate)
      ensures c.nodes == nodes && c.limit == limit
      ensures c.complete <==> complete && Count(r) < MAX_U64
    {
      if Count(r) < MAX_U64 then this.(rejections := rejections[r := Count(r) + 1])
      else this.(rejections := rejections[r := MAX_U64], complete := false)
    }
  }

  lemma CountWithin(c: Certificate, r: Reason)
    ensures c.Count(r) <= c.Rejections()
  {
    match r
    case Simulation => 
    case ImmediateLoss => 
    case SpreadWorsening => 
    case EpisodeRule => 
    case Service => 
  }

  lemma RejectCounts(c: Certificate, r: Reason)
    requires c.Count(r) < MAX_U64
    ensures c.Reject(r).Rejections() == c.Rejections() + 1
  {
    match r
    case Simulation => 
    case ImmediateLoss => 
    case SpreadWorsening => 
    case EpisodeRule => 
    case Service => 
  }

  datatype Outcome = Outcome(best: Option<Solved>, certificate: Certificate, reachable: bool)

  function Incomplete(p: Problem): Outcome { Outcome(None, Certificate(0, p.limits.nodes, false, map[]), false) }

  function EpisodeRejection(p: Problem): Outcome {
    Outcome(None, Certificate(0, p.limits.nodes, true, map[]).Reject(EpisodeRule), false)
  }

  /** What a search promises.  Whatever it returns came from the frozen space; when it is complete, nothing in
      that space outranks the result, and the target is reported reachable exactly when it is. */
  ghost predicate IsSearch(p: Problem, e: E.Episode, budget: U256, r: Outcome) {
    var prepared := Prepare(p, e, budget);
    && r.certificate.Rejections() <= r.certificate.nodes <= r.certificate.limit == p.limits.nodes
    && (prepared.None? ==> r == Incomplete(p))
    && (prepared.Some? ==>
          var f := prepared.value;
          && (r.best.Some? ==> Admissible(p, e, f, r.best.value))
          && (r.reachable ==> r.best.Some? && r.best.value.objective.spread <= p.convergence)
          && (r.certificate.complete ==> Optimal(p, e, f, r)))
  }

  ghost predicate Optimal(p: Problem, e: E.Episode, f: Frame, r: Outcome)
    requires M.Known(f.sources, p.positions) && M.Known(f.destinations, p.positions)
  {
    forall c | Admissible(p, e, f, c) ::
      && r.best.Some?
      && !RanksBefore(RateRebalance, c.objective, r.best.value.objective, p.convergence, r.reachable)
      && (c.objective.spread <= p.convergence ==> r.reachable)
  }

  // ---------------------------------------------------------------- the search loops

  /** Every evaluated node is either a kept candidate or a counted rejection. */
  predicate Tallied(c: Certificate, kept: nat) {
    c.nodes <= c.limit && c.nodes == kept + c.Rejections()
  }

  ghost predicate AllAdmissible(p: Problem, e: E.Episode, f: Frame, candidates: seq<Solved>)
    requires M.Known(f.sources, p.positions) && M.Known(f.destinations, p.positions)
  {
    forall c | c in candidates :: Admissible(p, e, f, c)
  }

  /** The accepted candidate of a trial, if any, is in the list. */
  ghost predicate Covered(p: Problem, e: E.Episode, f: Frame, amount: U256, sa: seq<int>, da: seq<int>, candidates: seq<Solved>)
    requires M.Known(f.sources, p.positions) && M.Known(f.destinations, p.positions)
  {
    Trial(p, f, amount, sa, da) && Verdict(p, e, f, amount, sa, da).Accepted? ==>
      Verdict(p, e, f, amount, sa, da).candidate in candidates
  }

  ghost predicate AmountCovered(p: Problem, e: E.Episode, f: Frame, amount: U256, candidates: seq<Solved>)
    requires M.Known(f.sources, p.positions) && M.Known(f.destinations, p.positions)
  {
    forall sa, da | Trial(p, f, amount, sa, da) :: Covered(p, e, f, amount, sa, da, candidates)
  }

  /** Evaluates one node. */
  method Evaluate(p: Problem, e: E.Episode, f: Frame, budget: U256, amount: U256, sa: seq<int>, da: seq<int>,
                  certificate: Certificate, candidates: seq<Solved>)
    returns (next: Certificate, kept: seq<Solved>)
    requires Ready(p, f, budget) && Trial(p, f, amount, sa, da)
    requires Tallied(certificate, |candidates|) && certificate.nodes < certificate.limit
    requires AllAdmissible(p, e, f, candidates)
    ensures Tallied(next, |kept|) && next.nodes == certificate.nodes + 1
    ensures next.limit == certificate.limit && next.complete == certificate.complete
    ensures candidates <= kept && AllAdmissible(p, e, f, kept) && Covered(p, e, f, amount, sa, da, kept)
  {
    hide Judge, M.Candidate, C.IsDistribution, C.WithinMaxima;
    TrialSpreads(p, f, amount, sa, da);
    var actions := M.Candidate(f.sources, sa, f.destinations, da, p.positions);
    var judged := Judge(p, e, f, actions, amount);
    assert judged == Verdict(p, e, f, amount, sa, da);
    next := certificate.(nodes := certificate.nodes + 1);
    match judged {
      case Rejected(reason) =>
        CountWithin(next, reason);
        RejectCounts(next, reason);
        next := next.Reject(reason);
        kept := candidates;
      case Accepted(c) =>
        kept := candidates + [c];
        assert Admissible(p, e, f, c);
    }
  }

  ghost predicate RowCovered(p: Problem, e: E.Episode, f: Frame, amount: U256, sa: seq<int>, das: seq<seq<int>>, candidates: seq<Solved>)
    requires M.Known(f.sources, p.positions) && M.Known(f.destinations, p.positions)
  {
    forall l | 0 <= l < |das| :: Covered(p, e, f, amount, sa, das[l], candidates)
  }

  lemma RowGrows(p: Problem, e: E.Episode, f: Frame, amount: U256, sa: seq<int>, das: seq<seq<int>>, candidates: seq<Solved>, kept: seq<Solved>)
    requires M.Known(f.sources, p.positions) && M.Known(f.destinations, p.positions)
    requires RowCovered(p, e, f, amount, sa, das, candidates) && candidates <= kept
    ensures RowCovered(p, e, f, amount, sa, das, kept)
  {
    hide Verdict, Trial;
    forall l | 0 <= l < |das|
      ensures Covered(p, e, f, amount, sa, das[l], kept)
    {
      assert Covered(p, e, f, amount, sa, das[l], candidates);
    }
  }

  /** One source distribution against every destination distribution. */
  method ExamineRow(p: Problem, e: E.Episode, f: Frame, budget: U256, amount: U256, sa: seq<int>, das: seq<seq<int>>,
                    certificate: Certificate, candidates: seq<Solved>)
    returns (next: Certificate, kept: seq<Solved>, stop: bool)
    requires Ready(p, f, budget) && forall l | 0 <= l < |das| :: Trial(p, f, amount, sa, das[l])
    requires Tallied(certificate, |candidates|) && certificate.complete && AllAdmissible(p, e, f, candidates)
    ensures Tallied(next, |kept|) && next.limit == certificate.limit && next.complete == !stop
    ensures candidates <= kept && AllAdmissible(p, e, f, kept)
    ensures !stop ==> RowCovered(p, e, f, amount, sa, das, kept)
  {
    hide C.WithinMaxima, Verdict, Admissible, Trial;
    next, kept, stop := certificate, candidates, false;
    for j := 0 to |das|
      invariant Tallied(next, |kept|) && next.limit == certificate.limit && next.complete
      invariant candidates <= kept && AllAdmissible(p, e, f, kept)
      invariant forall l | 0 <= l < j :: Covered(p, e, f, amount, sa, das[l], kept)
    {
      if next.nodes >= next.limit { return next.(complete := false), kept, true; }
      var cert, more := Evaluate(p, e, f, budget, amount, sa, das[j], next, kept);
      next, kept := cert, more;
    }
  }

  /** All pairs of distributions of one movement; `stop` when a limit truncated them. */
  method ExamineAmount(p: Problem, e: E.Episode, f: Frame, budget: U256, amount: U256,
                       certificate: Certificate, candidates: seq<Solved>)
    returns (next: Certificate, kept: seq<Solved>, stop: bool)
    requires Ready(p, f, budget) && amount in f.amounts && amount >= p.minimumAction
    requires Tallied(certificate, |candidates|) && certificate.complete && AllAdmissible(p, e, f, candidates)
    ensures Tallied(next, |kept|) && next.limit == certificate.limit && next.complete == !stop
    ensures candidates <= kept && AllAdmissible(p, e, f, kept)
    ensures !stop ==> AmountCovered(p, e, f, amount, kept)
  {
    hide C.IsDistribution, C.WithinMaxima, Verdict, Admissible;
    next, kept, stop := certificate, candidates, false;
    var room := SaturatingSub(certificate.limit, certificate.nodes);
    var sds := C.BoundedDistributions(M.Rooms(f.sources), f.sourceLattices, amount, p.minimumAction, Min(room, p.limits.sourceSets));
    if sds.None? { return certificate.(complete := false), candidates, true; }
    var dds := C.BoundedDistributions(M.Rooms(f.destinations), f.destinationLattices, amount, p.minimumAction, Min(room, p.limits.destinationSets));
    if dds.None? { return certificate.(complete := false), candidates, true; }
    for i := 0 to |sds.value|
      invariant Tallied(next, |kept|) && next.limit == certificate.limit && next.complete
      invariant candidates <= kept && AllAdmissible(p, e, f, kept)
      invariant forall k | 0 <= k < i :: RowCovered(p, e, f, amount, sds.value[k], dds.value, kept)
    {
      assert sds.value[i] in sds.value;
      var cert, more, stopped := ExamineRow(p, e, f, budget, amount, sds.value[i], dds.value, next, kept);
      forall k | 0 <= k < i
        ensures RowCovered(p, e, f, amount, sds.value[k], dds.value, more)
      {
        RowGrows(p, e, f, amount, sds.value[k], dds.value, kept, more);
      }
      next, kept := cert, more;
      if stopped { return next, kept, true; }
    }
    forall sa, da | Trial(p, f, amount, sa, da)
      ensures Covered(p, e, f, amount, sa, da, kept)
    {
      assert sa in sds.value && da in dds.value;
      var k :| 0 <= k < |sds.value| && sds.value[k] == sa;
      var l :| 0 <= l < |dds.value| && dds.value[l] == da;
      assert RowCovered(p, e, f, amount, sds.value[k], dds.value, kept);
      assert Covered(p, e, f, amount, sds.value[k], dds.value[l], kept);
    }
  }

  /** The first candidate that no other outranks. */
  method ChooseBest(candidates: seq<Solved>, target: U256, reachable: bool) returns (best: Option<Solved>)
    ensures best.Some? <==> candidates != []
    ensures best.Some? ==> best.value in candidates
    ensures best.Some? ==> forall c | c in candidates ::
                             !RanksBefore(RateRebalance, c.objective, best.value.objective, target, reachable)
  {
    hide RanksBefore;
    best := None;
    for i := 0 to |candidates|
      invariant best.Some? <==> i > 0
      invariant best.Some? ==> best.value in candidates
      invariant best.Some? ==> forall k | 0 <= k < i ::
                                 !RanksBefore(RateRebalance, candidates[k].objective, best.value.objective, target, reachable)
    {
      var c := candidates[i];
      if best.None? || RanksBefore(RateRebalance, c.objective, best.value.objective, target, reachable) {
        forall k | 0 <= k <= i
          ensures !RanksBefore(RateRebalance, candidates[k].objective, c.objective, target, reachable)
        {
          RanksStrictly(RateRebalance, candidates[k].objective, c.objective,
                        if best.Some? then best.value.objective else c.objective, target, reachable);
        }
        best := Some(c);
      }
    }
  }

  /** `search_rate_rebalance`. */
  method SearchRateRebalance(p: Problem, e: E.Episode, budget: U256) returns (r: Outcome)
    ensures IsSearch(p, e, budget, r)
  {
    hide Prepare, Ready, Admissible, AmountCovered, RanksBefore;
    var prepared := Prepare(p, e, budget);
    if prepared.None? { return Incomplete(p); }
    var f := prepared.value;
    ReadyKnows(p, f, budget);
    var certificate := Certificate(0, p.limits.nodes, true, map[]);
    var candidates: seq<Solved> := [];
    var i := 0;
    while i < |f.amounts| && certificate.complete
      invariant i <= |f.amounts| && Tallied(certificate, |candidates|) && certificate.limit == p.limits.nodes
      invariant AllAdmissible(p, e, f, candidates)
      invariant certificate.complete ==> forall k | 0 <= k < i && f.amounts[k] >= p.minimumAction ::
                                           AmountCovered(p, e, f, f.amounts[k], candidates)
    {
      var amount := f.amounts[i];
      if amount >= p.minimumAction {
        var next, kept, stop := ExamineAmount(p, e, f, budget, amount, certificate, candidates);
        forall k | 0 <= k < i && f.amounts[k] >= p.minimumAction
          ensures AmountCovered(p, e, f, f.amounts[k], kept)
        {
          CoverageGrows(p, e, f, f.amounts[k], candidates, kept);
        }
        certificate, candidates := next, kept;
      }
      i := i + 1;
    }
    var reachable := exists c | c in candidates :: c.objective.spread <= p.convergence;
    var best := ChooseBest(candidates, p.convergence, reachable);
    r := Outcome(best, certificate, reachable);
    if reachable { BestReaches(p, candidates, best.value); }
    if certificate.complete { CoverageIsOptimal(p, e, f, candidates, r); }
  }

  lemma ReadyKnows(p: Problem, f: Frame, budget: U256)
    requires Ready(p, f, budget)
    ensures M.Known(f.sources, p.positions) && M.Known(f.destinations, p.positions)
  {
  }

  lemma CoverageGrows(p: Problem, e: E.Episode, f: Frame, amount: U256, candidates: seq<Solved>, kept: seq<Solved>)
    requires M.Known(f.sources, p.positions) && M.Known(f.destinations, p.positions)
    requires AmountCovered(p, e, f, amount, candidates) && candidates <= kept
    ensures AmountCovered(p, e, f, amount, kept)
  {
    hide Verdict, Trial;
    forall sa, da | Trial(p, f, amount, sa, da)
      ensures Covered(p, e, f, amount, sa, da, kept)
    {
      assert Covered(p, e, f, amount, sa, da, candidates);
    }
  }

  lemma BestReaches(p: Problem, candidates: seq<Solved>, best: Solved)
    requires exists c | c in candidates :: c.objective.spread <= p.convergence
    requires forall c | c in candidates :: !RanksBefore(RateRebalance, c.objective, best.objective, p.convergence, true)
    ensures best.objective.spread <= p.convergence
  {
    var c :| c in candidates && c.objective.spread <= p.convergence;
    BestReachesCheaply(best.objective, c.objective, p.convergence);
  }

  lemma CoverageIsOptimal(p: Problem, e: E.Episode, f: Frame, candidates: seq<Solved>, r: Outcome)
    requires M.Known(f.sources, p.positions) && M.Known(f.destinations, p.positions)
    requires forall k | 0 <= k < |f.amounts| && f.amounts[k] >= p.minimumAction :: AmountCovered(p, e, f, f.amounts[k], candidates)
    requires r.reachable == exists c | c in candidates :: c.objective.spread <= p.convergence
    requires candidates != [] ==> r.best.Some?
    requires r.best.Some? ==> forall c | c in candidates ::
                                !RanksBefore(RateRebalance, c.objective, r.best.value.objective, p.convergence, r.reachable)
    ensures Optimal(p, e, f, r)
  {
    hide RanksBefore, Verdict;
    forall c | Admissible(p, e, f, c)
      ensures c in candidates
    {
      var amount: U256, sa, da :| Trial(p, f, amount, sa, da) && Verdict(p, e, f, amount, sa, da) == Accepted(c);
      var k :| 0 <= k < |f.amounts| && f.amounts[k] == amount;
      assert AmountCovered(p, e, f, f.amounts[k], candidates);
      assert Covered(p, e, f, amount, sa, da, candidates);
    }
  }

  // ---------------------------------------------------------------- two passes

  const BPS: U256 := 10_000

  /** The tranche of the optimal movement, within the unlocked budget. */
  function ConstrainedLimit(optimal: U256, unlocked: U256, bps: U64): Option<U256> {
    var tranche := BlueMath.MulDivDown(optimal, bps, BPS);
    if tranche.Err? then None else Some(Min(tranche.value, unlocked))
  }

  function Combine(a: Certificate, b: Certificate): Certificate {
    var nodes, limit := a.nodes + b.nodes, a.limit + b.limit;
    var counted := forall r | r in b.rejections :: a.Count(r) + b.Count(r) <= MAX_U64;
    Certificate(
      Min(nodes, MAX_U64), Min(limit, MAX_U64),
      a.complete && b.complete && nodes <= MAX_U64 && limit <= MAX_U64 && counted,
      map r | r in a.rejections.Keys + b.rejections.Keys ::
        if a.Count(r) + b.Count(r) <= MAX_U64 then a.Count(r) + b.Count(r) else a.Count(r))
  }

  /** Two searches combine into an executable certificate exactly when both are complete and their limits add
      up within 64 bits; every counter then holds the sum. */
  lemma CombineExactly(a: Certificate, b: Certificate)
    requires a.Rejections() <= a.nodes <= a.limit && b.Rejections() <= b.nodes <= b.limit
    ensures Combine(a, b).Executable() <==> a.complete && b.complete && a.limit + b.limit <= MAX_U64
    ensures Combine(a, b).Executable() ==>
              Combine(a, b).nodes == a.nodes + b.nodes && forall r :: Combine(a, b).Count(r) == a.Count(r) + b.Count(r)
  {
    forall r: Reason
      ensures a.Count(r) + b.Count(r) <= a.limit + b.limit
    {
      CountWithin(a, r);
      CountWithin(b, r);
    }
    assert a.limit + b.limit <= MAX_U64 ==> forall r :: a.Count(r) + b.Count(r) <= MAX_U64;
  }

  /** Two complete passes with a limit of 2^63 nodes each are not executable together. */
  lemma CombineRefusesWideLimits()
    ensures var wide := Certificate(0, 0x8000_0000_0000_0000, true, map[]);
            wide.Executable() && !Combine(wide, wide).Executable()
  {
  }

  /** How an executable result came about: an executable full pass, the limit it sets, and the complete pass
      whose best is returned. */
  ghost predicate FinalPass(p: Problem, e: E.Episode, full: Outcome, last: Outcome, r: Outcome) {
    && E.RemainingBudget(e).Some? && IsSearch(p, e, E.RemainingBudget(e).value, full)
    && full.certificate.Executable() && full.best.Some? && E.AvailableBudget(e).Some?
    && var optimal := full.best.value.objective.movement;
       var limit := ConstrainedLimit(optimal, E.AvailableBudget(e).value, p.trancheBps);
       && limit.Some?
       && IsSearch(p, e, if limit.value >= optimal then E.RemainingBudget(e).value else limit.value, last)
       && (limit.value >= optimal ==> last == full)
       && last.certificate.complete && r.best == last.best && r.reachable == last.reachable
  }

  /** `solve_rate_rebalance`. */
  method SolveRateRebalance(p: Problem, e: E.Episode) returns (r: Outcome)
    ensures r.best.Some? && r.certificate.Executable() ==> exists full, last :: FinalPass(p, e, full, last, r)
  {
    hide ConstrainedLimit, E.RemainingBudget, E.AvailableBudget, IsSearch, Combine;
    var whole := E.RemainingBudget(e);
    if whole.None? { return EpisodeRejection(p); }
    var full := SearchRateRebalance(p, e, whole.value);
    if !full.certificate.Executable() || full.best.None? { return full; }
    var optimal := full.best.value.objective.movement;
    var unlocked := E.AvailableBudget(e);
    if unlocked.None? { return EpisodeRejection(p); }
    var limit := ConstrainedLimit(optimal, unlocked.value, p.trancheBps);
    if limit.None? { return EpisodeRejection(p); }
    if limit.value >= optimal {
      assert FinalPass(p, e, full, full, full);
      return full;
    }
    var last := SearchRateRebalance(p, e, limit.value);
    CertificatesFit(p, e, whole.value, full);
    CertificatesFit(p, e, limit.value, last);
    CombineExactly(full.certificate, last.certificate);
    r := last.(certificate := Combine(full.certificate, last.certificate));
    if r.certificate.Executable() {
      assert FinalPass(p, e, full, last, r);
    }
  }

  lemma CertificatesFit(p: Problem, e: E.Episode, budget: U256, r: Outcome)
    requires IsSearch(p, e, budget, r)
    ensures r.certificate.Rejections() <= r.certificate.nodes <= r.certificate.limit
  {
    hide Prepare, Optimal, Admissible;
  }

  /** A plan never moves more than the budget of its search, drains and fills the same total, and is the
      successful simulation it claims to be. */
  lemma SearchedPlan(p: Problem, e: E.Episode, budget: U256, r: Outcome)
    requires IsSearch(p, e, budget, r) && r.best.Some?
    ensures var c := r.best.value;
            && c.objective.movement <= budget
            && M.Total(c.actions, true) == M.Total(c.actions, false) == c.objective.movement
            && S.SimulateActions(p.env, p.inputs, c.actions) == Ok(c.state)
  {
    hide Prepare, Optimal, Judge, M.Candidate, M.Total, S.SimulateActions;
    var f := Prepare(p, e, budget).value;
    var c := r.best.value;
    ReadyKnows(p, f, budget);
    var amount: U256, sa, da :| Trial(p, f, amount, sa, da) && Verdict(p, e, f, amount, sa, da) == Accepted(c);
    TrialSpreads(p, f, amount, sa, da);
    AcceptedFacts(p, e, f, M.Candidate(f.sources, sa, f.destinations, da, p.positions), amount);
    CandidateBalances(p, f, amount, sa, da);
  }

  lemma CandidateBalances(p: Problem, f: Frame, amount: U256, sa: seq<int>, da: seq<int>)
    requires M.Known(f.sources, p.positions) && M.Known(f.destinations, p.positions)
    requires M.Spread(f.sources, sa, amount) && M.Spread(f.destinations, da, amount)
    ensures var actions := M.Candidate(f.sources, sa, f.destinations, da, p.positions);
            M.Total(actions, true) == M.Total(actions, false) == amount
  {
    hide M.Actions, M.Total, C.Sum;
    var out, into := M.Actions(f.sources, sa, p.positions, true), M.Actions(f.destinations, da, p.positions, false);
    M.TotalConcat(out, into, true);
    M.TotalConcat(out, into, false);
    M.TotalOfActions(f.sources, sa, p.positions, true, true);
    M.TotalOfActions(f.sources, sa, p.positions, true, false);
    M.TotalOfActions(f.destinations, da, p.positions, false, true);
    M.TotalOfActions(f.destinations, da, p.positions, false, false);
  }

  // ---------------------------------------------------------------- direction and position limits

  /** The most a source market may give and a destination market may take. */
  function Room(p: Problem, market: MarketId, drain: bool): int
    requires market in p.positions && p.positions[market].key in p.inputs.expectedAssets && (!drain ==> market in p.ceilings)
  {
    var held := p.inputs.expectedAssets[p.positions[market].key];
    Min(if drain then SaturatingSub(held, p.positions[market].minimumPosition) else SaturatingSub(p.ceilings[market], held),
        p.positions[market].maximumAction)
  }

  /** Every endpoint is one of the markets, with exactly its room. */
  ghost predicate WithinRooms(p: Problem, endpoints: seq<M.Endpoint>, markets: seq<MarketId>, drain: bool) {
    forall x | x in endpoints ::
      && x.market in markets && x.market in p.positions && p.positions[x.market].key in p.inputs.expectedAssets
      && (!drain ==> x.market in p.ceilings) && x.available == Room(p, x.market, drain)
  }

  lemma {:induction false} SourceRooms(p: Problem, markets: seq<MarketId>)
    requires SourceSide(p, markets).Some?
    ensures WithinRooms(p, SourceSide(p, markets).value, markets, true)
    decreases |markets|
  {
    if markets != [] { SourceRooms(p, markets[1..]); }
  }

  lemma {:induction false} DestinationRooms(p: Problem, markets: seq<MarketId>)
    requires DestinationSide(p, markets).Some?
    ensures WithinRooms(p, DestinationSide(p, markets).value, markets, false)
    decreases |markets|
  {
    if markets != [] { DestinationRooms(p, markets[1..]); }
  }

  /** Some endpoint carries the action, within its room. */
  ghost predicate Carried(p: Problem, endpoints: seq<M.Endpoint>, action: S.Action, drain: bool) {
    && action.Deallocation? == drain
    && exists x | x in endpoints :: x.market in p.positions && action.position == p.positions[x.market].key && action.requested <= x.available
  }

  lemma {:induction false} ActionsCarried(p: Problem, endpoints: seq<M.Endpoint>, amounts: seq<int>, drain: bool, action: S.Action)
    requires |amounts| == |endpoints| && M.Known(endpoints, p.positions)
    requires forall i | 0 <= i < |amounts| :: 0 <= amounts[i] <= MAX_U256 && amounts[i] <= endpoints[i].available
    requires action in M.Actions(endpoints, amounts, p.positions, drain)
    ensures Carried(p, endpoints, action, drain)
    decreases |endpoints|
  {
    if endpoints != [] {
      assert endpoints[0] in endpoints;
      var rest := M.Actions(endpoints[1..], amounts[1..], p.positions, drain);
      if action in rest { ActionsCarried(p, endpoints[1..], amounts[1..], drain, action); }
    }
  }

  /** Every action of a plan drains a source or fills a destination of the frozen direction, within the minimum,
      the ceiling and the action limit of its position. */
  ghost predicate InDirection(p: Problem, e: E.Episode, action: S.Action) {
    exists market: MarketId | market in (if action.Deallocation? then e.sources else e.destinations) ::
      && market in p.positions && action.position == p.positions[market].key && action.position in p.inputs.expectedAssets
      && (action.Allocation? ==> market in p.ceilings)
      && action.requested <= Room(p, market, action.Deallocation?)
  }

  lemma CarriedInDirection(p: Problem, e: E.Episode, endpoints: seq<M.Endpoint>, action: S.Action, drain: bool)
    requires WithinRooms(p, endpoints, Elements(if drain then e.sources else e.destinations), drain) && Carried(p, endpoints, action, drain)
    ensures InDirection(p, e, action)
  {
    hide Elements, Room;
    var x :| x in endpoints && x.market in p.positions && action.position == p.positions[x.market].key && action.requested <= x.available;
    assert x.market in (if drain then e.sources else e.destinations);
  }

  lemma PreparedRooms(p: Problem, e: E.Episode, budget: U256)
    requires Prepare(p, e, budget).Some?
    ensures var f := Prepare(p, e, budget).value;
            && WithinRooms(p, f.sources, Elements(e.sources), true) && WithinRooms(p, f.destinations, Elements(e.destinations), false)
  {
    hide Elements, Lattices, WithinRooms, C.Lattice, CompleteSpread, DestinationBoundaries, SourceSide, DestinationSide;
    SourceRooms(p, Elements(e.sources));
    DestinationRooms(p, Elements(e.destinations));
  }

  /** The direction and limits of every searched plan. */
  lemma PlanInDirection(p: Problem, e: E.Episode, budget: U256, r: Outcome, action: S.Action)
    requires IsSearch(p, e, budget, r) && r.best.Some? && action in r.best.value.actions
    ensures InDirection(p, e, action)
  {
    hide Prepare, Optimal, Judge, M.Actions, S.SimulateActions, WithinRooms, Carried, InDirection, Satisfies;
    var f := Prepare(p, e, budget).value;
    ReadyKnows(p, f, budget);
    PreparedRooms(p, e, budget);
    var amount: U256, sa, da :| Trial(p, f, amount, sa, da) && Verdict(p, e, f, amount, sa, da) == Accepted(r.best.value);
    TrialSpreads(p, f, amount, sa, da);
    AcceptedFacts(p, e, f, M.Candidate(f.sources, sa, f.destinations, da, p.positions), amount);
    if action in M.Actions(f.sources, sa, p.positions, true) {
      ActionsCarried(p, f.sources, sa, true, action);
      CarriedInDirection(p, e, f.sources, action, true);
    } else {
      ActionsCarried(p, f.destinations, da, false, action);
      CarriedInDirection(p, e, f.destinations, action, false);
    }
  }

  /** The returned movement is within the tranche of the optimal movement and within the unlocked budget. */
  lemma FinalMovement(p: Problem, e: E.Episode, full: Outcome, last: Outcome, r: Outcome)
    requires FinalPass(p, e, full, last, r) && r.best.Some?
    ensures r.best.value.objective.movement * BPS <= full.best.value.objective.movement * p.trancheBps
    ensures E.AvailableBudget(e).Some? && r.best.value.objective.movement <= E.AvailableBudget(e).value
  {
    hide IsSearch, E.AvailableBudget, E.RemainingBudget, BlueMath.MulDivDown;
    var optimal := full.best.value.objective.movement;
    var limit := ConstrainedLimit(optimal, E.AvailableBudget(e).value, p.trancheBps).value;
    if limit < optimal { SearchedPlan(p, e, limit, last); }
    BlueMath.MulDivDownIsFloor(optimal, p.trancheBps, BPS);
  }

  // ---------------------------------------------------------------- the plan builder

  lemma {:induction false} InflowIsDifference(actions: seq<S.Action>)
    ensures R.NetInflow(actions) == M.Total(actions, true) - M.Total(actions, false)
  {
    if actions != [] { InflowIsDifference(actions[1..]); }
  }

  lemma ReserveFollows(e: E.Episode, movement: U256)
    requires E.AvailableBudget(e).Some? && movement <= E.AvailableBudget(e).value
    ensures E.Reserve(e, movement).answer.Done?
  {
  }

  /** What a returned plan guarantees: it is the best of a complete final pass, its movement can be reserved on
      the same episode, it leaves idle assets as they were, and every action follows the frozen direction. */
  ghost predicate Guaranteed(p: Problem, e: E.Episode, full: Outcome, last: Outcome, r: Outcome) {
    && r.best.Some? && FinalPass(p, e, full, last, r)
    && var c := r.best.value;
       && c.objective.movement * BPS <= full.best.value.objective.movement * p.trancheBps
       && E.AvailableBudget(e).Some? && c.objective.movement <= E.AvailableBudget(e).value
       && E.Reserve(e, c.objective.movement).answer.Done?
       && M.Total(c.actions, true) == M.Total(c.actions, false) == c.objective.movement
       && S.SimulateActions(p.env, p.inputs, c.actions) == Ok(c.state)
       && (forall action | action in c.actions :: InDirection(p, e, action))
       && (R.OneToken(p.env) ==> c.state.idle == p.env.parent.idleAssets)
  }

  lemma FinalPassGuarantees(p: Problem, e: E.Episode, full: Outcome, last: Outcome, r: Outcome)
    requires r.best.Some? && FinalPass(p, e, full, last, r)
    ensures Guaranteed(p, e, full, last, r)
  {
    hide IsSearch, ConstrainedLimit, E.AvailableBudget, E.RemainingBudget, M.Total, S.SimulateActions, InDirection;
    FinalMovement(p, e, full, last, r);
    ReserveFollows(e, r.best.value.objective.movement);
    var optimal := full.best.value.objective.movement;
    var limit := ConstrainedLimit(optimal, E.AvailableBudget(e).value, p.trancheBps).value;
    var budget := if limit >= optimal then E.RemainingBudget(e).value else limit;
    SearchedPlan(p, e, budget, last);
    forall action | action in r.best.value.actions
      ensures InDirection(p, e, action)
    {
      PlanInDirection(p, e, budget, last, action);
    }
    InflowIsDifference(r.best.value.actions);
    if R.OneToken(p.env) { G.PlanMovesIdle(p.env, p.inputs, r.best.value.actions); }
  }

  datatype Scenario = Scenario(env: S.Env, inputs: S.Inputs)

  /** `RatePlanBuilder::build`: solves under the first projection and simulates under all of them. */
  method Build(p: Problem, episode: Option<E.Episode>, scenarios: seq<Scenario>) returns (r: Result<Option<Outcome>>)
    ensures r.Err? <==> episode.None? || scenarios == []
    ensures r.Err? ==> r.error == if episode.None? then MissingEpisode else MissingProjection
    ensures r.Ok? && r.value.Some? ==>
              && r.value.value.certificate.Executable()
              && (exists full, last :: Guaranteed(p.(env := scenarios[0].env, inputs := scenarios[0].inputs),
                                                  episode.value, full, last, r.value.value))
              && forall s | s in scenarios :: S.SimulateActions(s.env, s.inputs, r.value.value.best.value.actions).Ok?
  {
    hide S.SimulateActions, FinalPass, Guaranteed;
    if episode.None? { return Err(MissingEpisode); }
    if scenarios == [] { return Err(MissingProjection); }
    var q := p.(env := scenarios[0].env, inputs := scenarios[0].inputs);
    var result := SolveRateRebalance(q, episode.value);
    if !result.certificate.Executable() || result.best.None? { return Ok(None); }
    for i := 0 to |scenarios|
      invariant forall k | 0 <= k < i ::
                  S.SimulateActions(scenarios[k].env, scenarios[k].inputs, result.best.value.actions).Ok?
    {
      if S.SimulateActions(scenarios[i].env, scenarios[i].inputs, result.best.value.actions).Err? { return Ok(None); }
    }
    ghost var full, last :| FinalPass(q, episode.value, full, last, result);
    FinalPassGuarantees(q, episode.value, full, last, result);
    assert exists full, last :: Guaranteed(q, episode.value, full, last, result);
    return Ok(Some(result));
  }
}
