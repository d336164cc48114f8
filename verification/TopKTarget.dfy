/** Rates, weights and target allocations of the top-K strategy. */
module TopKTarget {
  import opened Checked
  import opened BlueMath
  import opened Market
  import opened Ordering
  import SharePool

  const BPS: U256 := 10_000
  const SECONDS_PER_YEAR: U256 := 31_536_000

  datatype Settings = Settings(
    enter: U256,
    exit: U256,
    replacement: U256,
    fourthGap: U256,
    boostThreshold: U256,
    boostWeight: U256,
    alpha: U256,
    probe: U256,
    confirmation: U64,
    three: seq<U256>,
    four: seq<U256>)

  predicate ValidWeights(weights: seq<U256>, n: nat) {
    |weights| == n && Total(weights) == BPS && forall i | 0 <= i < n :: weights[i] <= 7_000
  }

  /** What configuration validation guarantees. */
  predicate Validated(s: Settings) {
    ValidWeights(s.three, 3) && ValidWeights(s.four, 4) && 1 <= s.boostWeight <= 7_000 && 1 <= s.alpha <= BPS && 1 <= s.probe <= BPS
  }

  function Total(xs: seq<U256>): nat { if xs == [] then 0 else xs[0] + Total(xs[1..]) }

  // ---------------------------------------------------------------- smoothing

  /** Falls at once, rises by a fraction of the increase. */
  function SmoothedRate(previous: Option<U256>, current: U256, alpha: U256): Option<U256> {
    if previous.None? || current <= previous.value then Some(current)
    else
      var accepted := MulDivDown(current - previous.value, alpha, BPS);
      if accepted.Err? || previous.value + accepted.value > MAX_U256 then None else Some(previous.value + accepted.value)
  }

  /** The smoothed rate never exceeds the current one; it falls at once and rises by the floor of the configured
      fraction; it fails only when the scaled increase overflows. */
  lemma SmoothedBetween(previous: Option<U256>, current: U256, alpha: U256)
    requires alpha <= BPS
    ensures SmoothedRate(previous, current, alpha).None? <==>
            previous.Some? && current > previous.value && (current - previous.value) * alpha > MAX_U256
    ensures var r := SmoothedRate(previous, current, alpha);
            r.Some? ==>
              && r.value <= current
              && (previous.None? || current <= previous.value ==> r.value == current)
              && (previous.Some? && current > previous.value ==>
                    var rise := r.value - previous.value;
                    0 <= rise && rise * BPS <= (current - previous.value) * alpha < (rise + 1) * BPS)
  {
    if previous.Some? && current > previous.value {
      hide MulDivDown;
      var increase := current - previous.value;
      MulDivDownIsFloor(increase, alpha, BPS);
      if MulDivDown(increase, alpha, BPS).Ok? { FractionWithin(increase, alpha, MulDivDown(increase, alpha, BPS).value); }
    }
  }

  lemma FractionWithin(increase: nat, alpha: nat, accepted: nat)
    requires alpha <= 10_000 && accepted * 10_000 <= increase * alpha
    ensures accepted <= increase
  {
    SharePool.MulMonotone(alpha, 10_000, increase);
  }

  // ---------------------------------------------------------------- evidence

  datatype Exact = Exact(state: MarketState, deadShares: U256, shares: U256, recorded: U256, fee: Option<U256>, capLimit: Option<U256>)

  /** One active configured position; `exact` is missing when snapshot or projection lacks it. */
  datatype Listed = Listed(
    market: MarketId,
    minimumPosition: U256,
    maximumPosition: U256,
    minimumSupplyAssets: U256,
    minimumSupplyShares: U256,
    exact: Option<Exact>)

  /** One exact canonical state as the strategy sees it. */
  datatype Scene = Scene(
    number: U64,
    timestamp: U64,
    listed: seq<Listed>,
    current: Option<map<MarketId, U256>>,
    minimums: map<MarketId, U256>,
    minimumDeadShares: U256,
    additional: U256)

  datatype Probe = Probe(market: MarketId, currentRate: U256, postProbeRate: U256, capacity: U256)

  datatype Evidence = Evidence(
    market: MarketId,
    currentRate: U256,
    postProbeRate: U256,
    smoothedRate: U256,
    rankingRate: U256,
    capacity: U256)

  predicate Seeded(scene: Scene, l: Listed, x: Exact) {
    && x.state.supplyAssets >= l.minimumSupplyAssets
    && x.state.supplyShares >= l.minimumSupplyShares
    && x.deadShares >= scene.minimumDeadShares
  }

  /** The supply rate after a probe deposit; a zero probe keeps the current rate. */
  function PostProbe(x: Exact, probe: U256): Result<U256> {
    if probe == 0 then Ok(x.state.spotSupplyRate)
    else if x.fee.None? then Err(IncompleteState)
    else
      var t := Allocate(x.state, x.shares, probe, x.recorded, x.fee.value);
      if t.Err? then Err(IncompleteState) else Ok(t.value.market.spotSupplyRate)
  }

  /** Probes one listed position; `None` when it is not eligible. */
  function ProbeOne(scene: Scene, settings: Settings, direct: U256, l: Listed): Result<Option<Probe>> {
    if l.exact.None? then Err(IncompleteState)
    else
      var x := l.exact.value;
      if !Seeded(scene, l, x) then Ok(None)
      else if scene.current.None? || l.market !in scene.current.value || x.capLimit.None? then Err(IncompleteState)
      else
        var held := scene.current.value[l.market];
        var capacity := Min(SaturatingSub(l.maximumPosition, held), x.capLimit.value);
        if held + capacity > MAX_U256 || held + capacity < l.minimumPosition then Ok(None)
        else
          var share := MulDivDown(direct, settings.probe, BPS);
          if share.Err? then Err(Arithmetic)
          else
            var rate :- PostProbe(x, Min(Max(share.value, l.minimumPosition), capacity));
            Ok(Some(Probe(l.market, x.state.spotSupplyRate, rate, capacity)))
  }

  /** A probe never reports a better rate than the current one. */
  lemma ProbeLowersRate(scene: Scene, settings: Settings, direct: U256, l: Listed)
    requires ProbeOne(scene, settings, direct, l).Ok? && ProbeOne(scene, settings, direct, l).value.Some?
    requires l.exact.value.fee.Some? ==> RatesFresh(l.exact.value.state, l.exact.value.fee.value)
    ensures var p := ProbeOne(scene, settings, direct, l).value.value; p.postProbeRate <= p.currentRate
  {
    hide Allocate, MulDivDown, Seeded, RatesFresh;
    var x, held := l.exact.value, scene.current.value[l.market];
    var capacity := Min(SaturatingSub(l.maximumPosition, held), x.capLimit.value);
    var probe := Min(Max(MulDivDown(direct, settings.probe, BPS).value, l.minimumPosition), capacity);
    if probe != 0 { AllocateLowersRates(x.state, x.shares, probe, x.recorded, x.fee.value); }
  }

  /** The smoothed rate of one observation: advanced once per block, then held. */
  function Smooth(settings: Settings, smoothed: map<MarketId, U256>, first: bool, p: Probe): Result<U256> {
    var previous := if p.market in smoothed then Some(smoothed[p.market]) else None;
    if !first then Ok(if previous.Some? then previous.value else p.currentRate)
    else
      var r := SmoothedRate(previous, p.currentRate, settings.alpha);
      if r.None? then Err(Arithmetic) else Ok(r.value)
  }

  function EvidenceOf(p: Probe, smoothed: U256): Evidence {
    Evidence(p.market, p.currentRate, p.postProbeRate, smoothed, Min(Min(p.currentRate, p.postProbeRate), smoothed), p.capacity)
  }

  /** Evidence of the eligible positions in configuration order. */
  function Collect(scene: Scene, settings: Settings, direct: U256, smoothed: map<MarketId, U256>, first: bool, listed: seq<Listed>)
    : Result<seq<Evidence>>
    decreases |listed|
  {
    if listed == [] then Ok([])
    else
      var probe :- ProbeOne(scene, settings, direct, listed[0]);
      if probe.None? then Collect(scene, settings, direct, smoothed, first, listed[1..])
      else
        var rate :- Smooth(settings, smoothed, first, probe.value);
        var rest :- Collect(scene, settings, direct, smoothed, first, listed[1..]);
        Ok([EvidenceOf(probe.value, rate)] + rest)
  }

  predicate DistinctListed(listed: seq<Listed>) {
    forall i, j | 0 <= i < j < |listed| :: listed[i].market != listed[j].market
  }

  predicate DistinctEvidence(evidence: seq<Evidence>) {
    forall i, j | 0 <= i < j < |evidence| :: evidence[i].market != evidence[j].market
  }

  /** An eligible position reports its own current rate, and a capacity within its ceiling and caps that can reach
      its minimum. */
  lemma ProbeFacts(scene: Scene, settings: Settings, direct: U256, l: Listed)
    requires ProbeOne(scene, settings, direct, l).Ok? && ProbeOne(scene, settings, direct, l).value.Some?
    ensures var p := ProbeOne(scene, settings, direct, l).value.value;
            && p.market == l.market && scene.current.Some? && l.market in scene.current.value
            && l.exact.Some? && Seeded(scene, l, l.exact.value) && p.currentRate == l.exact.value.state.spotSupplyRate
            && l.exact.value.capLimit.Some? && p.capacity <= l.exact.value.capLimit.value
            && (p.capacity > 0 ==> scene.current.value[l.market] + p.capacity <= l.maximumPosition)
            && l.minimumPosition <= scene.current.value[l.market] + p.capacity <= MAX_U256
  {
    hide MulDivDown, PostProbe, Seeded;
  }

  lemma {:induction false} CollectDistinct(scene: Scene, settings: Settings, direct: U256, smoothed: map<MarketId, U256>, first: bool,
                                           listed: seq<Listed>)
    requires DistinctListed(listed) && Collect(scene, settings, direct, smoothed, first, listed).Ok?
    ensures var es := Collect(scene, settings, direct, smoothed, first, listed).value;
            && DistinctEvidence(es)
            && forall e | e in es :: exists l | l in listed :: l.market == e.market
    decreases |listed|
  {
    hide ProbeOne, Smooth;
    if listed != [] {
      CollectDistinct(scene, settings, direct, smoothed, first, listed[1..]);
      var probe := ProbeOne(scene, settings, direct, listed[0]).value;
      if probe.Some? {
        ProbeFacts(scene, settings, direct, listed[0]);
        var rest := Collect(scene, settings, direct, smoothed, first, listed[1..]).value;
        forall e | e in rest
          ensures e.market != listed[0].market
        {
          var l :| l in listed[1..] && l.market == e.market;
        }
      }
    }
  }

  /** Whether every collected rate is the one the memory holds. */
  ghost predicate Holds(smoothed: map<MarketId, U256>, evidence: seq<Evidence>) {
    forall e | e in evidence :: e.market in smoothed && smoothed[e.market] == e.smoothedRate
  }

  /** Collecting again in the same block from the rates just stored gives the same evidence. */
  lemma {:induction false} CollectAgain(scene: Scene, settings: Settings, direct: U256, smoothed: map<MarketId, U256>, first: bool,
                                        listed: seq<Listed>, stored: map<MarketId, U256>)
    requires Collect(scene, settings, direct, smoothed, first, listed).Ok?
    requires Holds(stored, Collect(scene, settings, direct, smoothed, first, listed).value)
    ensures Collect(scene, settings, direct, stored, false, listed) == Collect(scene, settings, direct, smoothed, first, listed)
    decreases |listed|
  {
    hide ProbeOne;
    if listed != [] {
      var es := Collect(scene, settings, direct, smoothed, first, listed).value;
      if ProbeOne(scene, settings, direct, listed[0]).value.Some? {
        assert es[0] in es;
        assert es[1..] == Collect(scene, settings, direct, smoothed, first, listed[1..]).value;
      }
      CollectAgain(scene, settings, direct, smoothed, first, listed[1..], stored);
    }
  }

  // ---------------------------------------------------------------- ranking

  /** Higher conservative rate first, then lower market identifier. */
  predicate Before(a: Evidence, b: Evidence) {
    a.rankingRate > b.rankingRate || (a.rankingRate == b.rankingRate && a.market < b.market)
  }

  function InsertRanked(ranked: seq<Evidence>, e: Evidence): seq<Evidence> {
    if ranked == [] || Before(e, ranked[0]) then [e] + ranked else [ranked[0]] + InsertRanked(ranked[1..], e)
  }

  function Rank(evidence: seq<Evidence>): seq<Evidence> {
    if evidence == [] then [] else InsertRanked(Rank(evidence[..|evidence| - 1]), evidence[|evidence| - 1])
  }

  predicate Ranked(evidence: seq<Evidence>) {
    forall i, j | 0 <= i < j < |evidence| :: Before(evidence[i], evidence[j])
  }

  lemma {:induction false} InsertRanks(ranked: seq<Evidence>, e: Evidence)
    requires Ranked(ranked) && forall r | r in ranked :: r.market != e.market
    ensures Ranked(InsertRanked(ranked, e))
    ensures forall x :: x in InsertRanked(ranked, e) <==> x in ranked || x == e
    decreases |ranked|
  {
    if ranked != [] && !Before(e, ranked[0]) {
      InsertRanks(ranked[1..], e);
      var rest := InsertRanked(ranked[1..], e);
      assert ranked[0] in ranked && ranked == [ranked[0]] + ranked[1..];
      forall j | 0 <= j < |rest|
        ensures Before(ranked[0], rest[j])
      {
        assert rest[j] in rest;
      }
    }
  }

  /** Ranking keeps the evidence and orders it strictly. */
  lemma {:induction false} RankSorts(evidence: seq<Evidence>)
    requires DistinctEvidence(evidence)
    ensures Ranked(Rank(evidence)) && DistinctEvidence(Rank(evidence))
    ensures forall x :: x in Rank(evidence) <==> x in evidence
    decreases |evidence|
  {
    if evidence != [] {
      var front, last := evidence[..|evidence| - 1], evidence[|evidence| - 1];
      assert evidence == front + [last];
      RankSorts(front);
      InsertRanks(Rank(front), last);
    }
    RankedDistinct(evidence, Rank(evidence));
  }

  lemma RankedDistinct(evidence: seq<Evidence>, ranked: seq<Evidence>)
    requires DistinctEvidence(evidence) && Ranked(ranked) && forall x :: x in ranked <==> x in evidence
    ensures DistinctEvidence(ranked)
  {
    forall i, j | 0 <= i < j < |ranked|
      ensures ranked[i].market != ranked[j].market
    {
      assert ranked[i] in ranked && ranked[j] in ranked && Before(ranked[i], ranked[j]);
      var k :| 0 <= k < |evidence| && evidence[k] == ranked[i];
      var l :| 0 <= l < |evidence| && evidence[l] == ranked[j];
    }
  }

  function Find(evidence: seq<Evidence>, market: MarketId): Option<Evidence> {
    if evidence == [] then None
    else if evidence[0].market == market then Some(evidence[0])
    else Find(evidence[1..], market)
  }

  // ---------------------------------------------------------------- weights

  const MAX_U32: int := 0xFFFF_FFFF

  function Annualized(rate: U256): Result<U256> {
    var r := WTaylorCompounded(rate, SECONDS_PER_YEAR);
    if r.Err? then Err(Arithmetic) else r
  }

  function YieldOf(evidence: seq<Evidence>, market: MarketId): Result<U256> {
    var e := Find(evidence, market);
    if e.None? then Err(IncompleteState) else Annualized(e.value.rankingRate)
  }

  function SumYields(evidence: seq<Evidence>, markets: seq<MarketId>, sum: U256): Result<U256>
    decreases |markets|
  {
    if markets == [] then Ok(sum)
    else
      var y :- YieldOf(evidence, markets[0]);
      var next :- Add(sum, y, Arithmetic);
      SumYields(evidence, markets[1..], next)
  }

  /** The top market must lead the average of the others by more than the threshold. */
  predicate BoostRequired(top: U256, others: U256, count: nat, threshold: U256)
    requires count > 0
  {
    var average := others / count;
    top >= average && top - average > threshold
  }

  /** One weight scaled from the base remainder to the boosted one, in 32-bit arithmetic. */
  function Scaled(weight: U256, boosted: U256, base: U256): Result<U256> {
    if base == 0 || boosted * weight > MAX_U32 then Err(Arithmetic)
    else QuotientFits(boosted * weight, base); Ok(boosted * weight / base)
  }

  /** The weights after the first, scaled to what the boost leaves; the last takes the remainder. */
  function ScaleRest(rest: seq<U256>, boosted: U256, base: U256, spent: nat): Result<seq<U256>>
    decreases |rest|
  {
    if rest == [] then Ok([])
    else if |rest| == 1 then if spent > BPS then Err(Arithmetic) else Ok([BPS - spent])
    else
      var scaled :- Scaled(rest[0], boosted, base);
      if spent + scaled > MAX_U32 then Err(Arithmetic)
      else
        var tail :- ScaleRest(rest[1..], boosted, base, spent + scaled);
        Ok([scaled] + tail)
  }

  /** A list of amounts in front of a result. */
  function Joined(front: seq<U256>, rest: Result<seq<U256>>): Result<seq<U256>> {
    if rest.Err? then Err(rest.error) else Ok(front + rest.value)
  }

  lemma JoinNothing(rest: Result<seq<U256>>)
    ensures Joined([], rest) == rest
  {
    if rest.Ok? { assert [] + rest.value == rest.value; }
  }

  lemma JoinStep(front: seq<U256>, x: U256, rest: Result<seq<U256>>)
    ensures Joined(front + [x], rest) == Joined(front, Joined([x], rest))
  {
    if rest.Ok? { assert (front + [x]) + rest.value == front + ([x] + rest.value); }
  }

  function Boosted(base: seq<U256>, boost: U256): Result<seq<U256>> {
    if base == [] then Err(IncompleteState)
    else if base[0] > BPS || boost > BPS then Err(Arithmetic)
    else
      var rest :- ScaleRest(base[1..], BPS - boost, BPS - base[0], boost);
      Ok([boost] + rest)
  }

  function BaseWeights(n: nat, settings: Settings): Result<seq<U256>> {
    if n == 3 then Ok(settings.three) else if n == 4 then Ok(settings.four) else Err(IncompleteState)
  }

  function EffectiveWeights(selected: seq<MarketId>, evidence: seq<Evidence>, settings: Settings): Result<seq<U256>> {
    var base :- BaseWeights(|selected|, settings);
    var top :- YieldOf(evidence, selected[0]);
    var others :- SumYields(evidence, selected[1..], 0);
    if BoostRequired(top, others, |selected| - 1, settings.boostThreshold) then Boosted(base, settings.boostWeight) else Ok(base)
  }

  lemma ScaledWithin(boosted: U256, base: U256, w: U256, done: nat, used: nat)
    requires 0 < base <= BPS && boosted <= BPS && done * base <= boosted * used && used + w <= base
    ensures Scaled(w, boosted, base).Ok?
    ensures var next := done + Scaled(w, boosted, base).value;
            next * base <= boosted * (used + w) && next <= boosted
    ensures var r := Scaled(w, boosted, base).value; r * base <= boosted * w < (r + 1) * base
  {
    SharePool.DivBounds(boosted * w, base);
    SharePool.MulMonotone(w, BPS, boosted);
    ScaledBound(boosted, base, w, done, used);
  }

  lemma ScaledBound(boosted: nat, base: nat, w: nat, done: nat, used: nat)
    requires base > 0 && done * base <= boosted * used && used + w <= base
    ensures (done + boosted * w / base) * base <= boosted * (used + w)
    ensures done + boosted * w / base <= boosted
  {
    SharePool.DivBounds(boosted * w, base);
    var scaled := boosted * w / base;
    assert (done + scaled) * base == done * base + scaled * base;
    assert boosted * (used + w) == boosted * used + boosted * w;
    SharePool.MulMonotone(used + w, base, boosted);
    SharePool.MulCancel(done + scaled, boosted, base);
  }

  /** Every scaled weight but the last is the floor of its proportional share. */
  ghost predicate Proportional(rest: seq<U256>, boosted: U256, base: U256, scaled: seq<U256>) {
    |scaled| == |rest| && forall i | 0 <= i < |rest| - 1 :: scaled[i] * base <= boosted * rest[i] < (scaled[i] + 1) * base
  }

  lemma ProportionalPrepend(rest: seq<U256>, boosted: U256, base: U256, first: U256, tail: seq<U256>)
    requires |rest| > 1 && Proportional(rest[1..], boosted, base, tail)
    requires first * base <= boosted * rest[0] < (first + 1) * base
    ensures Proportional(rest, boosted, base, [first] + tail)
  {
    forall i | 0 <= i < |rest| - 1
      ensures ([first] + tail)[i] * base <= boosted * rest[i] < (([first] + tail)[i] + 1) * base
    {
      if i > 0 { assert rest[1..][i - 1] == rest[i] && tail[i - 1] == ([first] + tail)[i]; }
    }
  }

  lemma NothingProportional(rest: seq<U256>, boosted: U256, base: U256, scaled: seq<U256>)
    requires |rest| == |scaled| == 1
    ensures Proportional(rest, boosted, base, scaled)
  {
  }

  /** Scaling never fails on validated weights, keeps their proportions, and the weights add up to the whole. */
  lemma {:induction false} ScaleRestSums(rest: seq<U256>, boosted: U256, base: U256, spent: nat, used: nat)
    requires 0 < base <= BPS && boosted <= BPS && 0 <= spent - (BPS - boosted) <= boosted && rest != []
    requires used + Total(rest) == base
    requires (spent - (BPS - boosted)) * base <= boosted * used
    ensures var r := ScaleRest(rest, boosted, base, spent);
            r.Ok? && |r.value| == |rest| && Total(r.value) == BPS - spent && Proportional(rest, boosted, base, r.value)
    decreases |rest|
  {
    hide Scaled, Proportional;
    if |rest| == 1 {
      NothingProportional(rest, boosted, base, [BPS - spent]);
    } else {
      assert Total(rest) == rest[0] + Total(rest[1..]);
      ScaledWithin(boosted, base, rest[0], spent - (BPS - boosted), used);
      var scaled := Scaled(rest[0], boosted, base).value;
      ScaleRestSums(rest[1..], boosted, base, spent + scaled, used + rest[0]);
      var tail := ScaleRest(rest[1..], boosted, base, spent + scaled).value;
      ProportionalPrepend(rest, boosted, base, scaled, tail);
      assert ([scaled] + tail)[1..] == tail;
    }
  }

  /** The boosted top weight leaves the others in proportion. */
  lemma BoostedSums(base: seq<U256>, boost: U256)
    requires |base| >= 2 && base[0] <= 7_000 && Total(base) == BPS && boost <= 7_000
    ensures Boosted(base, boost).Ok? && |Boosted(base, boost).value| == |base|
    ensures Boosted(base, boost).value[0] == boost && Total(Boosted(base, boost).value) == BPS
    ensures Proportional(base[1..], BPS - boost, BPS - base[0], Boosted(base, boost).value[1..])
  {
    hide Proportional;
    ScaleRestSums(base[1..], BPS - boost, BPS - base[0], boost, 0);
    var rest := ScaleRest(base[1..], BPS - boost, BPS - base[0], boost).value;
    assert ([boost] + rest)[1..] == rest;
  }

  /** Effective weights always add up to the whole, boosted or not. */
  lemma WeightsSum(selected: seq<MarketId>, evidence: seq<Evidence>, settings: Settings)
    requires Validated(settings) && EffectiveWeights(selected, evidence, settings).Ok?
    ensures var w := EffectiveWeights(selected, evidence, settings).value;
            |w| == |selected| && Total(w) == BPS && (w == BaseWeights(|selected|, settings).value || w[0] == settings.boostWeight)
  {
    hide YieldOf, SumYields, Boosted, BoostRequired;
    BoostedSums(BaseWeights(|selected|, settings).value, settings.boostWeight);
  }

  /** The boosting loop. */
  method BoostWeights(base: seq<U256>, boost: U256) returns (r: Result<seq<U256>>)
    ensures r == Boosted(base, boost)
  {
    if base == [] { return Err(IncompleteState); }
    if base[0] > BPS || boost > BPS { return Err(Arithmetic); }
    var remainder, left := BPS - base[0], BPS - boost;
    var weights: seq<U256> := [boost];
    var spent: nat := boost;
    var offset := 1;
    assert |base| == 1 ==> ScaleRest(base[1..], left, remainder, boost) == Ok([]) && [boost] + [] == [boost];
    while offset < |base|
      invariant 1 <= offset <= |base|
      invariant offset < |base| ==> Boosted(base, boost) == Joined(weights, ScaleRest(base[offset..], left, remainder, spent))
      invariant offset == |base| ==> Boosted(base, boost) == Ok(weights)
    {
      hide Scaled;
      assert base[offset..][0] == base[offset] && base[offset..][1..] == base[offset + 1..];
      if offset + 1 == |base| {
        if spent > BPS { return Err(Arithmetic); }
        spent, weights := BPS, weights + [BPS - spent];
      } else {
        var scaled := Scaled(base[offset], left, remainder);
        if scaled.Err? || spent + scaled.value > MAX_U32 { return Err(Arithmetic); }
        JoinStep(weights, scaled.value, ScaleRest(base[offset + 1..], left, remainder, spent + scaled.value));
        spent, weights := spent + scaled.value, weights + [scaled.value];
      }
      offset := offset + 1;
    }
    return Ok(weights);
  }

  // ---------------------------------------------------------------- target allocations

  /** Assets per weight: the floor of each share, and the remainder for the last. */
  function Amounts(direct: U256, weights: seq<U256>, spent: U256): Result<seq<U256>>
    decreases |weights|
  {
    if weights == [] then Ok([])
    else if |weights| == 1 then
      var amount :- Sub(direct, spent, Arithmetic);
      Ok([amount])
    else
      var share := MulDivDown(direct, weights[0], BPS);
      if share.Err? then Err(Arithmetic)
      else
        var next :- Add(spent, share.value, Arithmetic);
        var rest :- Amounts(direct, weights[1..], next);
        Ok([share.value] + rest)
  }

  function Zip(markets: seq<MarketId>, amounts: seq<U256>): map<MarketId, U256>
    requires |markets| == |amounts|
  {
    if markets == [] then map[]
    else Zip(markets[..|markets| - 1], amounts[..|amounts| - 1])[markets[|markets| - 1] := amounts[|amounts| - 1]]
  }

  function TargetAllocations(selected: seq<MarketId>, direct: U256, weights: seq<U256>): Result<map<MarketId, U256>> {
    if |selected| != |weights| then Err(IncompleteState)
    else
      var amounts :- Amounts(direct, weights, 0);
      AmountsLength(direct, weights, 0);
      Ok(Zip(selected, amounts))
  }

  lemma {:induction false} AmountsLength(direct: U256, weights: seq<U256>, spent: U256)
    ensures var r := Amounts(direct, weights, spent); r.Ok? ==> |r.value| == |weights|
    decreases |weights|
  {
    hide MulDivDown;
    if |weights| > 1 {
      var share := MulDivDown(direct, weights[0], BPS);
      if share.Ok? && spent + share.value <= MAX_U256 { AmountsLength(direct, weights[1..], spent + share.value); }
    }
  }

  lemma ShareWithin(direct: nat, w: nat, share: nat, spent: nat, used: nat)
    requires share * 10_000 <= direct * w && spent * 10_000 <= direct * used && used + w <= 10_000
    ensures (spent + share) * 10_000 <= direct * (used + w) && spent + share <= direct
  {
    assert direct * (used + w) == direct * used + direct * w;
    SharePool.MulMonotone(used + w, 10_000, direct);
    SharePool.MulCancel(spent + share, direct, 10_000);
  }

  /** Every amount but the last is the floor of its share. */
  ghost predicate Floors(direct: U256, weights: seq<U256>, amounts: seq<U256>) {
    |amounts| == |weights| && forall i | 0 <= i < |weights| - 1 ::
      amounts[i] * BPS <= direct * weights[i] < (amounts[i] + 1) * BPS
  }

  /** The amounts hand out exactly the direct assets, and the last is never below its own share. */
  lemma {:induction false} AmountsSum(direct: U256, weights: seq<U256>, spent: U256, used: nat)
    requires weights != [] && used + Total(weights) == BPS && spent * BPS <= direct * used && spent <= direct
    requires Amounts(direct, weights, spent).Ok?
    ensures var r := Amounts(direct, weights, spent).value;
            && |r| == |weights| && Total(r) == direct - spent && Floors(direct, weights, r)
            && r[|r| - 1] * BPS >= direct * weights[|weights| - 1]
    decreases |weights|
  {
    hide MulDivDown, Floors;
    assert Total(weights) == weights[0] + Total(weights[1..]);
    if |weights| == 1 {
      LastShare(direct, spent, used, weights[0]);
      assert Floors(direct, weights, [direct - spent]) by { NoFloors(direct, weights, [direct - spent]); }
    } else {
      var share := MulDivDown(direct, weights[0], BPS).value;
      MulDivDownIsFloor(direct, weights[0], BPS);
      ShareWithin(direct, weights[0], share, spent, used);
      AmountsSum(direct, weights[1..], spent + share, used + weights[0]);
      var rest := Amounts(direct, weights[1..], spent + share).value;
      FloorsPrepend(direct, weights, share, rest);
      assert ([share] + rest)[1..] == rest;
    }
  }

  lemma LastShare(direct: nat, spent: nat, used: nat, w: nat)
    requires used + w == 10_000 && spent * 10_000 <= direct * used && spent <= direct
    ensures (direct - spent) * 10_000 >= direct * w
  {
    assert direct * (used + w) == direct * used + direct * w;
  }

  lemma NoFloors(direct: U256, weights: seq<U256>, amounts: seq<U256>)
    requires |weights| == |amounts| == 1
    ensures Floors(direct, weights, amounts)
  {
  }

  lemma FloorsPrepend(direct: U256, weights: seq<U256>, share: U256, rest: seq<U256>)
    requires |weights| > 1 && Floors(direct, weights[1..], rest)
    requires share * BPS <= direct * weights[0] < (share + 1) * BPS
    ensures Floors(direct, weights, [share] + rest)
  {
    forall i | 0 <= i < |weights| - 1
      ensures ([share] + rest)[i] * BPS <= direct * weights[i] < (([share] + rest)[i] + 1) * BPS
    {
      if i > 0 { assert weights[1..][i - 1] == weights[i] && rest[i - 1] == ([share] + rest)[i]; }
    }
  }

  /** The allocation loop. */
  method AllocateTargets(selected: seq<MarketId>, direct: U256, weights: seq<U256>) returns (r: Result<map<MarketId, U256>>)
    ensures r == TargetAllocations(selected, direct, weights)
  {
    if |selected| != |weights| { return Err(IncompleteState); }
    var targets: map<MarketId, U256> := map[];
    var spent: U256 := 0;
    ghost var amounts: seq<U256> := [];
    assert weights[0..] == weights;
    JoinNothing(Amounts(direct, weights, 0));
    for offset := 0 to |selected|
      invariant |amounts| == offset && targets == Zip(selected[..offset], amounts)
      invariant offset < |selected| ==> Amounts(direct, weights, 0) == Joined(amounts, Amounts(direct, weights[offset..], spent))
      invariant offset == |selected| ==> Amounts(direct, weights, 0) == Ok(amounts)
    {
      hide MulDivDown;
      assert weights[offset..][0] == weights[offset] && weights[offset..][1..] == weights[offset + 1..];
      assert selected[..offset + 1][..offset] == selected[..offset];
      var amount;
      if offset + 1 == |selected| {
        if spent > direct { return Err(Arithmetic); }
        amount := direct - spent;
      } else {
        var share := MulDivDown(direct, weights[offset], BPS);
        if share.Err? || spent + share.value > MAX_U256 { return Err(Arithmetic); }
        JoinStep(amounts, share.value, Amounts(direct, weights[offset + 1..], spent + share.value));
        amount := share.value;
      }
      spent := spent + amount;
      targets := targets[selected[offset] := amount];
      amounts := amounts + [amount];
    }
    assert selected[..|selected|] == selected;
    return Ok(targets);
  }

  // ---------------------------------------------------------------- sums over markets

  function At(m: map<MarketId, U256>, k: MarketId): U256 { if k in m then m[k] else 0 }

  function SumOver(m: map<MarketId, U256>, keys: seq<MarketId>): nat {
    if keys == [] then 0 else At(m, keys[0]) + SumOver(m, keys[1..])
  }

  function MapSum(m: map<MarketId, U256>): nat { SumOver(m, Elements(m.Keys)) }

  lemma {:induction false} SumWithout(m: map<MarketId, U256>, keys: seq<MarketId>, k: MarketId)
    requires AllDifferent(keys)
    ensures SumOver(m, keys) == SumOver(m - {k}, keys) + if k in keys then At(m, k) else 0
  {
    if keys != [] { SumWithout(m, keys[1..], k); }
  }

  lemma {:induction false} SumWithin(m: map<MarketId, U256>, keys: seq<MarketId>, all: seq<MarketId>)
    requires AllDifferent(keys) && AllDifferent(all) && forall k | k in m :: k in all
    ensures SumOver(m, keys) <= SumOver(m, all)
    decreases |keys|
  {
    if keys != [] {
      var k := keys[0];
      SumWithout(m, keys[1..], k);
      SumWithout(m, all, k);
      SumWithin(m - {k}, keys[1..], all);
    }
  }

  /** Any duplicate-free list that covers the map gives its sum. */
  lemma SumIsMapSum(m: map<MarketId, U256>, keys: seq<MarketId>)
    requires AllDifferent(keys) && forall k | k in m :: k in keys
    ensures SumOver(m, keys) == MapSum(m)
  {
    SumWithin(m, keys, Elements(m.Keys));
    SumWithin(m, Elements(m.Keys), keys);
  }

  lemma {:induction false} SumExtend(m: map<MarketId, U256>, keys: seq<MarketId>, k: MarketId, v: U256)
    requires k !in keys
    ensures SumOver(m[k := v], keys) == SumOver(m, keys)
  {
    if keys != [] { SumExtend(m, keys[1..], k, v); }
  }

  lemma {:induction false} SumSnoc(m: map<MarketId, U256>, keys: seq<MarketId>, k: MarketId)
    ensures SumOver(m, keys + [k]) == SumOver(m, keys) + At(m, k)
  {
    if keys != [] {
      assert (keys + [k])[1..] == keys[1..] + [k];
      SumSnoc(m, keys[1..], k);
    }
  }

  lemma {:induction false} TotalSnoc(xs: seq<U256>, x: U256)
    ensures Total(xs + [x]) == Total(xs) + x
  {
    if xs != [] {
      assert (xs + [x])[1..] == xs[1..] + [x];
      TotalSnoc(xs[1..], x);
    }
  }

  lemma {:induction false} ZipSum(markets: seq<MarketId>, amounts: seq<U256>)
    requires |markets| == |amounts| && AllDifferent(markets)
    ensures SumOver(Zip(markets, amounts), markets) == Total(amounts)
    ensures forall k :: k in Zip(markets, amounts) <==> k in markets
    decreases |markets|
  {
    if markets != [] {
      var front, k := markets[..|markets| - 1], markets[|markets| - 1];
      var some, v := amounts[..|amounts| - 1], amounts[|amounts| - 1];
      assert markets == front + [k] && amounts == some + [v];
      ZipSum(front, some);
      SumExtend(Zip(front, some), front, k, v);
      SumSnoc(Zip(markets, amounts), front, k);
      TotalSnoc(some, v);
    }
  }

  /** Targets under effective weights hand out exactly the direct assets over exactly the selected markets. */
  lemma TargetsSum(selected: seq<MarketId>, direct: U256, weights: seq<U256>)
    requires AllDifferent(selected) && selected != [] && Total(weights) == BPS
    requires TargetAllocations(selected, direct, weights).Ok?
    ensures var t := TargetAllocations(selected, direct, weights).value;
            MapSum(t) == direct && forall k :: k in t <==> k in selected
  {
    hide Amounts, Zip, MapSum;
    var amounts := Amounts(direct, weights, 0).value;
    AmountsSum(direct, weights, 0, 0);
    ZipSum(selected, amounts);
    SumIsMapSum(Zip(selected, amounts), selected);
  }

  // ---------------------------------------------------------------- score

  function AbsDiff(x: U256, y: U256): U256 { if x >= y then x - y else y - x }

  function Distance(current: map<MarketId, U256>, targets: map<MarketId, U256>, keys: seq<MarketId>): nat {
    if keys == [] then 0 else AbsDiff(At(current, keys[0]), At(targets, keys[0])) + Distance(current, targets, keys[1..])
  }

  /** Normalised distance between current and target assets. */
  function Score(current: map<MarketId, U256>, targets: map<MarketId, U256>, direct: U256): Result<U256> {
    if direct == 0 then Ok(0)
    else
      var distance := Distance(current, targets, Elements(current.Keys + targets.Keys));
      if distance > MAX_U256 || 2 * direct > MAX_U256 then Err(Arithmetic)
      else
        var r := MulDivDown(distance, WAD, 2 * direct);
        if r.Err? then Err(Arithmetic) else r
  }

  lemma {:induction false} DistanceBound(current: map<MarketId, U256>, targets: map<MarketId, U256>, keys: seq<MarketId>)
    ensures Distance(current, targets, keys) <= SumOver(current, keys) + SumOver(targets, keys)
  {
    if keys != [] { DistanceBound(current, targets, keys[1..]); }
  }

  lemma {:induction false} DistanceZero(current: map<MarketId, U256>, targets: map<MarketId, U256>, keys: seq<MarketId>)
    ensures Distance(current, targets, keys) == 0 <==> forall k | k in keys :: At(current, k) == At(targets, k)
  {
    if keys != [] {
      DistanceZero(current, targets, keys[1..]);
      assert keys == [keys[0]] + keys[1..];
    }
  }

  lemma ScoreArithmetic(distance: nat, direct: nat, score: nat)
    requires direct > 0 && distance <= 2 * direct && score * (2 * direct) <= distance * WAD
    ensures score <= WAD
  {
    SharePool.MulMonotone(distance, 2 * direct, WAD);
    SharePool.MulCancel(score, WAD, 2 * direct);
  }

  /** The score is at most one, and zero when the allocation is on target. */
  lemma ScoreWithinWad(current: map<MarketId, U256>, targets: map<MarketId, U256>, direct: U256)
    requires MapSum(current) <= direct && MapSum(targets) == direct && Score(current, targets, direct).Ok?
    ensures Score(current, targets, direct).value <= WAD
    ensures (forall k :: At(current, k) == At(targets, k)) ==> Score(current, targets, direct).value == 0
  {
    hide MulDivDown, MapSum, At;
    var keys := Elements(current.Keys + targets.Keys);
    var distance := Distance(current, targets, keys);
    DistanceBound(current, targets, keys);
    DistanceZero(current, targets, keys);
    SumIsMapSum(current, keys);
    SumIsMapSum(targets, keys);
    if direct != 0 {
      MulDivDownIsFloor(distance, WAD, 2 * direct);
      ScoreArithmetic(distance, direct, Score(current, targets, direct).value);
      if distance == 0 { ZeroScore(direct, Score(current, targets, direct).value); }
    }
  }

  lemma ZeroScore(direct: nat, score: nat)
    requires direct > 0 && score * (2 * direct) <= 0 * WAD
    ensures score == 0
  {
    if score > 0 { SharePool.MulMonotone(1, score, 2 * direct); }
  }
}
