/** Membership confirmation of the top-K strategy over runs of observations. */
module TopK {
  import opened Checked
  import opened BlueMath
  import opened Market
  import opened Ordering
  import opened TopKTarget

  // ---------------------------------------------------------------- proposed membership

  function MarketsOf(evidence: seq<Evidence>): (r: seq<MarketId>)
    ensures |r| == |evidence| && forall i | 0 <= i < |r| :: r[i] == evidence[i].market
  {
    if evidence == [] then [] else [evidence[0].market] + MarketsOf(evidence[1..])
  }

  predicate Eligible(evidence: seq<Evidence>, market: MarketId) {
    exists i | 0 <= i < |evidence| :: evidence[i].market == market
  }

  predicate CanHold(e: Evidence, held: U256, target: U256, minimum: U256) {
    target >= minimum && held + e.capacity <= MAX_U256 && held + e.capacity >= target
  }

  /** Whether the fourth-ranked market joins the target. */
  function FourthJoins(ranked: seq<Evidence>, direct: U256, current: map<MarketId, U256>, minimums: map<MarketId, U256>, settings: Settings)
    : Result<bool>
    requires |ranked| >= 4
  {
    var four, fourth := MarketsOf(ranked[..4]), ranked[3];
    var weights :- EffectiveWeights(four, ranked, settings);
    var targets :- TargetAllocations(four, direct, weights);
    if fourth.market !in targets || fourth.market !in current || fourth.market !in minimums then Err(IncompleteState)
    else if !CanHold(fourth, current[fourth.market], targets[fourth.market], minimums[fourth.market]) then Ok(false)
    else
      var best :- Annualized(ranked[0].rankingRate);
      var other :- Annualized(fourth.rankingRate);
      Ok(SaturatingSub(best, other) <= settings.fourthGap)
  }

  /** The leading markets by conservative rate. */
  function Desired(ranked: seq<Evidence>, direct: U256, current: map<MarketId, U256>, minimums: map<MarketId, U256>, settings: Settings)
    : Result<seq<MarketId>>
    requires |ranked| >= 3
  {
    if |ranked| == 3 then Ok(MarketsOf(ranked))
    else
      var joins :- FourthJoins(ranked, direct, current, minimums, settings);
      Ok(MarketsOf(ranked[..if joins then 4 else 3]))
  }

  predicate Improves(candidate: U256, incumbent: U256, threshold: U256) {
    candidate >= incumbent && candidate - incumbent >= threshold
  }

  function TransitionAllowed(candidate: Evidence, incumbent: Evidence, settings: Settings): Result<bool> {
    var cr :- Annualized(candidate.rankingRate);
    var ir :- Annualized(incumbent.rankingRate);
    var cc :- Annualized(candidate.currentRate);
    var ic :- Annualized(incumbent.currentRate);
    var cp :- Annualized(candidate.postProbeRate);
    var ip :- Annualized(incumbent.postProbeRate);
    Ok(Improves(cr, ir, settings.enter) && Improves(cc, ic, settings.exit) && Improves(cp, ip, settings.replacement))
  }

  function Compared(ranked: seq<Evidence>, candidate: MarketId, incumbent: MarketId, settings: Settings): Result<bool> {
    var c, i := Find(ranked, candidate), Find(ranked, incumbent);
    if c.None? || i.None? then Err(IncompleteState) else TransitionAllowed(c.value, i.value, settings)
  }

  function Missing(markets: seq<MarketId>, others: seq<MarketId>): seq<MarketId> {
    if markets == [] then []
    else (if markets[0] in others then [] else [markets[0]]) + Missing(markets[1..], others)
  }

  /** Whether every replacement of an outgoing by an incoming market clears the thresholds. */
  function ReplacementsAllowed(ranked: seq<Evidence>, incoming: seq<MarketId>, outgoing: seq<MarketId>, settings: Settings): Result<bool>
    decreases |incoming|
  {
    if incoming == [] || outgoing == [] then Ok(true)
    else
      var allowed :- Compared(ranked, incoming[0], outgoing[0], settings);
      if !allowed then Ok(false) else ReplacementsAllowed(ranked, incoming[1..], outgoing[1..], settings)
  }

  function IndexOf(markets: seq<MarketId>, market: MarketId): (r: Option<nat>)
    ensures r.Some? ==> r.value < |markets| && markets[r.value] == market
    ensures r.None? ==> market !in markets
  {
    if markets == [] then None
    else if markets[0] == market then Some(0)
    else
      var rest := IndexOf(markets[1..], market);
      if rest.None? then None else Some(rest.value + 1)
  }

  /** Whether every market that moves up clears the thresholds against the one it overtakes. */
  function PromotionsAllowed(ranked: seq<Evidence>, desired: seq<MarketId>, current: seq<MarketId>, index: nat, settings: Settings): Result<bool>
    requires |current| == |desired| && index <= |desired|
    decreases |desired| - index
  {
    if index == |desired| then Ok(true)
    else
      var at := IndexOf(current, desired[index]);
      if at.None? || at.value <= index then PromotionsAllowed(ranked, desired, current, index + 1, settings)
      else
        var allowed :- Compared(ranked, desired[index], current[index], settings);
        if !allowed then Ok(false) else PromotionsAllowed(ranked, desired, current, index + 1, settings)
  }

  predicate Operational(ranked: seq<Evidence>, selected: seq<MarketId>) {
    exists i | 0 <= i < |selected| :: !Eligible(ranked, selected[i])
  }

  /** Fewer than three eligible markets propose nothing; otherwise the leading markets, or the present selection
      when a change does not clear the thresholds. */
  function Proposed(ranked: seq<Evidence>, direct: U256, current: map<MarketId, U256>, minimums: map<MarketId, U256>,
                    selected: seq<MarketId>, settings: Settings): Result<seq<MarketId>> {
    if |ranked| < 3 then Ok([])
    else
      var desired :- Desired(ranked, direct, current, minimums, settings);
      if selected == [] || Operational(ranked, selected) || |selected| != |desired| then Ok(desired)
      else
        var incoming, outgoing := Missing(desired, selected), Missing(selected, desired);
        if |incoming| != |outgoing| then Ok(selected)
        else
          var replaced :- ReplacementsAllowed(ranked, incoming, outgoing, settings);
          if !replaced then Ok(selected)
          else
            var promoted :- PromotionsAllowed(ranked, desired, selected, 0, settings);
            Ok(if promoted then desired else selected)
  }

  predicate ProperSelection(markets: seq<MarketId>) {
    AllDifferent(markets) && (|markets| == 0 || |markets| == 3 || |markets| == 4)
  }

  lemma {:induction false} MissingNothing(markets: seq<MarketId>, others: seq<MarketId>)
    requires forall m | m in markets :: m in others
    ensures Missing(markets, others) == []
    decreases |markets|
  {
    if markets != [] { MissingNothing(markets[1..], others); }
  }

  lemma {:induction false} IndexOfOwn(markets: seq<MarketId>, i: nat)
    requires i < |markets|
    ensures IndexOf(markets, markets[i]).Some? && IndexOf(markets, markets[i]).value <= i
    decreases |markets|
  {
    if markets[0] != markets[i] { IndexOfOwn(markets[1..], i - 1); }
  }

  lemma {:induction false} NoPromotions(ranked: seq<Evidence>, markets: seq<MarketId>, index: nat, settings: Settings)
    requires index <= |markets|
    ensures PromotionsAllowed(ranked, markets, markets, index, settings) == Ok(true)
    decreases |markets| - index
  {
    if index < |markets| {
      IndexOfOwn(markets, index);
      NoPromotions(ranked, markets, index + 1, settings);
    }
  }

  lemma DesiredShape(ranked: seq<Evidence>, direct: U256, current: map<MarketId, U256>, minimums: map<MarketId, U256>, settings: Settings)
    requires DistinctEvidence(ranked) && |ranked| >= 3 && Desired(ranked, direct, current, minimums, settings).Ok?
    ensures var d := Desired(ranked, direct, current, minimums, settings).value;
            && ProperSelection(d) && d != [] && !Operational(ranked, d)
            && forall i | 0 <= i < |d| :: d[i] == ranked[i].market
  {
    hide FourthJoins;
    var d := Desired(ranked, direct, current, minimums, settings).value;
    forall i | 0 <= i < |d|
      ensures Eligible(ranked, d[i])
    {
      assert ranked[i].market == d[i];
    }
  }

  /** A proposal is the leading markets or the present selection; the leading markets propose themselves. */
  lemma ProposedShape(ranked: seq<Evidence>, direct: U256, current: map<MarketId, U256>, minimums: map<MarketId, U256>,
                      selected: seq<MarketId>, settings: Settings)
    requires DistinctEvidence(ranked) && |ranked| >= 3 && Proposed(ranked, direct, current, minimums, selected, settings).Ok?
    ensures Desired(ranked, direct, current, minimums, settings).Ok?
    ensures var p, d := Proposed(ranked, direct, current, minimums, selected, settings).value, Desired(ranked, direct, current, minimums, settings).value;
            && (p == d || (p == selected && selected != [] && !Operational(ranked, selected)))
            && ProperSelection(d) && d != []
            && Proposed(ranked, direct, current, minimums, d, settings) == Ok(d)
  {
    hide Desired, ReplacementsAllowed, Operational;
    DesiredShape(ranked, direct, current, minimums, settings);
    var d := Desired(ranked, direct, current, minimums, settings).value;
    MissingNothing(d, d);
    NoPromotions(ranked, d, 0, settings);
    assert ReplacementsAllowed(ranked, [], [], settings) == Ok(true) by { NoReplacements(ranked, settings); }
  }

  /** One market beats another by all three thresholds. */
  ghost predicate Clears(ranked: seq<Evidence>, candidate: MarketId, incumbent: MarketId, settings: Settings) {
    && Find(ranked, candidate).Some? && Find(ranked, incumbent).Some?
    && var c, i := Find(ranked, candidate).value, Find(ranked, incumbent).value;
       && Leads(c.rankingRate, i.rankingRate, settings.enter)
       && Leads(c.currentRate, i.currentRate, settings.exit)
       && Leads(c.postProbeRate, i.postProbeRate, settings.replacement)
  }

  predicate Leads(rate: U256, other: U256, threshold: U256) {
    Annualized(rate).Ok? && Annualized(other).Ok? && Annualized(rate).value >= Annualized(other).value + threshold
  }

  lemma {:induction false} ReplacementsClear(ranked: seq<Evidence>, incoming: seq<MarketId>, outgoing: seq<MarketId>, settings: Settings, k: nat)
    requires ReplacementsAllowed(ranked, incoming, outgoing, settings) == Ok(true) && k < |incoming| && k < |outgoing|
    ensures Clears(ranked, incoming[k], outgoing[k], settings)
    decreases |incoming|
  {
    hide Annualized;
    if k > 0 { ReplacementsClear(ranked, incoming[1..], outgoing[1..], settings, k - 1); }
  }

  lemma {:induction false} PromotionsClear(ranked: seq<Evidence>, desired: seq<MarketId>, current: seq<MarketId>, index: nat, settings: Settings, k: nat)
    requires |current| == |desired| && index <= k < |desired|
    requires PromotionsAllowed(ranked, desired, current, index, settings) == Ok(true)
    ensures IndexOf(current, desired[k]).Some? && IndexOf(current, desired[k]).value > k ==> Clears(ranked, desired[k], current[k], settings)
    decreases |desired| - index
  {
    hide Annualized;
    if index < k { PromotionsClear(ranked, desired, current, index + 1, settings, k); }
  }

  /** A selection that is fully eligible and of the right size is only given up when every incoming market beats the
      outgoing one it replaces, and every promoted market the one it overtakes, by all three thresholds. */
  lemma ChangeClearsThresholds(ranked: seq<Evidence>, direct: U256, current: map<MarketId, U256>, minimums: map<MarketId, U256>,
                               selected: seq<MarketId>, settings: Settings, k: nat)
    requires |ranked| >= 3 && Proposed(ranked, direct, current, minimums, selected, settings).Ok?
    requires var p := Proposed(ranked, direct, current, minimums, selected, settings).value;
             p != selected && |p| == |selected| && !Operational(ranked, selected)
    ensures var p := Proposed(ranked, direct, current, minimums, selected, settings).value;
            var incoming, outgoing := Missing(p, selected), Missing(selected, p);
            && |incoming| == |outgoing|
            && (k < |incoming| ==> Clears(ranked, incoming[k], outgoing[k], settings))
            && (k < |p| && IndexOf(selected, p[k]).Some? && IndexOf(selected, p[k]).value > k ==> Clears(ranked, p[k], selected[k], settings))
  {
    hide Desired, Operational, Clears, ReplacementsAllowed, PromotionsAllowed;
    var p := Proposed(ranked, direct, current, minimums, selected, settings).value;
    var incoming, outgoing := Missing(p, selected), Missing(selected, p);
    if k < |incoming| { ReplacementsClear(ranked, incoming, outgoing, settings, k); }
    if k < |p| { PromotionsClear(ranked, p, selected, 0, settings, k); }
  }

  lemma NoReplacements(ranked: seq<Evidence>, settings: Settings)
    ensures ReplacementsAllowed(ranked, [], [], settings) == Ok(true)
  {
  }

  // ---------------------------------------------------------------- one observation

  datatype Memory = Memory(
    block: U64,
    timestamp: U64,
    generation: U64,
    selected: seq<MarketId>,
    smoothed: map<MarketId, U256>,
    pending: seq<MarketId>,
    since: Option<U64>,
    reconciled: U64)

  const EMPTY_MEMORY: Memory := Memory(0, 0, 0, [], map[], [], None, 0)

  datatype Reason = InsufficientEligibleMarkets | TopSetUnconfirmed

  datatype Target = Target(
    selected: seq<MarketId>,
    targets: map<MarketId, U256>,
    current: map<MarketId, U256>,
    evidence: seq<Evidence>,
    direct: U256,
    score: U256)

  datatype Observation = Observation(target: Option<Target>, reason: Option<Reason>, next: Memory)

  predicate Confirmed(since: Option<U64>, now: U64, confirmation: U64) {
    since.Some? && since.value + confirmation <= MAX_U64 && now >= since.value + confirmation
  }

  function StoredRates(evidence: seq<Evidence>): map<MarketId, U256> {
    if evidence == [] then map[]
    else StoredRates(evidence[..|evidence| - 1])[evidence[|evidence| - 1].market := evidence[|evidence| - 1].smoothedRate]
  }

  /** Total direct assets that the target covers. */
  function DirectAssets(scene: Scene): Result<U256> {
    if scene.current.None? then Err(IncompleteState)
    else if MapSum(scene.current.value) > MAX_U256 then Err(Arithmetic)
    else Add(MapSum(scene.current.value), scene.additional, Arithmetic)
  }

  /** Ranked evidence of one observation. */
  function Evidences(scene: Scene, settings: Settings, memory: Memory): Result<seq<Evidence>> {
    var direct :- DirectAssets(scene);
    var collected :- Collect(scene, settings, direct, memory.smoothed, memory.block != scene.number, scene.listed);
    Ok(Rank(collected))
  }

  /** Memory with the smoothed rates and the block of this observation. */
  function Noted(scene: Scene, memory: Memory, ranked: seq<Evidence>): Memory {
    var rates := memory.(smoothed := StoredRates(ranked));
    if memory.block != scene.number then rates.(block := scene.number, timestamp := scene.timestamp) else rates
  }

  function Adopt(memory: Memory, selected: seq<MarketId>): Result<Memory> {
    if memory.generation == MAX_U64 then Err(Arithmetic)
    else Ok(memory.(selected := selected, pending := [], since := None, generation := memory.generation + 1))
  }

  /** The pending list after a proposal that differs from the selection. */
  function Await(memory: Memory, proposed: seq<MarketId>, now: U64): Memory {
    if memory.pending != proposed then memory.(pending := proposed, since := Some(now)) else memory
  }

  /** Membership after a proposal, and whether it may act now rather than wait. */
  function Decide(memory: Memory, ranked: seq<Evidence>, proposed: seq<MarketId>, now: U64, confirmation: U64): Result<(Memory, bool)> {
    if proposed == memory.selected then Ok((memory.(pending := [], since := None), true))
    else if memory.selected != [] && Operational(ranked, memory.selected) then
      var adopted :- Adopt(memory, proposed);
      Ok((adopted, true))
    else
      var waiting := Await(memory, proposed, now);
      if Confirmed(waiting.since, now, confirmation) then
        var adopted :- Adopt(waiting, waiting.pending);
        Ok((adopted, true))
      else Ok((waiting, false))
  }

  function TargetOf(scene: Scene, settings: Settings, ranked: seq<Evidence>, direct: U256, selected: seq<MarketId>): Result<Target>
    requires scene.current.Some?
  {
    var weights :- EffectiveWeights(selected, ranked, settings);
    var targets :- TargetAllocations(selected, direct, weights);
    var score :- Score(scene.current.value, targets, direct);
    Ok(Target(selected, targets, scene.current.value, ranked, direct, score))
  }

  function Proposal(scene: Scene, settings: Settings, memory: Memory): Result<seq<MarketId>> {
    var ranked :- Evidences(scene, settings, memory);
    var direct :- DirectAssets(scene);
    Proposed(ranked, direct, scene.current.value, scene.minimums, memory.selected, settings)
  }

  /** `observe_top_k_target`. */
  function Observe(scene: Scene, settings: Settings, memory: Memory): Result<Observation> {
    var ranked :- Evidences(scene, settings, memory);
    var direct :- DirectAssets(scene);
    var noted := Noted(scene, memory, ranked);
    var proposed :- Proposed(ranked, direct, scene.current.value, scene.minimums, memory.selected, settings);
    if |proposed| < 3 then Ok(Observation(None, Some(InsufficientEligibleMarkets), noted))
    else
      var decided :- Decide(noted, ranked, proposed, scene.timestamp, settings.confirmation);
      if !decided.1 then Ok(Observation(None, Some(TopSetUnconfirmed), decided.0))
      else
        var target :- TargetOf(scene, settings, ranked, direct, decided.0.selected);
        Ok(Observation(Some(target), None, decided.0))
  }

  // ---------------------------------------------------------------- observing twice

  lemma {:induction false} StoredRatesHold(evidence: seq<Evidence>)
    requires DistinctEvidence(evidence)
    ensures Holds(StoredRates(evidence), evidence)
    decreases |evidence|
  {
    if evidence != [] {
      var front, last := evidence[..|evidence| - 1], evidence[|evidence| - 1];
      StoredRatesHold(front);
      forall e | e in evidence
        ensures e.market in StoredRates(evidence) && StoredRates(evidence)[e.market] == e.smoothedRate
      {
        var i :| 0 <= i < |evidence| && evidence[i] == e;
        if i < |evidence| - 1 { assert front[i] in front; }
      }
    }
  }

  lemma EvidencesRanked(scene: Scene, settings: Settings, memory: Memory)
    requires DistinctListed(scene.listed) && Evidences(scene, settings, memory).Ok?
    ensures DistinctEvidence(Evidences(scene, settings, memory).value) && Ranked(Evidences(scene, settings, memory).value)
  {
    hide Collect, Rank;
    var direct := DirectAssets(scene).value;
    CollectDistinct(scene, settings, direct, memory.smoothed, memory.block != scene.number, scene.listed);
    RankSorts(Collect(scene, settings, direct, memory.smoothed, memory.block != scene.number, scene.listed).value);
  }

  lemma EvidencesAgain(scene: Scene, settings: Settings, memory: Memory, later: Memory)
    requires DistinctListed(scene.listed) && Evidences(scene, settings, memory).Ok?
    requires later.block == scene.number && later.smoothed == StoredRates(Evidences(scene, settings, memory).value)
    ensures Evidences(scene, settings, later) == Evidences(scene, settings, memory)
  {
    hide Collect, Rank, StoredRates;
    var direct, first := DirectAssets(scene).value, memory.block != scene.number;
    var collected := Collect(scene, settings, direct, memory.smoothed, first, scene.listed).value;
    CollectDistinct(scene, settings, direct, memory.smoothed, first, scene.listed);
    RankSorts(collected);
    StoredRatesHold(Rank(collected));
    CollectAgain(scene, settings, direct, memory.smoothed, first, scene.listed, later.smoothed);
  }

  /** A second observation of the same scene changes nothing: memory, target and reason are the same through the
      insufficient, unchanged, waiting, confirmed and replaced branches. */
  lemma ObserveTwice(scene: Scene, settings: Settings, memory: Memory)
    requires DistinctListed(scene.listed) && Observe(scene, settings, memory).Ok?
    ensures Observe(scene, settings, Observe(scene, settings, memory).value.next) == Observe(scene, settings, memory)
  {
    hide Evidences, DirectAssets, Proposed, StoredRates, TargetOf, Decide;
    var o := Observe(scene, settings, memory).value;
    var ranked, direct := Evidences(scene, settings, memory).value, DirectAssets(scene).value;
    CurrentKnown(scene);
    EvidencesRanked(scene, settings, memory);
    var p := Proposed(ranked, direct, scene.current.value, scene.minimums, memory.selected, settings).value;
    if |ranked| < 3 {
      FewPropose(ranked, direct, scene.current.value, scene.minimums, memory.selected, settings);
    } else {
      ProposedShape(ranked, direct, scene.current.value, scene.minimums, memory.selected, settings);
      if |p| >= 3 { DecideTwice(Noted(scene, memory, ranked), ranked, p, scene.timestamp, settings.confirmation); }
    }
    EvidencesAgain(scene, settings, memory, o.next);
  }

  /** Deciding again changes nothing: with the same proposal while the selection stays, and with the adopted list
      once it has been adopted. */
  lemma DecideTwice(m: Memory, ranked: seq<Evidence>, p: seq<MarketId>, now: U64, confirmation: U64)
    requires Decide(m, ranked, p, now, confirmation).Ok?
    ensures var d := Decide(m, ranked, p, now, confirmation).value;
            && d.0.block == m.block && d.0.smoothed == m.smoothed
            && (d.0.selected == m.selected || d.0.selected == p)
            && Decide(d.0, ranked, if d.0.selected == m.selected then p else d.0.selected, now, confirmation) == Ok(d)
  {
    hide Operational;
  }

  lemma CurrentKnown(scene: Scene)
    requires DirectAssets(scene).Ok?
    ensures scene.current.Some?
  {
  }

  lemma FewPropose(ranked: seq<Evidence>, direct: U256, current: map<MarketId, U256>, minimums: map<MarketId, U256>,
                   selected: seq<MarketId>, settings: Settings)
    requires |ranked| < 3
    ensures Proposed(ranked, direct, current, minimums, selected, settings) == Ok([])
  {
  }

  // ---------------------------------------------------------------- runs of observations

  /** A failed observation leaves the durable memory as it was. */
  function Advance(settings: Settings, memory: Memory, scene: Scene): Memory {
    var o := Observe(scene, settings, memory);
    if o.Ok? then o.value.next else memory
  }

  function MemoryAfter(settings: Settings, scenes: seq<Scene>): Memory
    decreases |scenes|
  {
    if scenes == [] then EMPTY_MEMORY
    else Advance(settings, MemoryAfter(settings, scenes[..|scenes| - 1]), scenes[|scenes| - 1])
  }

  /** What a successful observation with at least three eligible markets proposes. */
  function Proposes(settings: Settings, memory: Memory, scene: Scene): Option<seq<MarketId>> {
    var p := Proposal(scene, settings, memory);
    if Observe(scene, settings, memory).Ok? && p.Ok? && |p.value| >= 3 then Some(p.value) else None
  }

  function ProposalAt(settings: Settings, scenes: seq<Scene>, k: nat): Option<seq<MarketId>>
    requires k < |scenes|
  {
    Proposes(settings, MemoryAfter(settings, scenes[..k]), scenes[k])
  }

  /** From observation `j` on, every proposal of the run is `list`. */
  ghost predicate Backed(settings: Settings, scenes: seq<Scene>, j: nat, list: seq<MarketId>) {
    && j < |scenes| && ProposalAt(settings, scenes, j) == Some(list)
    && forall k | j <= k < |scenes| :: ProposalAt(settings, scenes, k).Some? ==> ProposalAt(settings, scenes, k).value == list
  }

  ghost predicate Valid(settings: Settings, scenes: seq<Scene>) {
    var m := MemoryAfter(settings, scenes);
    && ProperSelection(m.selected)
    && (m.since.None? ==> m.pending == [])
    && (m.since.Some? ==> m.pending != [] && ProperSelection(m.pending)
                          && exists j: nat | j < |scenes| :: Backed(settings, scenes, j, m.pending) && scenes[j].timestamp == m.since.value)
  }

  /** One observation's effect on membership, in terms of its proposal. */
  ghost predicate Moves(m: Memory, n: Memory, replaced: bool, p: Option<seq<MarketId>>, now: U64, confirmation: U64) {
    if p.None? then n.selected == m.selected && n.pending == m.pending && n.since == m.since && n.generation == m.generation
    else if p.value == m.selected then n.selected == m.selected && n.pending == [] && n.since == None && n.generation == m.generation
    else
      var since := if m.pending == p.value then m.since else Some(now);
      if replaced || Confirmed(since, now, confirmation) then
        n.selected == p.value && n.pending == [] && n.since == None && n.generation == m.generation + 1
      else n.selected == m.selected && n.pending == p.value && n.since == since && n.generation == m.generation
  }

  /** A selected market has left the eligible evidence. */
  ghost predicate Replaced(settings: Settings, memory: Memory, scene: Scene) {
    var ranked := Evidences(scene, settings, memory);
    ranked.Ok? && memory.selected != [] && Operational(ranked.value, memory.selected)
  }

  lemma AdvanceMoves(settings: Settings, m: Memory, scene: Scene)
    requires DistinctListed(scene.listed) && ProperSelection(m.selected)
    ensures var p := Proposes(settings, m, scene);
            && Moves(m, Advance(settings, m, scene), Replaced(settings, m, scene), p, scene.timestamp, settings.confirmation)
            && (p.Some? ==> |p.value| >= 3 && ProperSelection(p.value))
  {
    hide Evidences, DirectAssets, Proposed, StoredRates, TargetOf, Operational, ProperSelection, Decide;
    if Observe(scene, settings, m).Ok? {
      var ranked, direct := Evidences(scene, settings, m).value, DirectAssets(scene).value;
      CurrentKnown(scene);
      EvidencesRanked(scene, settings, m);
      if |ranked| >= 3 {
        ProposedShape(ranked, direct, scene.current.value, scene.minimums, m.selected, settings);
        var p := Proposed(ranked, direct, scene.current.value, scene.minimums, m.selected, settings).value;
        if |p| >= 3 { DecideMoves(Noted(scene, m, ranked), ranked, p, scene.timestamp, settings.confirmation); }
      } else {
        FewPropose(ranked, direct, scene.current.value, scene.minimums, m.selected, settings);
      }
    }
  }

  lemma DecideMoves(m: Memory, ranked: seq<Evidence>, p: seq<MarketId>, now: U64, confirmation: U64)
    requires Decide(m, ranked, p, now, confirmation).Ok?
    ensures Moves(m, Decide(m, ranked, p, now, confirmation).value.0, m.selected != [] && Operational(ranked, m.selected), Some(p), now, confirmation)
  {
    hide Operational;
  }

  lemma BackedGrows(settings: Settings, scenes: seq<Scene>, j: nat, list: seq<MarketId>)
    requires scenes != [] && Backed(settings, scenes[..|scenes| - 1], j, list)
    requires var p := ProposalAt(settings, scenes, |scenes| - 1); p.Some? ==> p.value == list
    ensures Backed(settings, scenes, j, list)
  {
    hide Proposes, MemoryAfter;
    var front := scenes[..|scenes| - 1];
    forall k: nat | k < |front|
      ensures ProposalAt(settings, scenes, k) == ProposalAt(settings, front, k)
    {
      assert scenes[..k] == front[..k];
    }
  }

  lemma {:induction false} RunIsValid(settings: Settings, scenes: seq<Scene>)
    requires forall s | s in scenes :: DistinctListed(s.listed)
    ensures Valid(settings, scenes)
    decreases |scenes|
  {
    hide Proposes, Advance, ProposalAt, ProperSelection, Backed, Confirmed;
    if scenes == [] {
      assert ProperSelection([]) by { EmptyIsProper(); }
    } else {
      var front, s := scenes[..|scenes| - 1], scenes[|scenes| - 1];
      RunIsValid(settings, front);
      var m := MemoryAfter(settings, front);
      AdvanceMoves(settings, m, s);
      LastProposal(settings, scenes);
      var n := MemoryAfter(settings, scenes);
      if n.since.Some? { PendingIsBacked(settings, scenes); }
    }
  }

  lemma EmptyIsProper()
    ensures ProperSelection([])
  {
  }

  lemma LastProposal(settings: Settings, scenes: seq<Scene>)
    requires scenes != []
    ensures ProposalAt(settings, scenes, |scenes| - 1) == Proposes(settings, MemoryAfter(settings, scenes[..|scenes| - 1]), scenes[|scenes| - 1])
  {
  }

  /** A proposal that just started is backed by the present observation. */
  lemma BackedStarts(settings: Settings, scenes: seq<Scene>, list: seq<MarketId>)
    requires scenes != [] && ProposalAt(settings, scenes, |scenes| - 1) == Some(list)
    ensures Backed(settings, scenes, |scenes| - 1, list)
  {
    hide ProposalAt;
  }

  lemma PendingIsBacked(settings: Settings, scenes: seq<Scene>)
    requires scenes != [] && Valid(settings, scenes[..|scenes| - 1])
    requires DistinctListed(scenes[|scenes| - 1].listed) && MemoryAfter(settings, scenes).since.Some?
    ensures var n := MemoryAfter(settings, scenes);
            exists j: nat | j < |scenes| :: Backed(settings, scenes, j, n.pending) && scenes[j].timestamp == n.since.value
  {
    hide Proposes, Advance, ProposalAt, ProperSelection, Backed, Confirmed;
    var front, s := scenes[..|scenes| - 1], scenes[|scenes| - 1];
    var m, n := MemoryAfter(settings, front), MemoryAfter(settings, scenes);
    AdvanceMoves(settings, m, s);
    LastProposal(settings, scenes);
    if n.pending == m.pending && n.since == m.since {
      var j: nat :| j < |front| && Backed(settings, front, j, m.pending) && front[j].timestamp == m.since.value;
      BackedGrows(settings, scenes, j, n.pending);
    } else {
      BackedStarts(settings, scenes, n.pending);
    }
  }

  /** The selection changes only when a selected market left the eligible evidence, or when every proposal since
      some observation was exactly the adopted list and the confirmation time has passed since then; each change
      raises the generation by one, and nothing else does. */
  lemma SelectionChanges(settings: Settings, scenes: seq<Scene>)
    requires scenes != [] && forall s | s in scenes :: DistinctListed(s.listed)
    ensures var m, n := MemoryAfter(settings, scenes[..|scenes| - 1]), MemoryAfter(settings, scenes);
            var now := scenes[|scenes| - 1].timestamp;
            && n.generation == m.generation + (if n.selected != m.selected then 1 else 0)
            && ProperSelection(n.selected) && (m.selected != [] ==> n.selected != [])
            && (n.selected != m.selected ==>
                  || Replaced(settings, m, scenes[|scenes| - 1])
                  || exists j: nat | j < |scenes| ::
                       Backed(settings, scenes, j, n.selected) && scenes[j].timestamp + settings.confirmation <= now)
  {
    hide Proposes, Advance, ProposalAt, ProperSelection, Backed, Replaced;
    var front, s := scenes[..|scenes| - 1], scenes[|scenes| - 1];
    RunIsValid(settings, front);
    RunIsValid(settings, scenes);
    var m, n := MemoryAfter(settings, front), MemoryAfter(settings, scenes);
    AdvanceMoves(settings, m, s);
    LastProposal(settings, scenes);
    if n.selected != m.selected && !Replaced(settings, m, s) {
      if m.pending == n.selected && m.since.Some? {
        var j: nat :| j < |front| && Backed(settings, front, j, m.pending) && front[j].timestamp == m.since.value;
        BackedGrows(settings, scenes, j, n.selected);
      } else {
        BackedStarts(settings, scenes, n.selected);
      }
    }
  }

  lemma {:induction false} GenerationCounts(settings: Settings, scenes: seq<Scene>)
    requires forall s | s in scenes :: DistinctListed(s.listed)
    ensures MemoryAfter(settings, scenes).generation == Changes(settings, scenes)
    decreases |scenes|
  {
    hide Advance, Replaced, Backed;
    if scenes != [] {
      GenerationCounts(settings, scenes[..|scenes| - 1]);
      SelectionChanges(settings, scenes);
    }
  }

  /** Number of observations of a run that changed the selection. */
  function Changes(settings: Settings, scenes: seq<Scene>): nat
    decreases |scenes|
  {
    if scenes == [] then 0
    else
      var front := scenes[..|scenes| - 1];
      Changes(settings, front) + if MemoryAfter(settings, scenes).selected != MemoryAfter(settings, front).selected then 1 else 0
  }

  // ---------------------------------------------------------------- the target

  /** A target hands out exactly the direct assets to three or four different markets, and its score is a
      fraction of one. */
  lemma ObservedTarget(scene: Scene, settings: Settings, memory: Memory)
    requires DistinctListed(scene.listed) && Validated(settings) && ProperSelection(memory.selected)
    requires Observe(scene, settings, memory).Ok? && Observe(scene, settings, memory).value.target.Some?
    ensures var o := Observe(scene, settings, memory).value;
            var t := o.target.value;
            && t.selected == o.next.selected && ProperSelection(t.selected) && t.selected != []
            && (forall k :: k in t.targets <==> k in t.selected)
            && MapSum(t.targets) == t.direct && MapSum(t.current) <= t.direct && t.score <= WAD
  {
    hide Evidences, Proposed, StoredRates, EffectiveWeights, TargetAllocations, Score, Operational, MapSum, Validated;
    var o := Observe(scene, settings, memory).value;
    var t := o.target.value;
    var ranked, direct := Evidences(scene, settings, memory).value, DirectAssets(scene).value;
    EvidencesRanked(scene, settings, memory);
    if |ranked| >= 3 { ProposedShape(ranked, direct, scene.current.value, scene.minimums, memory.selected, settings); }
    else { FewPropose(ranked, direct, scene.current.value, scene.minimums, memory.selected, settings); }
    WeightsSum(t.selected, ranked, settings);
    TargetsSum(t.selected, direct, EffectiveWeights(t.selected, ranked, settings).value);
    ScoreWithinWad(scene.current.value, t.targets, direct);
  }

  // ---------------------------------------------------------------- the loops

  /** The gates of `proposed_membership`. */
  method GateMembership(ranked: seq<Evidence>, desired: seq<MarketId>, selected: seq<MarketId>, settings: Settings)
    returns (r: Result<bool>)
    requires |desired| == |selected|
    ensures var incoming, outgoing := Missing(desired, selected), Missing(selected, desired);
            var replaced := ReplacementsAllowed(ranked, incoming, outgoing, settings);
            r == if |incoming| != |outgoing| then Ok(false)
                 else if replaced.Err? || !replaced.value then replaced
                 else PromotionsAllowed(ranked, desired, selected, 0, settings)
  {
    hide Compared;
    var incoming, outgoing := Missing(desired, selected), Missing(selected, desired);
    if |incoming| != |outgoing| { return Ok(false); }
    for k := 0 to |incoming|
      invariant ReplacementsAllowed(ranked, incoming, outgoing, settings) ==
                ReplacementsAllowed(ranked, incoming[k..], outgoing[k..], settings)
    {
      assert incoming[k..][0] == incoming[k] && incoming[k..][1..] == incoming[k + 1..];
      assert outgoing[k..][0] == outgoing[k] && outgoing[k..][1..] == outgoing[k + 1..];
      var allowed := Compared(ranked, incoming[k], outgoing[k], settings);
      if allowed.Err? { return Err(allowed.error); }
      if !allowed.value { return Ok(false); }
    }
    for index := 0 to |desired|
      invariant PromotionsAllowed(ranked, desired, selected, 0, settings) == PromotionsAllowed(ranked, desired, selected, index, settings)
    {
      var at := IndexOf(selected, desired[index]);
      if at.None? || at.value <= index { continue; }
      var allowed := Compared(ranked, desired[index], selected[index], settings);
      if allowed.Err? { return Err(allowed.error); }
      if !allowed.value { return Ok(false); }
    }
    return Ok(true);
  }

  /** `proposed_membership`. */
  method ProposeMembership(ranked: seq<Evidence>, direct: U256, current: map<MarketId, U256>, minimums: map<MarketId, U256>,
                           selected: seq<MarketId>, settings: Settings) returns (r: Result<seq<MarketId>>)
    ensures r == Proposed(ranked, direct, current, minimums, selected, settings)
  {
    hide Desired, ReplacementsAllowed, PromotionsAllowed;
    if |ranked| < 3 { return Ok([]); }
    var desired := Desired(ranked, direct, current, minimums, settings);
    if desired.Err? { return Err(desired.error); }
    if selected == [] || Operational(ranked, selected) || |selected| != |desired.value| { return desired; }
    var allowed := GateMembership(ranked, desired.value, selected, settings);
    if allowed.Err? { return Err(allowed.error); }
    return Ok(if allowed.value then desired.value else selected);
  }

  function JoinEvidence(front: seq<Evidence>, rest: Result<seq<Evidence>>): Result<seq<Evidence>> {
    if rest.Err? then Err(rest.error) else Ok(front + rest.value)
  }

  lemma JoinEvidenceStep(front: seq<Evidence>, e: Evidence, rest: Result<seq<Evidence>>)
    ensures JoinEvidence(front + [e], rest) == JoinEvidence(front, JoinEvidence([e], rest))
  {
    if rest.Ok? { assert (front + [e]) + rest.value == front + ([e] + rest.value); }
  }

  /** The rates as the loop leaves them: new ones for the evidence, old ones for markets still to come. */
  ghost predicate RatesDuring(before: map<MarketId, U256>, now: map<MarketId, U256>, evidence: seq<Evidence>, rest: seq<Listed>) {
    && Holds(now, evidence)
    && forall l | l in rest :: (l.market in now <==> l.market in before) && (l.market in now ==> now[l.market] == before[l.market])
  }

  /** The evidence loop, which advances the smoothed rates as it goes. */
  method CollectEvidence(scene: Scene, settings: Settings, direct: U256, smoothed: map<MarketId, U256>, first: bool)
    returns (r: Result<seq<Evidence>>, rates: map<MarketId, U256>)
    requires DistinctListed(scene.listed)
    ensures r == Collect(scene, settings, direct, smoothed, first, scene.listed)
    ensures r.Ok? ==> Holds(rates, r.value)
  {
    hide ProbeOne, Holds;
    rates := smoothed;
    var evidence: seq<Evidence> := [];
    assert scene.listed[0..] == scene.listed;
    assert JoinEvidence([], Collect(scene, settings, direct, smoothed, first, scene.listed)) ==
           Collect(scene, settings, direct, smoothed, first, scene.listed) by {
      JoinNoEvidence(Collect(scene, settings, direct, smoothed, first, scene.listed));
    }
    NothingHeld(rates);
    for i := 0 to |scene.listed|
      invariant Collect(scene, settings, direct, smoothed, first, scene.listed) ==
                JoinEvidence(evidence, Collect(scene, settings, direct, smoothed, first, scene.listed[i..]))
      invariant RatesDuring(smoothed, rates, evidence, scene.listed[i..])
      invariant forall e | e in evidence :: forall l | l in scene.listed[i..] :: e.market != l.market
    {
      var l, rest := scene.listed[i], scene.listed[i + 1..];
      assert scene.listed[i..][0] == l && scene.listed[i..][1..] == rest && l in scene.listed[i..];
      assert forall x | x in rest :: x.market != l.market;
      var probe := ProbeOne(scene, settings, direct, l);
      if probe.Err? { return Err(probe.error), rates; }
      if probe.value.None? { continue; }
      ProbeFacts(scene, settings, direct, l);
      var rate := Smooth(settings, rates, first, probe.value.value);
      if rate.Err? { return Err(rate.error), rates; }
      var e := EvidenceOf(probe.value.value, rate.value);
      JoinEvidenceStep(evidence, e, Collect(scene, settings, direct, smoothed, first, rest));
      HoldsOneMore(rates, evidence, e);
      rates := rates[l.market := rate.value];
      evidence := evidence + [e];
    }
    r := Ok(evidence);
    assert evidence + [] == evidence;
  }

  lemma JoinNoEvidence(rest: Result<seq<Evidence>>)
    ensures JoinEvidence([], rest) == rest
  {
    if rest.Ok? { assert [] + rest.value == rest.value; }
  }

  lemma NothingHeld(rates: map<MarketId, U256>)
    ensures Holds(rates, [])
  {
  }

  lemma HoldsOneMore(rates: map<MarketId, U256>, evidence: seq<Evidence>, e: Evidence)
    requires Holds(rates, evidence) && forall x | x in evidence :: x.market != e.market
    ensures Holds(rates[e.market := e.smoothedRate], evidence + [e])
  {
  }

  /** `observe_top_k_target`, with its memory updated step by step. */
  method ObserveTopKTarget(scene: Scene, settings: Settings, memory: Option<Memory>) returns (r: Result<Observation>)
    requires DistinctListed(scene.listed)
    ensures r == Observe(scene, settings, if memory.Some? then memory.value else EMPTY_MEMORY)
  {
    hide Collect, StoredRates, FourthJoins, TargetOf;
    var next := if memory.Some? then memory.value else EMPTY_MEMORY;
    ghost var start := next;
    var total := DirectAssets(scene);
    if total.Err? { return Err(total.error); }
    var direct, first := total.value, next.block != scene.number;
    var collected, rates := CollectEvidence(scene, settings, direct, next.smoothed, first);
    if collected.Err? { return Err(collected.error); }
    var ranked := Rank(collected.value);
    RetainedRates(scene, settings, direct, start, collected.value, rates);
    next := next.(smoothed := map m | m in rates && Eligible(ranked, m) :: rates[m]);
    if first { next := next.(block := scene.number, timestamp := scene.timestamp); }
    assert next == Noted(scene, start, ranked);
    var proposed := ProposeMembership(ranked, direct, scene.current.value, scene.minimums, next.selected, settings);
    if proposed.Err? { return Err(proposed.error); }
    if |proposed.value| < 3 { return Ok(Observation(None, Some(InsufficientEligibleMarkets), next)); }
    var decided := Decide(next, ranked, proposed.value, scene.timestamp, settings.confirmation);
    if decided.Err? { return Err(decided.error); }
    next := decided.value.0;
    if !decided.value.1 { return Ok(Observation(None, Some(TopSetUnconfirmed), next)); }
    var target := TargetOf(scene, settings, ranked, direct, next.selected);
    if target.Err? { return Err(target.error); }
    return Ok(Observation(Some(target.value), None, next));
  }

  /** Dropping the markets without evidence leaves exactly the stored rates. */
  lemma RetainedRates(scene: Scene, settings: Settings, direct: U256, start: Memory, evidence: seq<Evidence>, rates: map<MarketId, U256>)
    requires DistinctListed(scene.listed) && Holds(rates, evidence)
    requires Collect(scene, settings, direct, start.smoothed, start.block != scene.number, scene.listed) == Ok(evidence)
    ensures (map m | m in rates && Eligible(Rank(evidence), m) :: rates[m]) == StoredRates(Rank(evidence))
  {
    hide Collect;
    CollectDistinct(scene, settings, direct, start.smoothed, start.block != scene.number, scene.listed);
    RankSorts(evidence);
    var ranked := Rank(evidence);
    StoredRatesHold(ranked);
    StoredKeys(ranked);
    forall m: MarketId | Eligible(ranked, m)
      ensures m in rates && m in StoredRates(ranked) && rates[m] == StoredRates(ranked)[m]
    {
      var i :| 0 <= i < |ranked| && ranked[i].market == m;
      assert ranked[i] in ranked && ranked[i] in evidence;
    }
  }

  lemma {:induction false} StoredKeys(evidence: seq<Evidence>)
    ensures forall m :: m in StoredRates(evidence) <==> Eligible(evidence, m)
    decreases |evidence|
  {
    if evidence != [] {
      var front, last := evidence[..|evidence| - 1], evidence[|evidence| - 1];
      StoredKeys(front);
      forall m: MarketId
        ensures m in StoredRates(evidence) <==> Eligible(evidence, m)
      {
        if Eligible(front, m) {
          var i :| 0 <= i < |front| && front[i].market == m;
          assert evidence[i].market == m;
        }
        if Eligible(evidence, m) {
          var i :| 0 <= i < |evidence| && evidence[i].market == m;
          if i < |front| { assert front[i].market == m; }
        }
        if m == last.market { assert evidence[|evidence| - 1].market == m; }
      }
    }
  }
}
