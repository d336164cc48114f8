/**
 The rate-signal episode: a frozen direction with a cumulative movement budget that survives confirmation,
 release, completion and reorganisation.

 `Apply` gives the value of an episode after one operation, including what a failing operation leaves behind.
 Class `RateSignalEpisode` is the mutable object and is proved to follow it.
 */
module Episodes {
  import opened Checked

  type Hash = nat
  type Market = nat

  datatype Block = Block(number: U64, hash: Hash, parent: Hash, timestamp: U64)
  datatype Event = Event(transaction: Hash, block: Block)
  datatype Branch = Portfolio | Controllable
  datatype Phase = Detecting | Immediate | Persistent | Complete
  datatype StopReason =
    | TargetReached | ConfigOrTopologyChanged | DirectionChange | ExpiredStalled | BrokenObservation | HigherPriorityPlan
  datatype EpisodeError =
    | InvalidDirection | InvalidBudget | BudgetExceeded | DirectionChanged | AlreadyComplete
    | NonConsecutiveObservation | ObservationOverflow

  datatype Episode = Episode(
    phase: Phase,
    stop: Option<StopReason>,
    branch: Branch,
    detection: Block,
    confirmation: Option<Block>,
    last: Option<Block>,
    observations: U64,
    configRevision: Hash,
    topologyRevision: Hash,
    evaluation: set<Market>,
    controllable: set<Market>,
    sources: set<Market>,
    destinations: set<Market>,
    baseline: U256,
    immediateBudget: U256,
    confirmed: U256,
    pending: U256,
    events: seq<Event>,
    startedAt: U64,
    expiresAt: U64)

  /** What an operation answers; `flag` is the boolean some operations return. */
  datatype Answer = Done(flag: bool) | Failed(error: EpisodeError)
  datatype Step = Step(next: Episode, answer: Answer)
  datatype Started = Started(episode: Episode) | Refused(error: EpisodeError)

  // ---------------------------------------------------------------- operations

  function Start(branch: Branch, detection: Block, configRevision: Hash, topologyRevision: Hash,
                 evaluation: set<Market>, controllable: set<Market>, sources: set<Market>, destinations: set<Market>, startedAt: U64, expiresAt: U64): Started {
    if sources == {} || destinations == {} || !(sources !! destinations) || expiresAt <= startedAt
    then Refused(InvalidDirection)
    else Started(Episode(Detecting, None, branch, detection, None, Some(detection), 1, configRevision, topologyRevision,
                         evaluation, controllable, sources, destinations, 0, 0, 0, 0, [], startedAt, expiresAt))
  }

  function ConfirmShort(e: Episode, block: Block, baseline: U256): Step {
    if e.phase.Complete? then Step(e, Failed(AlreadyComplete))
    else if !e.phase.Detecting? || baseline == 0 then Step(e, Failed(InvalidBudget))
    else Step(e.(baseline := baseline, immediateBudget := baseline, confirmation := Some(block), last := Some(block),
                 phase := Immediate), Done(true))
  }

  function Previous(e: Episode): Block { if e.last.Some? then e.last.value else e.detection }

  /** Whether a new observation cannot follow the previous one. */
  predicate Breaks(previous: Block, block: Block) {
    || block.number <= previous.number
    || block.timestamp < previous.timestamp
    || (block.number == Min(previous.number + 1, MAX_U64) && block.parent != previous.hash)
  }

  function ObserveShort(e: Episode, block: Block, required: U64, baseline: U256): Step {
    if e.phase.Complete? then Step(e, Failed(AlreadyComplete))
    else if !e.phase.Detecting? then Step(e, Done(true))
    else if e.observations >= Max(required, 1) then ConfirmShort(e, block, baseline)
    else if block == Previous(e) then Step(e, Done(false))
    else if Breaks(Previous(e), block) then Step(e, Failed(NonConsecutiveObservation))
    else
      var moved := e.(last := Some(block));
      if block.number < e.detection.number || block.number - e.detection.number == MAX_U64
      then Step(moved, Failed(ObservationOverflow))
      else
        var counted := moved.(observations := block.number - e.detection.number + 1);
        if counted.observations >= Max(required, 1) then ConfirmShort(counted, block, baseline)
        else Step(counted, Done(false))
  }

  function Unlocked(e: Episode): U256 {
    match e.phase
    case Detecting => 0
    case Complete => 0
    case Immediate => e.immediateBudget
    case Persistent => e.baseline
  }

  function Remaining(maximum: U256, e: Episode): Option<U256> {
    if e.confirmed + e.pending <= maximum then Some(maximum - e.confirmed - e.pending) else None
  }

  function AvailableBudget(e: Episode): Option<U256> { Remaining(Unlocked(e), e) }

  function RemainingBudget(e: Episode): Option<U256> { Remaining(e.baseline, e) }

  function Reserve(e: Episode, movement: U256): Step {
    if AvailableBudget(e).None? || movement > AvailableBudget(e).value || e.pending + movement > MAX_U256
    then Step(e, Failed(BudgetExceeded))
    else Step(e.(pending := e.pending + movement), Done(true))
  }

  function Release(e: Episode, movement: U256): Step {
    if movement > e.pending then Step(e, Failed(BudgetExceeded))
    else Step(e.(pending := e.pending - movement), Done(true))
  }

  function ConfirmPending(e: Episode, movement: U256): Step {
    if movement > e.pending then Step(e, Failed(BudgetExceeded))
    else
      var taken := e.(pending := e.pending - movement);
      if e.confirmed + movement > MAX_U256 then Step(taken, Failed(BudgetExceeded))
      else Step(taken.(confirmed := e.confirmed + movement), Done(true))
  }

  function Reopen(e: Episode, movement: U256, budgetBefore: U256): Step {
    if movement > e.confirmed then Step(e, Failed(BudgetExceeded))
    else
      var taken := e.(confirmed := e.confirmed - movement);
      if e.pending + movement > MAX_U256 then Step(taken, Failed(BudgetExceeded))
      else
        var moved := taken.(pending := e.pending + movement);
        if moved.confirmed > e.immediateBudget then Step(moved, Failed(BudgetExceeded))
        else Step(moved.(phase := if budgetBefore <= e.immediateBudget - moved.confirmed then Immediate else Persistent,
                         stop := None), Done(true))
  }

  function Unlock(e: Episode): Step {
    if e.phase.Complete? then Step(e, Failed(AlreadyComplete)) else Step(e.(phase := Persistent), Done(true))
  }

  predicate Recorded(events: seq<Event>, transaction: Hash) {
    exists i | 0 <= i < |events| :: events[i].transaction == transaction
  }

  predicate Follows(last: Block, block: Block) {
    && block.number >= last.number
    && (block.number == last.number ==> block.hash == last.hash)
    && block.timestamp >= last.timestamp
  }

  function RecordEvent(e: Episode, event: Event): Step {
    if e.phase.Complete? then Step(e, Failed(AlreadyComplete))
    else if e.confirmation.None? || event.block.number <= e.confirmation.value.number
    then Step(e, Failed(NonConsecutiveObservation))
    else if Recorded(e.events, event.transaction) then Step(e, Done(false))
    else if e.events != [] && !Follows(e.events[|e.events| - 1].block, event.block)
    then Step(e, Failed(NonConsecutiveObservation))
    else Step(e.(events := e.events + [event]), Done(true))
  }

  predicate Survives(ancestor: Block, event: Event) {
    event.block.number < ancestor.number || (event.block.number == ancestor.number && event.block.hash == ancestor.hash)
  }

  function Retained(events: seq<Event>, ancestor: Block): seq<Event> {
    if events == [] then []
    else (if Survives(ancestor, events[0]) then [events[0]] else []) + Retained(events[1..], ancestor)
  }

  datatype Op =
    | OpConfirmShort(block: Block, baseline: U256)
    | OpObserve(block: Block, required: U64, baseline: U256)
    | OpReserve(movement: U256)
    | OpRelease(movement: U256)
    | OpConfirm(movement: U256)
    | OpReopen(movement: U256, budgetBefore: U256)
    | OpUnlock
    | OpRecord(event: Event)
    | OpRewind(ancestor: Block)
    | OpComplete(reason: StopReason)

  function Apply(e: Episode, op: Op): Step {
    match op
    case OpConfirmShort(block, baseline) => ConfirmShort(e, block, baseline)
    case OpObserve(block, required, baseline) => ObserveShort(e, block, required, baseline)
    case OpReserve(movement) => Reserve(e, movement)
    case OpRelease(movement) => Release(e, movement)
    case OpConfirm(movement) => ConfirmPending(e, movement)
    case OpReopen(movement, budgetBefore) => Reopen(e, movement, budgetBefore)
    case OpUnlock => Unlock(e)
    case OpRecord(event) => RecordEvent(e, event)
    case OpRewind(ancestor) => Step(e.(events := Retained(e.events, ancestor)), Done(true))
    case OpComplete(reason) => Step(e.(phase := Complete, stop := Some(reason)), Done(true))
  }

  function Run(e: Episode, ops: seq<Op>): Episode
    decreases |ops|
  {
    if ops == [] then e else Run(Apply(e, ops[0]).next, ops[1..])
  }

  // ---------------------------------------------------------------- what every operation keeps

  predicate EventsOrdered(events: seq<Event>) {
    forall i, j | 0 <= i < j < |events| ::
      events[i].transaction != events[j].transaction && Follows(events[i].block, events[j].block)
  }

  /** While detecting, the count never exceeds the block span from detection to the last observation. */
  predicate Spanned(e: Episode) {
    e.last.Some? && 1 <= e.observations <= e.last.value.number - e.detection.number + 1
  }

  ghost predicate Valid(e: Episode) {
    && e.confirmed + e.pending <= e.baseline
    && e.immediateBudget == e.baseline
    && (e.phase.Complete? <==> e.stop.Some?)
    && (e.baseline == 0 <==> e.confirmation.None?)
    && (e.phase.Detecting? ==> e.baseline == 0 && Spanned(e))
    && EventsOrdered(e.events)
    && (forall event | event in e.events :: e.confirmation.Some? && event.block.number > e.confirmation.value.number)
    && e.sources != {} && e.destinations != {} && e.sources !! e.destinations && e.startedAt < e.expiresAt
  }

  lemma StartIsValid(branch: Branch, detection: Block, configRevision: Hash, topologyRevision: Hash,
                     evaluation: set<Market>, controllable: set<Market>, sources: set<Market>, destinations: set<Market>, startedAt: U64, expiresAt: U64)
    ensures var s := Start(branch, detection, configRevision, topologyRevision, evaluation, controllable, sources, destinations, startedAt, expiresAt);
            && (s.Started? <==> sources != {} && destinations != {} && sources !! destinations && startedAt < expiresAt)
            && (s.Started? ==> Valid(s.episode))
  {
  }

  /** What no operation touches, and the frozen baseline. */
  predicate Frozen(e: Episode, n: Episode) {
    && n.branch == e.branch && n.detection == e.detection
    && n.configRevision == e.configRevision && n.topologyRevision == e.topologyRevision
    && n.evaluation == e.evaluation && n.controllable == e.controllable
    && n.sources == e.sources && n.destinations == e.destinations
    && n.startedAt == e.startedAt && n.expiresAt == e.expiresAt
    && (e.baseline != 0 ==> n.baseline == e.baseline && n.confirmation == e.confirmation)
  }

  /** One step of the filtering loop. */
  lemma RetainedStep(event: Event, rest: seq<Event>, kept: seq<Event>, ancestor: Block)
    ensures kept + Retained([event] + rest, ancestor) ==
            (if Survives(ancestor, event) then kept + [event] else kept) + Retained(rest, ancestor)
  {
    assert ([event] + rest)[0] == event && ([event] + rest)[1..] == rest;
    assert kept + ([event] + Retained(rest, ancestor)) == (kept + [event]) + Retained(rest, ancestor);
  }

  lemma {:induction false} NoneSurvive(events: seq<Event>, ancestor: Block)
    requires forall event | event in events :: !Survives(ancestor, event)
    ensures Retained(events, ancestor) == []
    decreases |events|
  {
    if events != [] { NoneSurvive(events[1..], ancestor); }
  }

  /** A rewind keeps exactly the events on the surviving chain, and they are a prefix of the record. */
  lemma {:induction false} RetainedKeepsOrder(events: seq<Event>, ancestor: Block)
    requires EventsOrdered(events)
    ensures Retained(events, ancestor) <= events
    ensures forall event :: event in Retained(events, ancestor) <==> event in events && Survives(ancestor, event)
    decreases |events|
  {
    if events != [] {
      assert EventsOrdered(events[1..]);
      RetainedKeepsOrder(events[1..], ancestor);
      if !Survives(ancestor, events[0]) {
        forall event | event in events[1..]
          ensures !Survives(ancestor, event)
        {
          var k :| 0 <= k < |events[1..]| && events[1..][k] == event;
          assert Follows(events[0].block, events[k + 1].block);
        }
        NoneSurvive(events[1..], ancestor);
      }
      assert events == [events[0]] + events[1..];
    }
  }

  lemma RecordKeepsValid(e: Episode, event: Event)
    requires Valid(e)
    ensures Valid(RecordEvent(e, event).next)
  {
    var n := RecordEvent(e, event).next;
    if n.events != e.events {
      forall i | 0 <= i < |e.events|
        ensures e.events[i].transaction != event.transaction && Follows(e.events[i].block, event.block)
      {
        if i < |e.events| - 1 { assert Follows(e.events[i].block, e.events[|e.events| - 1].block); }
      }
    }
  }

  lemma ConfirmationKeepsValid(e: Episode, op: Op)
    requires Valid(e) && (op.OpObserve? || op.OpConfirmShort?)
    ensures Valid(Apply(e, op).next) && Frozen(e, Apply(e, op).next)
    ensures Apply(e, op).next.confirmed == e.confirmed && Apply(e, op).next.pending == e.pending
  {
    hide EventsOrdered;
  }

  lemma BudgetKeepsValid(e: Episode, op: Op)
    requires Valid(e) && !op.OpObserve? && !op.OpConfirmShort? && !op.OpRecord? && !op.OpRewind?
    ensures Valid(Apply(e, op).next) && Frozen(e, Apply(e, op).next)
    ensures Apply(e, op).answer.Failed? ==>
              Apply(e, op).next.confirmed == e.confirmed && Apply(e, op).next.pending == e.pending
  {
    hide EventsOrdered;
  }

  /** Every operation, successful or not, keeps the invariant and the frozen fields; a failing operation leaves
      both movement counters as they were. */
  lemma StepKeepsValid(e: Episode, op: Op)
    requires Valid(e)
    ensures Valid(Apply(e, op).next) && Frozen(e, Apply(e, op).next)
    ensures Apply(e, op).answer.Failed? ==>
              Apply(e, op).next.confirmed == e.confirmed && Apply(e, op).next.pending == e.pending
  {
    if op.OpRecord? {
      RecordKeepsValid(e, op.event);
    } else if op.OpRewind? {
      RetainedKeepsOrder(e.events, op.ancestor);
      hide Retained;
    } else if op.OpObserve? || op.OpConfirmShort? {
      ConfirmationKeepsValid(e, op);
    } else {
      BudgetKeepsValid(e, op);
    }
  }

  lemma {:induction false} RunKeepsValid(e: Episode, ops: seq<Op>)
    requires Valid(e)
    ensures Valid(Run(e, ops)) && Frozen(e, Run(e, ops))
    decreases |ops|
  {
    hide Valid, Apply;
    if ops != [] {
      StepKeepsValid(e, ops[0]);
      RunKeepsValid(Apply(e, ops[0]).next, ops[1..]);
    }
  }

  // ---------------------------------------------------------------- whole runs

  lemma {:induction false} RunSplits(e: Episode, first: seq<Op>, rest: seq<Op>)
    ensures Run(e, first + rest) == Run(Run(e, first), rest)
    decreases |first|
  {
    hide Apply;
    if first == [] {
      assert first + rest == rest;
    } else {
      assert (first + rest)[1..] == first[1..] + rest;
      RunSplits(Apply(e, first[0]).next, first[1..], rest);
    }
  }

  /** A baseline is frozen at most once: whatever follows, it and the confirmation block stay. */
  lemma BaselineFrozenOnce(e: Episode, first: seq<Op>, rest: seq<Op>)
    requires Valid(e) && Run(e, first).baseline != 0
    ensures Run(e, first + rest).baseline == Run(e, first).baseline
    ensures Run(e, first + rest).confirmation == Run(e, first).confirmation
  {
    hide Valid;
    RunSplits(e, first, rest);
    RunKeepsValid(e, first);
    RunKeepsValid(Run(e, first), rest);
  }

  /** Assets reserved and not released by the successful operations of a run. */
  function NetReserved(e: Episode, ops: seq<Op>): int
    decreases |ops|
  {
    if ops == [] then 0
    else
      var step := Apply(e, ops[0]);
      (if step.answer.Failed? then 0
       else match ops[0] case OpReserve(m) => m case OpRelease(m) => 0 - m case _ => 0) +
      NetReserved(step.next, ops[1..])
  }

  lemma StepMovesCounters(e: Episode, op: Op)
    requires Valid(e)
    ensures var step := Apply(e, op);
            step.next.confirmed + step.next.pending - e.confirmed - e.pending ==
            if step.answer.Failed? then 0
            else match op case OpReserve(m) => m case OpRelease(m) => 0 - m case _ => 0
  {
    hide EventsOrdered, Follows, Retained;
  }

  /** Confirmation, reopening and completion only move assets between the counters: their sum is what was
      reserved and not released, and it never passes the frozen baseline. */
  lemma {:induction false} RunConservesMovement(e: Episode, ops: seq<Op>)
    requires Valid(e)
    ensures Run(e, ops).confirmed + Run(e, ops).pending == e.confirmed + e.pending + NetReserved(e, ops)
    ensures Run(e, ops).confirmed + Run(e, ops).pending <= Run(e, ops).baseline
    decreases |ops|
  {
    if ops != [] {
      hide Apply;
      StepKeepsValid(e, ops[0]);
      StepMovesCounters(e, ops[0]);
      RunConservesMovement(Apply(e, ops[0]).next, ops[1..]);
    }
  }

  // ---------------------------------------------------------------- budgets

  /** The unlocked budget of a reachable episode is the whole remainder of its baseline in both active phases,
      and unavailable exactly when a closed episode has moved anything. */
  lemma AvailableExactly(e: Episode)
    requires Valid(e)
    ensures RemainingBudget(e) == Some(e.baseline - e.confirmed - e.pending)
    ensures e.phase.Immediate? || e.phase.Persistent? ==> AvailableBudget(e) == RemainingBudget(e)
    ensures e.phase.Detecting? || e.phase.Complete? ==>
              AvailableBudget(e) == if e.confirmed + e.pending == 0 then Some(0) else None
  {
  }

  /** Persistent confirmation unlocks nothing beyond what immediate optimisation already had. */
  lemma UnlockAddsNothing(e: Episode)
    requires Valid(e) && e.phase.Immediate?
    ensures AvailableBudget(Unlock(e).next) == AvailableBudget(e)
  {
  }

  /** A movement within the available budget is always reserved. */
  lemma ReserveWithinBudget(e: Episode, movement: U256)
    requires Valid(e)
    ensures Reserve(e, movement).answer.Done? <==>
            (movement == 0 && e.confirmed + e.pending == 0) ||
            ((e.phase.Immediate? || e.phase.Persistent?) && movement <= e.baseline - e.confirmed - e.pending)
  {
  }

  /** A reservation that is confirmed and then orphaned is pending again. */
  lemma ReopenUndoesConfirm(e: Episode, movement: U256, budgetBefore: U256)
    requires Valid(e) && Reserve(e, movement).answer.Done?
    ensures var reserved := Reserve(e, movement).next;
            var confirmed := ConfirmPending(reserved, movement);
            var reopened := Reopen(confirmed.next, movement, budgetBefore);
            && confirmed.answer.Done? && reopened.answer.Done?
            && reopened.next == reserved.(phase := reopened.next.phase, stop := None)
  {
    StepKeepsValid(e, OpReserve(movement));
    StepKeepsValid(Reserve(e, movement).next, OpConfirm(movement));
  }

  /** The recorded budget separates the two phases only through movements confirmed since the reservation:
      reopening ends in the persistent phase exactly when the confirmed total, without this movement, has
      outgrown the confirmed and pending totals at the reservation. */
  lemma ReopenPhase(atReservation: Episode, e: Episode, movement: U256)
    requires Valid(atReservation) && Valid(e) && e.baseline == atReservation.baseline
    requires atReservation.phase.Immediate? || atReservation.phase.Persistent?
    requires movement <= e.confirmed
    ensures var reopened := Reopen(e, movement, AvailableBudget(atReservation).value);
            && reopened.answer.Done? && (reopened.next.phase.Immediate? || reopened.next.phase.Persistent?)
            && (reopened.next.phase.Persistent? <==>
                e.confirmed - movement > atReservation.confirmed + atReservation.pending)
  {
  }

  /** So a movement reserved in the persistent phase and orphaned at once reopens as immediate. */
  lemma PersistentReopensAsImmediate(e: Episode, movement: U256)
    requires Valid(e) && e.phase.Persistent? && Reserve(e, movement).answer.Done?
    ensures var confirmed := ConfirmPending(Reserve(e, movement).next, movement).next;
            Reopen(confirmed, movement, AvailableBudget(e).value).next.phase.Immediate?
  {
    StepKeepsValid(e, OpReserve(movement));
    StepKeepsValid(Reserve(e, movement).next, OpConfirm(movement));
  }

  /** Without the invariant a failing confirmation can drop the reservation: exactly when the confirmed total
      would overflow. */
  lemma TornConfirmation(e: Episode, movement: U256)
    ensures var step := ConfirmPending(e, movement);
            step.answer.Failed? && (step.next.pending != e.pending || step.next.confirmed != e.confirmed) <==>
            0 < movement <= e.pending && e.confirmed + movement > MAX_U256
  {
  }

  // ---------------------------------------------------------------- confirmation evidence

  /** Short confirmation takes a canonical span of at least the required length. */
  lemma ShortConfirmationSpan(e: Episode, block: Block, required: U64, baseline: U256)
    requires Valid(e) && e.phase.Detecting? && ObserveShort(e, block, required, baseline).answer == Done(true)
    ensures var n := ObserveShort(e, block, required, baseline).next;
            && n.phase.Immediate? && n.baseline == baseline != 0 && n.confirmation == Some(block)
            && (Max(required, 1) <= block.number - e.detection.number + 1 ||
                Max(required, 1) <= e.last.value.number - e.detection.number + 1)
  {
  }

  /** An observation that moves the detection forward is strictly higher, not earlier, and linked to the previous
      one when it is its direct successor. */
  lemma ObservationFollows(e: Episode, block: Block, required: U64, baseline: U256)
    requires Valid(e) && e.phase.Detecting? && e.observations < Max(required, 1)
    requires ObserveShort(e, block, required, baseline).answer.Done?
    ensures var n := ObserveShort(e, block, required, baseline).next;
            && n.last == Some(block)
            && (block != e.last.value ==>
                  && e.last.value.number < block.number && e.last.value.timestamp <= block.timestamp
                  && (block.number == e.last.value.number + 1 ==> block.parent == e.last.value.hash)
                  && (n.phase.Detecting? ==> n.observations == block.number - e.detection.number + 1 < Max(required, 1)))
  {
  }

  predicate IndependentReady(e: Episode, minimumEvents: nat, minimumSpan: U64) {
    && e.events != []
    && |e.events| <= 0xFFFF_FFFF && |e.events| >= minimumEvents
    && SaturatingSub(e.events[|e.events| - 1].block.timestamp, e.events[0].block.timestamp) >= minimumSpan
  }

  /** First and last event delimit the evidence: when it is ready, that many different transactions after the
      confirmation block lie between them, and no two events are further apart. */
  lemma ReadyMeansSpread(e: Episode, minimumEvents: nat, minimumSpan: U64, i: nat, j: nat)
    requires Valid(e) && IndependentReady(e, minimumEvents, minimumSpan) && i < j < |e.events|
    ensures e.confirmation.Some? && e.events[i].block.number > e.confirmation.value.number
    ensures e.events[i].transaction != e.events[j].transaction
    ensures 0 <= e.events[j].block.timestamp - e.events[i].block.timestamp
    ensures e.events[j].block.timestamp - e.events[i].block.timestamp <=
            e.events[|e.events| - 1].block.timestamp - e.events[0].block.timestamp
    ensures minimumSpan <= e.events[|e.events| - 1].block.timestamp - e.events[0].block.timestamp
  {
    assert Follows(e.events[0].block, e.events[|e.events| - 1].block);
    if i > 0 { assert Follows(e.events[0].block, e.events[i].block); }
    if j < |e.events| - 1 { assert Follows(e.events[j].block, e.events[|e.events| - 1].block); }
    assert e.events[i] in e.events;
  }

  predicate DirectionAllowed(e: Episode, branch: Branch, sources: set<Market>, destinations: set<Market>) {
    branch == e.branch && sources <= e.sources && destinations <= e.destinations && sources !! destinations
  }

  /** Over a whole run no accepted candidate ever drains a market another accepted candidate fills. */
  lemma DirectionsNeverCross(e: Episode, first: seq<Op>, rest: seq<Op>, branch: Branch,
                             sources: set<Market>, destinations: set<Market>, laterSources: set<Market>, laterDestinations: set<Market>)
    requires Valid(e)
    requires DirectionAllowed(Run(e, first), branch, sources, destinations)
    requires DirectionAllowed(Run(e, first + rest), branch, laterSources, laterDestinations)
    ensures sources !! laterDestinations && laterSources !! destinations
  {
    RunSplits(e, first, rest);
    RunKeepsValid(e, first);
    RunKeepsValid(Run(e, first), rest);
  }

  // ---------------------------------------------------------------- the mutable episode

  class RateSignalEpisode {
    const branch: Branch
    const detection: Block
    const configRevision: Hash
    const topologyRevision: Hash
    const evaluation: set<Market>
    const controllable: set<Market>
    const sources: set<Market>
    const destinations: set<Market>
    const startedAt: U64
    const expiresAt: U64
    var phase: Phase
    var stop: Option<StopReason>
    var confirmation: Option<Block>
    var last: Option<Block>
    var observations: U64
    var baseline: U256
    var immediateBudget: U256
    var confirmed: U256
    var pending: U256
    var events: seq<Event>

    function Value(): Episode
      reads this
    {
      Episode(phase, stop, branch, detection, confirmation, last, observations, configRevision, topologyRevision,
              evaluation, controllable, sources, destinations, baseline, immediateBudget, confirmed, pending, events, startedAt, expiresAt)
    }

    constructor (branch: Branch, detection: Block, configRevision: Hash, topologyRevision: Hash,
                 evaluation: set<Market>, controllable: set<Market>, sources: set<Market>, destinations: set<Market>, startedAt: U64, expiresAt: U64)
      requires sources != {} && destinations != {} && sources !! destinations && startedAt < expiresAt
      ensures Started(Value()) ==
              Start(branch, detection, configRevision, topologyRevision, evaluation, controllable, sources, destinations, startedAt, expiresAt)
    {
      this.branch, this.detection, this.configRevision, this.topologyRevision := branch, detection, configRevision, topologyRevision;
      this.evaluation, this.controllable := evaluation, controllable;
      this.sources, this.destinations, this.startedAt, this.expiresAt := sources, destinations, startedAt, expiresAt;
      phase, stop, confirmation, last, observations := Detecting, None, None, Some(detection), 1;
      baseline, immediateBudget, confirmed, pending, events := 0, 0, 0, 0, [];
    }

    method ConfirmShortly(block: Block, movement: U256) returns (answer: Answer)
      modifies this
      ensures Step(Value(), answer) == Apply(old(Value()), OpConfirmShort(block, movement))
    {
      if phase.Complete? { return Failed(AlreadyComplete); }
      if !phase.Detecting? || movement == 0 { return Failed(InvalidBudget); }
      baseline := movement;
      immediateBudget := movement;
      confirmation := Some(block);
      last := Some(block);
      phase := Immediate;
      return Done(true);
    }

    method ObserveShortConfirmation(block: Block, required: U64, movement: U256) returns (answer: Answer)
      modifies this
      ensures Step(Value(), answer) == Apply(old(Value()), OpObserve(block, required, movement))
    {
      if phase.Complete? { return Failed(AlreadyComplete); }
      if !phase.Detecting? { return Done(true); }
      var span := Max(required, 1);
      if observations >= span {
        answer := ConfirmShortly(block, movement);
        return;
      }
      var previous := if last.Some? then last.value else detection;
      if block == previous { return Done(false); }
      if Breaks(previous, block) { return Failed(NonConsecutiveObservation); }
      last := Some(block);
      if block.number < detection.number || block.number - detection.number == MAX_U64 { return Failed(ObservationOverflow); }
      observations := block.number - detection.number + 1;
      if observations >= span {
        answer := ConfirmShortly(block, movement);
        return;
      }
      return Done(false);
    }

    method ReservePending(movement: U256) returns (answer: Answer)
      modifies `pending
      ensures Step(Value(), answer) == Apply(old(Value()), OpReserve(movement))
    {
      var available := AvailableBudget(Value());
      if available.None? || movement > available.value { return Failed(BudgetExceeded); }
      if pending + movement > MAX_U256 { return Failed(BudgetExceeded); }
      pending := pending + movement;
      return Done(true);
    }

    method ReleasePending(movement: U256) returns (answer: Answer)
      modifies `pending
      ensures Step(Value(), answer) == Apply(old(Value()), OpRelease(movement))
    {
      if movement > pending { return Failed(BudgetExceeded); }
      pending := pending - movement;
      return Done(true);
    }

    method ConfirmPendingMovement(movement: U256) returns (answer: Answer)
      modifies `pending, `confirmed
      ensures Step(Value(), answer) == Apply(old(Value()), OpConfirm(movement))
    {
      if movement > pending { return Failed(BudgetExceeded); }
      pending := pending - movement;
      if confirmed + movement > MAX_U256 { return Failed(BudgetExceeded); }
      confirmed := confirmed + movement;
      return Done(true);
    }

    method ReopenConfirmed(movement: U256, budgetBefore: U256) returns (answer: Answer)
      modifies this
      ensures Step(Value(), answer) == Apply(old(Value()), OpReopen(movement, budgetBefore))
    {
      if movement > confirmed { return Failed(BudgetExceeded); }
      confirmed := confirmed - movement;
      if pending + movement > MAX_U256 { return Failed(BudgetExceeded); }
      pending := pending + movement;
      if confirmed > immediateBudget { return Failed(BudgetExceeded); }
      phase := if budgetBefore <= immediateBudget - confirmed then Immediate else Persistent;
      stop := None;
      return Done(true);
    }

    method UnlockPersistent() returns (answer: Answer)
      modifies `phase
      ensures Step(Value(), answer) == Apply(old(Value()), OpUnlock)
    {
      if phase.Complete? { return Failed(AlreadyComplete); }
      phase := Persistent;
      return Done(true);
    }

    method RecordIndependentEvent(event: Event) returns (answer: Answer)
      modifies `events
      ensures Step(Value(), answer) == Apply(old(Value()), OpRecord(event))
    {
      if phase.Complete? { return Failed(AlreadyComplete); }
      if confirmation.None? || event.block.number <= confirmation.value.number { return Failed(NonConsecutiveObservation); }
      for i := 0 to |events|
        invariant forall k | 0 <= k < i :: events[k].transaction != event.transaction
      {
        if events[i].transaction == event.transaction { return Done(false); }
      }
      if events != [] && !Follows(events[|events| - 1].block, event.block) { return Failed(NonConsecutiveObservation); }
      events := events + [event];
      return Done(true);
    }

    method RewindIndependentEvents(ancestor: Block)
      modifies `events
      ensures Step(Value(), Done(true)) == Apply(old(Value()), OpRewind(ancestor))
    {
      var kept: seq<Event> := [];
      ghost var all := events;
      assert all[0..] == all;
      for i := 0 to |events|
        invariant events == all
        invariant Retained(all, ancestor) == kept + Retained(all[i..], ancestor)
      {
        assert all[i..] == [all[i]] + all[i + 1..];
        RetainedStep(all[i], all[i + 1..], kept, ancestor);
        if Survives(ancestor, events[i]) { kept := kept + [events[i]]; }
      }
      assert all[|all|..] == [] && kept + [] == kept;
      events := kept;
    }

    method CompleteEpisode(reason: StopReason)
      modifies `phase, `stop
      ensures Step(Value(), Done(true)) == Apply(old(Value()), OpComplete(reason))
    {
      phase := Complete;
      stop := Some(reason);
    }
  }
}
