/** What every accepted action list keeps: cash, locks, the cap ledger, cap admission and the loss bound. */
module SimulationRuns {
  import opened Checked
  import opened SharePool
  import opened Market
  import opened Simulation
  import opened Ordering
  import V1 = VaultV1Adapter

  // ---------------------------------------------------------------- cash and locks

  /** Every market lends the vault's own asset. */
  predicate OneToken(env: Env) {
    forall m | m in env.markets :: env.markets[m].loanToken == env.asset
  }

  /** Signed change of idle assets requested by an action. */
  function Inflow(a: Action): int {
    if a.Deallocation? then a.requested else 0 - a.requested
  }

  function NetInflow(actions: seq<Action>): int {
    if actions == [] then 0 else Inflow(actions[0]) + NetInflow(actions[1..])
  }

  /** One action moves exactly its requested assets between the vault and Morpho. */
  lemma StepMovesCash(env: Env, s: State, a: Action)
    requires OneToken(env) && s.locked <= s.idle && Step(env, s, a).Ok?
    ensures var n := Step(env, s, a).value;
            && n.locked == s.locked <= n.idle == s.idle + Inflow(a)
            && env.asset in s.shared && env.asset in n.shared
            && n.idle + n.shared[env.asset] == s.idle + s.shared[env.asset]
  {
    hide Market.Deallocate, Market.Allocate, V1.Deallocate, V1.Allocate, FirstTotal, DeallocateCaps, AllocateCaps, Admitted;
  }

  /** Idle assets move by the signed sum of the requests and keep covering the untouched locks. */
  lemma {:induction false} RunMovesIdle(env: Env, s: State, actions: seq<Action>, allocating: bool, touched: set<PositionKey>)
    requires OneToken(env) && s.locked <= s.idle && Simulate(env, s, actions, allocating, touched).Ok?
    ensures var n := Simulate(env, s, actions, allocating, touched).value; n.locked == s.locked <= n.idle == s.idle + NetInflow(actions)
    decreases |actions|
  {
    hide Step;
    if actions != [] {
      StepMovesCash(env, s, actions[0]);
      RunMovesIdle(env, Step(env, s, actions[0]).value, actions[1..], actions[0].Allocation?, touched + {actions[0].position});
    }
  }

  /** At the end of every accepted list, hence at every prefix: idle plus Morpho's balance is unchanged,
      idle moved by the signed sum of the requests, and locks are never touched. */
  lemma {:induction false} RunConservesCash(env: Env, s: State, actions: seq<Action>, allocating: bool, touched: set<PositionKey>)
    requires OneToken(env) && s.locked <= s.idle && env.asset in s.shared
    requires Simulate(env, s, actions, allocating, touched).Ok?
    ensures var n := Simulate(env, s, actions, allocating, touched).value;
            && n.locked == s.locked <= n.idle == s.idle + NetInflow(actions)
            && env.asset in n.shared
            && n.idle + n.shared[env.asset] == s.idle + s.shared[env.asset]
    decreases |actions|
  {
    hide Step;
    if actions != [] {
      var next := Step(env, s, actions[0]).value;
      StepMovesCash(env, s, actions[0]);
      RunConservesCash(env, next, actions[1..], actions[0].Allocation?, touched + {actions[0].position});
    }
    RunMovesIdle(env, s, actions, allocating, touched);
  }

  /** Every prefix of an accepted list is accepted, so each statement about runs holds at each prefix. */
  lemma {:induction false} PrefixAccepted(env: Env, s: State, actions: seq<Action>, k: nat, allocating: bool, touched: set<PositionKey>)
    requires k <= |actions| && Simulate(env, s, actions, allocating, touched).Ok?
    ensures Simulate(env, s, actions[..k], allocating, touched).Ok?
    decreases k
  {
    hide Step;
    if k > 0 {
      var next := Step(env, s, actions[0]).value;
      assert actions[..k][1..] == actions[1..][..k - 1];
      PrefixAccepted(env, next, actions[1..], k - 1, actions[0].Allocation?, touched + {actions[0].position});
    }
  }

  // ---------------------------------------------------------------- the cap ledger

  /** The position keys are iterated once each, and a position's three caps differ. */
  predicate WellFormed(env: Env, s: State) {
    && AllDifferent(env.positionKeys)
    && (forall k | k in s.positions :: k in env.positionKeys)
    && (forall k | k in env.positionKeys :: k in s.positions)
    && (forall k | k in s.positions :: AllDifferent(s.positions[k].caps))
  }

  /** Allocation recorded by the positions that a cap covers. */
  function Recorded(positions: map<PositionKey, Position>, keys: seq<PositionKey>, c: CapRef): int
    requires forall k | k in keys :: k in positions
  {
    if keys == [] then 0
    else (if c in positions[keys[0]].caps then positions[keys[0]].recorded else 0) + Recorded(positions, keys[1..], c)
  }

  lemma {:induction false} RecordedUpdate(positions: map<PositionKey, Position>, keys: seq<PositionKey>, c: CapRef, k: PositionKey, p: Position)
    requires forall k' | k' in keys :: k' in positions
    requires AllDifferent(keys) && k in positions && p.caps == positions[k].caps
    ensures Recorded(positions[k := p], keys, c) ==
            Recorded(positions, keys, c) + if k in keys && c in p.caps then p.recorded - positions[k].recorded else 0
  {
    if keys != [] {
      assert AllDifferent(keys[1..]);
      RecordedUpdate(positions, keys[1..], c, k, p);
      assert keys == [keys[0]] + keys[1..];
    }
  }

  lemma {:induction false} DeallocateCapsEffect(ledger: map<CapRef, U256>, caps: seq<CapRef>, delta: I256, c: CapRef)
    requires DeallocateCaps(ledger, caps, delta).Ok? && AllDifferent(caps) && c in ledger
    ensures var r := DeallocateCaps(ledger, caps, delta).value;
            c in r && r[c] == ledger[c] + if c in caps then delta else 0
    decreases |caps|
  {
    if caps != [] {
      assert AllDifferent(caps[1..]) && caps == [caps[0]] + caps[1..];
      DeallocateCapsEffect(ledger[caps[0] := ApplyDelta(ledger[caps[0]], delta).value], caps[1..], delta, c);
    }
  }

  lemma {:induction false} AllocateCapsEffect(states: map<CapRef, CapState>, ledger: map<CapRef, U256>, caps: seq<CapRef>, delta: I256, total: U256, c: CapRef)
    requires AllocateCaps(states, ledger, caps, delta, total).Ok? && AllDifferent(caps) && c in ledger
    ensures var r := AllocateCaps(states, ledger, caps, delta, total).value;
            c in r && r[c] == ledger[c] + if c in caps then delta else 0
    decreases |caps|
  {
    hide Admitted;
    if caps != [] {
      assert AllDifferent(caps[1..]) && caps == [caps[0]] + caps[1..];
      AllocateCapsEffect(states, ledger[caps[0] := ApplyDelta(ledger[caps[0]], delta).value], caps[1..], delta, total, c);
    }
  }

  /** A cap that no liquidity-adapter action books. */
  predicate DirectCap(env: Env, s: State, c: CapRef) {
    s.liquidity.Some? ==> c != LiquidityCap(env, s.liquidity.value)
  }

  /** Part of a cap's ledger value that its direct positions do not account for. */
  function Unattributed(env: Env, s: State, c: CapRef): int
    requires WellFormed(env, s) && c in s.ledger
  {
    s.ledger[c] - Recorded(s.positions, env.positionKeys, c)
  }

  /** Positions keep their identity, caps and mode through a step; the liquidity adapter keeps its cap. */
  predicate SameShape(s: State, n: State) {
    && n.positions.Keys == s.positions.Keys
    && (forall k | k in s.positions ::
          && n.positions[k].caps == s.positions[k].caps
          && n.positions[k].market == s.positions[k].market
          && n.positions[k].adapter == s.positions[k].adapter
          && n.positions[k].mode == s.positions[k].mode)
    && n.liquidity.Some? == s.liquidity.Some?
    && (s.liquidity.Some? ==> n.liquidity.value.adapterCap == s.liquidity.value.adapterCap)
    && n.ledger.Keys == s.ledger.Keys
  }

  lemma {:induction false} DeallocateCapsKeys(ledger: map<CapRef, U256>, caps: seq<CapRef>, delta: I256)
    requires DeallocateCaps(ledger, caps, delta).Ok?
    ensures DeallocateCaps(ledger, caps, delta).value.Keys == ledger.Keys
    decreases |caps|
  {
    if caps != [] {
      DeallocateCapsKeys(ledger[caps[0] := ApplyDelta(ledger[caps[0]], delta).value], caps[1..], delta);
    }
  }

  lemma {:induction false} AllocateCapsKeys(states: map<CapRef, CapState>, ledger: map<CapRef, U256>, caps: seq<CapRef>, delta: I256, total: U256)
    requires AllocateCaps(states, ledger, caps, delta, total).Ok?
    ensures AllocateCaps(states, ledger, caps, delta, total).value.Keys == ledger.Keys
    decreases |caps|
  {
    hide Admitted;
    if caps != [] {
      AllocateCapsKeys(states, ledger[caps[0] := ApplyDelta(ledger[caps[0]], delta).value], caps[1..], delta, total);
    }
  }

  lemma StepKeepsShape(env: Env, s: State, a: Action)
    requires Step(env, s, a).Ok?
    ensures SameShape(s, Step(env, s, a).value)
  {
    hide Market.Deallocate, Market.Allocate, V1.Deallocate, V1.Allocate, FirstTotal, DeallocateCaps, AllocateCaps, Admitted;
    if !IsLiquidityKey(env, a.position) {
      var p := FindPosition(env, s, a).value;
      var target := FindTarget(env, s, p).value;
      if a.Deallocation? {
        var t := Market.Deallocate(target.market, p.shares, a.requested, p.recorded, s.shared[target.info.loanToken], target.info.fee).value;
        DeallocateCapsKeys(s.ledger, p.caps, t.allocationChange);
      } else {
        var t := Market.Allocate(target.market, p.shares, a.requested, p.recorded, target.info.fee).value;
        AllocateCapsKeys(env.caps, s.ledger, p.caps, t.allocationChange, FirstTotal(env, s).value);
      }
    }
  }

  lemma DeallocationKeepsAttribution(env: Env, s: State, a: Action, c: CapRef)
    requires WellFormed(env, s) && c in s.ledger && DirectCap(env, s, c) && Step(env, s, a).Ok?
    requires !IsLiquidityKey(env, a.position) && a.Deallocation?
    ensures var n := Step(env, s, a).value; c in n.ledger && Unattributed(env, n, c) == Unattributed(env, s, c)
  {
    hide Market.Deallocate, Market.Allocate, V1.Deallocate, V1.Allocate, FirstTotal, DeallocateCaps, AllocateCaps, Admitted;
    var p := FindPosition(env, s, a).value;
    var target := FindTarget(env, s, p).value;
    var balance := s.shared[target.info.loanToken];
    var t := Market.Deallocate(target.market, p.shares, a.requested, p.recorded, balance, target.info.fee).value;
    Market.DeallocateEffect(target.market, p.shares, a.requested, p.recorded, balance, target.info.fee);
    DeallocateCapsEffect(s.ledger, p.caps, t.allocationChange, c);
    RecordedUpdate(s.positions, env.positionKeys, c, a.position, Moved(p, t));
  }

  lemma AllocationKeepsAttribution(env: Env, s: State, a: Action, c: CapRef)
    requires WellFormed(env, s) && c in s.ledger && DirectCap(env, s, c) && Step(env, s, a).Ok?
    requires !IsLiquidityKey(env, a.position) && a.Allocation?
    ensures var n := Step(env, s, a).value; c in n.ledger && Unattributed(env, n, c) == Unattributed(env, s, c)
  {
    hide Market.Deallocate, Market.Allocate, V1.Deallocate, V1.Allocate, FirstTotal, DeallocateCaps, AllocateCaps, Admitted;
    var p := FindPosition(env, s, a).value;
    var target := FindTarget(env, s, p).value;
    var t := Market.Allocate(target.market, p.shares, a.requested, p.recorded, target.info.fee).value;
    Market.AllocateEffect(target.market, p.shares, a.requested, p.recorded, target.info.fee);
    AllocateCapsEffect(env.caps, s.ledger, p.caps, t.allocationChange, FirstTotal(env, s).value, c);
    RecordedUpdate(s.positions, env.positionKeys, c, a.position, Moved(p, t));
  }

  /** A step books the same delta in the ledger and in the position, for each of the position's caps. */
  lemma StepKeepsAttribution(env: Env, s: State, a: Action, c: CapRef)
    requires WellFormed(env, s) && c in s.ledger && DirectCap(env, s, c) && Step(env, s, a).Ok?
    ensures var n := Step(env, s, a).value;
            WellFormed(env, n) && c in n.ledger && DirectCap(env, n, c) && Unattributed(env, n, c) == Unattributed(env, s, c)
  {
    hide Market.Deallocate, Market.Allocate, V1.Deallocate, V1.Allocate, FirstTotal, DeallocateCaps, AllocateCaps, Admitted;
    StepKeepsShape(env, s, a);
    if !IsLiquidityKey(env, a.position) {
      if a.Deallocation? { DeallocationKeepsAttribution(env, s, a, c); } else { AllocationKeepsAttribution(env, s, a, c); }
    }
  }

  /** Through every accepted run, a direct cap's ledger value minus the allocations recorded by the
      positions it covers is constant. */
  lemma {:induction false} RunKeepsAttribution(env: Env, s: State, actions: seq<Action>, allocating: bool, touched: set<PositionKey>, c: CapRef)
    requires WellFormed(env, s) && c in s.ledger && DirectCap(env, s, c)
    requires Simulate(env, s, actions, allocating, touched).Ok?
    ensures var n := Simulate(env, s, actions, allocating, touched).value;
            WellFormed(env, n) && c in n.ledger && Unattributed(env, n, c) == Unattributed(env, s, c)
    decreases |actions|
  {
    hide Step, Unattributed, WellFormed, DirectCap;
    if actions != [] {
      var next := Step(env, s, actions[0]).value;
      StepKeepsAttribution(env, s, actions[0], c);
      RunKeepsAttribution(env, next, actions[1..], actions[0].Allocation?, touched + {actions[0].position}, c);
    }
  }

  /** The liquidity adapter's cap holds exactly what the adapter records, and no direct position lists it. */
  predicate InStep(env: Env, s: State) {
    s.liquidity.Some? ==>
      var c := LiquidityCap(env, s.liquidity.value);
      && c in s.ledger && s.ledger[c] == s.liquidity.value.recordedAllocation
      && forall k | k in s.positions :: c !in s.positions[k].caps
  }

  lemma StepKeepsInStep(env: Env, s: State, a: Action)
    requires WellFormed(env, s) && InStep(env, s) && Step(env, s, a).Ok?
    ensures WellFormed(env, Step(env, s, a).value) && InStep(env, Step(env, s, a).value)
  {
    StepKeepsShape(env, s, a);
    if s.liquidity.Some? {
      if IsLiquidityKey(env, a.position) {
        AdapterStepKeepsInStep(env, s, a);
      } else {
        DirectStepSpares(env, s, a, LiquidityCap(env, s.liquidity.value));
      }
    }
    hide Step;
  }

  lemma AdapterStepKeepsInStep(env: Env, s: State, a: Action)
    requires s.liquidity.Some? && LiquidityCap(env, s.liquidity.value) in s.ledger
    requires IsLiquidityKey(env, a.position) && Step(env, s, a).Ok?
    ensures var n := Step(env, s, a).value;
            && n.positions == s.positions && n.liquidity.Some?
            && LiquidityCap(env, n.liquidity.value) == LiquidityCap(env, s.liquidity.value)
            && LiquidityCap(env, n.liquidity.value) in n.ledger
            && n.ledger[LiquidityCap(env, n.liquidity.value)] == n.liquidity.value.recordedAllocation
  {
    hide V1.Deallocate, V1.Allocate, FirstTotal, Admitted, ApplyDelta;
  }

  /** A direct action leaves a cap alone that its position does not list, and the liquidity adapter with it. */
  lemma DirectStepSpares(env: Env, s: State, a: Action, c: CapRef)
    requires WellFormed(env, s) && Step(env, s, a).Ok? && !IsLiquidityKey(env, a.position)
    requires c in s.ledger && forall k | k in s.positions :: c !in s.positions[k].caps
    ensures var n := Step(env, s, a).value; c in n.ledger && n.ledger[c] == s.ledger[c] && n.liquidity == s.liquidity
  {
    hide Market.Deallocate, Market.Allocate, FirstTotal, DeallocateCaps, AllocateCaps, Admitted;
    var p := FindPosition(env, s, a).value;
    var target := FindTarget(env, s, p).value;
    if a.Deallocation? {
      var balance := s.shared[target.info.loanToken];
      var t := Market.Deallocate(target.market, p.shares, a.requested, p.recorded, balance, target.info.fee).value;
      DeallocateCapsEffect(s.ledger, p.caps, t.allocationChange, c);
    } else {
      var t := Market.Allocate(target.market, p.shares, a.requested, p.recorded, target.info.fee).value;
      AllocateCapsEffect(env.caps, s.ledger, p.caps, t.allocationChange, FirstTotal(env, s).value, c);
    }
  }

  /** Through every accepted run the liquidity adapter's cap keeps holding exactly what the adapter records. */
  lemma {:induction false} RunKeepsInStep(env: Env, s: State, actions: seq<Action>, allocating: bool, touched: set<PositionKey>)
    requires WellFormed(env, s) && InStep(env, s) && Simulate(env, s, actions, allocating, touched).Ok?
    ensures InStep(env, Simulate(env, s, actions, allocating, touched).value)
    decreases |actions|
  {
    hide Step, WellFormed, InStep;
    if actions != [] {
      StepKeepsInStep(env, s, actions[0]);
      RunKeepsInStep(env, Step(env, s, actions[0]).value, actions[1..], actions[0].Allocation?, touched + {actions[0].position});
    }
  }

  // ---------------------------------------------------------------- cap admission

  /** The caps that an action allocates into; a deallocation has none. */
  function CapsAllocated(env: Env, s: State, a: Action): set<CapRef> {
    if a.Deallocation? then {}
    else if IsLiquidityKey(env, a.position) then
      if s.liquidity.Some? then {LiquidityCap(env, s.liquidity.value)} else {}
    else if a.position in s.positions then set c | c in s.positions[a.position].caps
    else {}
  }

  function AllCapsAllocated(env: Env, s: State, actions: seq<Action>): set<CapRef> {
    if actions == [] then {} else CapsAllocated(env, s, actions[0]) + AllCapsAllocated(env, s, actions[1..])
  }

  /** Every cap in the set passes admission against the one total fixed before the first allocation. */
  predicate AllAdmitted(env: Env, s: State, cs: set<CapRef>) {
    forall c | c in cs ::
      && s.firstTotal.Some? && c in s.ledger && c in env.caps
      && Admitted(env.caps[c], s.firstTotal.value, s.ledger[c])
  }

  lemma {:induction false} AllocateCapsAdmits(states: map<CapRef, CapState>, ledger: map<CapRef, U256>, caps: seq<CapRef>, delta: I256, total: U256, c: CapRef)
    requires AllocateCaps(states, ledger, caps, delta, total).Ok?
    ensures var r := AllocateCaps(states, ledger, caps, delta, total).value;
            if c in caps then c in r && c in states && Admitted(states[c], total, r[c])
            else (c in ledger ==> c in r && r[c] == ledger[c])
    decreases |caps|
  {
    hide Admitted;
    if caps != [] {
      var updated := ApplyDelta(ledger[caps[0]], delta).value;
      assert caps == [caps[0]] + caps[1..];
      AllocateCapsAdmits(states, ledger[caps[0] := updated], caps[1..], delta, total, c);
    }
  }

  /** An allocation fixes the total at most once and admits the caps it books without disturbing others. */
  lemma StepAdmits(env: Env, s: State, a: Action, cs: set<CapRef>)
    requires Step(env, s, a).Ok? && AllAdmitted(env, s, cs) && (a.Deallocation? ==> cs == {})
    ensures var n := Step(env, s, a).value;
            && AllAdmitted(env, n, cs + CapsAllocated(env, s, a))
            && (s.firstTotal.Some? ==> n.firstTotal == s.firstTotal)
            && (a.Allocation? ==> n.firstTotal.Some?)
  {
    hide Market.Deallocate, Market.Allocate, V1.Deallocate, V1.Allocate, DeallocateCaps, AllocateCaps, Admitted, AdapterAssets, VaultV2.AccrueParent;
    var n := Step(env, s, a).value;
    if a.Allocation? && !IsLiquidityKey(env, a.position) {
      var p := FindPosition(env, s, a).value;
      var target := FindTarget(env, s, p).value;
      var t := Market.Allocate(target.market, p.shares, a.requested, p.recorded, target.info.fee).value;
      forall c | c in cs + CapsAllocated(env, s, a)
        ensures n.firstTotal.Some? && c in n.ledger && c in env.caps && Admitted(env.caps[c], n.firstTotal.value, n.ledger[c])
      {
        AllocateCapsAdmits(env.caps, s.ledger, p.caps, t.allocationChange, FirstTotal(env, s).value, c);
      }
    }
  }

  lemma {:induction false} SameShapeCaps(env: Env, s: State, n: State, actions: seq<Action>)
    requires SameShape(s, n)
    ensures AllCapsAllocated(env, n, actions) == AllCapsAllocated(env, s, actions)
    decreases |actions|
  {
    if actions != [] { SameShapeCaps(env, s, n, actions[1..]); }
  }

  /** At the end of every accepted run, every cap that any allocation booked passes admission against the
      single, write-once total assets. */
  lemma {:induction false} RunAdmits(env: Env, s: State, actions: seq<Action>, allocating: bool, touched: set<PositionKey>, cs: set<CapRef>)
    requires Simulate(env, s, actions, allocating, touched).Ok?
    requires AllAdmitted(env, s, cs) && (cs != {} ==> allocating)
    ensures var n := Simulate(env, s, actions, allocating, touched).value;
            && AllAdmitted(env, n, cs + AllCapsAllocated(env, s, actions))
            && (s.firstTotal.Some? ==> n.firstTotal == s.firstTotal)
    decreases |actions|
  {
    hide Step, AllAdmitted, SameShape;
    if actions == [] {
      assert cs + AllCapsAllocated(env, s, actions) == cs;
    } else {
      var a := actions[0];
      var next := Step(env, s, a).value;
      StepAdmits(env, s, a, cs);
      StepKeepsShape(env, s, a);
      SameShapeCaps(env, s, next, actions[1..]);
      var cs' := cs + CapsAllocated(env, s, a);
      RunAdmits(env, next, actions[1..], a.Allocation?, touched + {a.position}, cs');
      assert cs + AllCapsAllocated(env, s, actions) == cs' + AllCapsAllocated(env, s, actions[1..]);
    }
  }

  // ---------------------------------------------------------------- losses

  /** The pool an action trades against: its assets and shares with their virtual offsets. */
  function PoolOf(env: Env, s: State, key: PositionKey): Option<(nat, nat)> {
    if IsLiquidityKey(env, key) then
      if s.liquidity.Some? then Some((V1.P(s.liquidity.value), V1.Q(s.liquidity.value))) else None
    else if key in s.positions && s.positions[key].market in s.markets then
      var m := s.markets[s.positions[key].market];
      Some((m.P(), m.Q()))
    else None
  }

  /** The position's cached valuation does not exceed what its shares redeem for now. */
  predicate Valued(env: Env, s: State, key: PositionKey) {
    if IsLiquidityKey(env, key) then
      s.liquidity.Some? ==> s.liquidity.value.realAssets <= V1.RedeemValue(s.liquidity.value)
    else if key in s.positions && s.positions[key].market in s.markets then
      var p, m := s.positions[key], s.markets[s.positions[key].market];
      p.expected <= p.shares * m.P() / m.Q()
    else true
  }

  /** A successful action loses at most the ceiling of its pool's price, and a direct allocation at most
      one asset unit; a cached valuation that other actions left behind only lowers the loss. */
  lemma StepLoss(env: Env, s: State, a: Action)
    requires Step(env, s, a).Ok? && Valued(env, s, a.position)
    ensures var n := Step(env, s, a).value;
            var pool := PoolOf(env, s, a.position);
            && pool.Some? && pool.value.1 > 0
            && s.loss <= n.loss <= s.loss + PriceCeiling(pool.value.0, pool.value.1)
            && (a.Allocation? && !IsLiquidityKey(env, a.position) ==> n.loss <= s.loss + 1)
  {
    hide Market.Deallocate, Market.Allocate, V1.Deallocate, V1.Allocate, V1.RedeemValue, DeallocateCaps, AllocateCaps, Admitted, FirstTotal;
    if IsLiquidityKey(env, a.position) {
      var l := s.liquidity.value;
      if a.Deallocation? { V1.DeallocateEffect(l, a.requested); } else { V1.AllocateEffect(l, a.requested); }
    } else {
      var p := FindPosition(env, s, a).value;
      var target := FindTarget(env, s, p).value;
      if a.Deallocation? {
        DirectWithdrawalLoss(target.market, p.shares, a.requested, p.recorded, s.shared[target.info.loanToken], target.info.fee);
      } else {
        DirectSupplyLoss(target.market, p.shares, a.requested, p.recorded, target.info.fee);
      }
    }
  }

  lemma DirectWithdrawalLoss(m: MarketState, shares: U256, requested: U256, recorded: U256, balance: U256, fee: U256)
    requires Market.Deallocate(m, shares, requested, recorded, balance, fee).Ok?
    ensures var t := Market.Deallocate(m, shares, requested, recorded, balance, fee).value;
            shares * m.P() / m.Q() <= t.expectedAssets + requested + PriceCeiling(m.P(), m.Q())
  {
    hide Market.Deallocate, RefreshRates;
    Market.DeallocateEffect(m, shares, requested, recorded, balance, fee);
    WithdrawLoss(shares, m.P(), m.Q(), requested, Market.Deallocate(m, shares, requested, recorded, balance, fee).value.changedShares);
  }

  /** The adapter's own price check makes the ceiling one whenever assets are supplied. */
  lemma DirectSupplyLoss(m: MarketState, shares: U256, requested: U256, recorded: U256, fee: U256)
    requires requested > 0 && Market.Allocate(m, shares, requested, recorded, fee).Ok?
    ensures m.P() <= m.Q() && PriceCeiling(m.P(), m.Q()) == 1
    ensures shares * m.P() / m.Q() + requested <= Market.Allocate(m, shares, requested, recorded, fee).value.expectedAssets + 1
  {
    hide Market.Allocate, RefreshRates;
    Market.AllocateEffect(m, shares, requested, recorded, fee);
    var minted := Market.Allocate(m, shares, requested, recorded, fee).value.changedShares;
    var p, q := m.P(), m.Q();
    assert p <= q by {
      MulMonotone(requested, minted, p);
      assert requested * p <= requested * q;
      assert p * requested == requested * p && q * requested == requested * q;
      MulCancel(p, q, requested);
    }
    CeilingOfCheapPool(p, q);
    DepositLoss(shares, p, q, requested, minted);
  }

  lemma CeilingOfCheapPool(p: nat, q: nat)
    requires 0 < p <= q
    ensures PriceCeiling(p, q) == 1
  {
    var c := PriceCeiling(p, q);
    if c >= 2 { MulMonotone(2, c, q); }
  }

  /** The pool behind a position is priced at or below one. */
  predicate Cheap(env: Env, s: State, key: PositionKey) {
    var pool := PoolOf(env, s, key);
    pool.Some? ==> pool.value.0 <= pool.value.1
  }

  /** A direct step changes one market, whose price rises or stays and stays at or below one. */
  lemma DirectStepPools(env: Env, s: State, a: Action)
    requires Step(env, s, a).Ok? && !IsLiquidityKey(env, a.position)
    ensures var n := Step(env, s, a).value;
            && a.position in s.positions && n.liquidity == s.liquidity
            && var p, k := s.positions[a.position], s.positions[a.position].market;
               && k in s.markets && k in n.markets
               && n.markets == s.markets[k := n.markets[k]] && n.positions == s.positions[a.position := n.positions[a.position]]
               && n.positions[a.position].market == k
               && PriceKept(s.markets[k], n.markets[k])
               && (s.markets[k].P() <= s.markets[k].Q() ==> n.markets[k].P() <= n.markets[k].Q())
               && n.positions[a.position].expected == n.positions[a.position].shares * n.markets[k].P() / n.markets[k].Q()
  {
    hide Market.Deallocate, Market.Allocate, DeallocateCaps, AllocateCaps, Admitted, FirstTotal, PriceKept;
    var p := FindPosition(env, s, a).value;
    var target := FindTarget(env, s, p).value;
    if a.Deallocation? {
      WithdrawalPool(target.market, p.shares, a.requested, p.recorded, s.shared[target.info.loanToken], target.info.fee);
    } else {
      SupplyPool(target.market, p.shares, a.requested, p.recorded, target.info.fee);
    }
  }

  /** A pool after a transition: price kept, still at or below one if it was, and the owner valued by it. */
  predicate PoolKept(m: MarketState, t: Transition) {
    && PriceKept(m, t.market) && (m.P() <= m.Q() ==> t.market.P() <= t.market.Q())
    && t.expectedAssets == t.internalShares * t.market.P() / t.market.Q()
  }

  lemma WithdrawalPool(m: MarketState, shares: U256, requested: U256, recorded: U256, balance: U256, fee: U256)
    requires Market.Deallocate(m, shares, requested, recorded, balance, fee).Ok?
    ensures PoolKept(m, Market.Deallocate(m, shares, requested, recorded, balance, fee).value)
  {
    hide Market.Deallocate, PriceKept;
    Market.DeallocateEffect(m, shares, requested, recorded, balance, fee);
    DeallocateKeepsPrice(m, shares, requested, recorded, balance, fee);
    var burned := Market.Deallocate(m, shares, requested, recorded, balance, fee).value.changedShares;
    if m.P() <= m.Q() { WithdrawKeepsBelowOne(m.P(), m.Q(), requested, burned); }
  }

  lemma SupplyPool(m: MarketState, shares: U256, requested: U256, recorded: U256, fee: U256)
    requires Market.Allocate(m, shares, requested, recorded, fee).Ok?
    ensures PoolKept(m, Market.Allocate(m, shares, requested, recorded, fee).value)
  {
    hide Market.Allocate, PriceKept;
    Market.AllocateEffect(m, shares, requested, recorded, fee);
    AllocateKeepsPrice(m, shares, requested, recorded, fee);
    var minted := Market.Allocate(m, shares, requested, recorded, fee).value.changedShares;
    if m.P() <= m.Q() { DepositKeepsBelowOne(m.P(), m.Q(), requested, minted); }
  }

  lemma LiquidityStepPools(env: Env, s: State, a: Action)
    requires Step(env, s, a).Ok? && IsLiquidityKey(env, a.position)
    ensures var n := Step(env, s, a).value;
            && n.markets == s.markets && n.positions == s.positions
            && s.liquidity.Some? && n.liquidity.Some?
            && var l, l' := s.liquidity.value, n.liquidity.value;
               && (V1.P(l) <= V1.Q(l) ==> V1.P(l') <= V1.Q(l'))
               && l'.realAssets == V1.RedeemValue(l')
  {
    hide V1.Deallocate, V1.Allocate, Admitted, FirstTotal;
    var l := s.liquidity.value;
    if a.Deallocation? { V1.DeallocateEffect(l, a.requested); } else { V1.AllocateEffect(l, a.requested); }
  }

  lemma StepKeepsPools(env: Env, s: State, a: Action, key: PositionKey)
    requires Step(env, s, a).Ok? && Valued(env, s, key) && Cheap(env, s, key)
    ensures Valued(env, Step(env, s, a).value, key) && Cheap(env, Step(env, s, a).value, key)
  {
    hide Step, PriceKept, V1.RedeemValue;
    if IsLiquidityKey(env, a.position) {
      LiquidityStepPools(env, s, a);
    } else {
      DirectStepPools(env, s, a);
      var n, k := Step(env, s, a).value, s.positions[a.position].market;
      if !IsLiquidityKey(env, key) && key in s.positions && key != a.position && s.positions[key].market == k {
        BystanderValue(s.positions[key].shares, s.markets[k], n.markets[k]);
      }
    }
  }

  lemma BystanderValue(shares: nat, before: MarketState, after: MarketState)
    requires PriceKept(before, after)
    ensures shares * before.P() / before.Q() <= shares * after.P() / after.Q()
  {
    ValueMonotone(shares, before.P(), before.Q(), after.P(), after.Q());
  }

  /** From consistent valuations, a whole plan loses at most one asset unit per action when every pool it
      touches is priced at or below one. */
  lemma {:induction false} RunLoss(env: Env, s: State, actions: seq<Action>, allocating: bool, touched: set<PositionKey>)
    requires Simulate(env, s, actions, allocating, touched).Ok?
    requires forall a | a in actions :: Valued(env, s, a.position) && Cheap(env, s, a.position)
    ensures s.loss <= Simulate(env, s, actions, allocating, touched).value.loss <= s.loss + |actions|
    decreases |actions|
  {
    hide Step, Valued, Cheap;
    if actions != [] {
      var a := actions[0];
      var next := Step(env, s, a).value;
      StepLossInCheapPool(env, s, a);
      forall b | b in actions[1..] ensures Valued(env, next, b.position) && Cheap(env, next, b.position) {
        StepKeepsPools(env, s, a, b.position);
      }
      RunLoss(env, next, actions[1..], a.Allocation?, touched + {a.position});
    }
  }

  lemma StepLossInCheapPool(env: Env, s: State, a: Action)
    requires Step(env, s, a).Ok? && Valued(env, s, a.position) && Cheap(env, s, a.position)
    ensures s.loss <= Step(env, s, a).value.loss <= s.loss + 1
  {
    hide Step, Valued;
    StepLoss(env, s, a);
    var pool := PoolOf(env, s, a.position).value;
    CeilingOfCheapPool(pool.0, pool.1);
  }
}
