/** The simulation object that candidate searches mutate, proved against module Simulation step by step. */
module Simulator {
  import opened Checked
  import opened Market
  import opened VaultV2
  import opened Simulation
  import V1 = VaultV1Adapter

  /** One shared loan-token balance per token, consumed and credited in action order. */
  class SharedTokenLiquidity {
    var remaining: map<Token, U256>

    constructor (start: map<Token, U256>)
      ensures remaining == start
    {
      remaining := start;
    }

    /** Repeated observations of one token must agree; the first stands. */
    method RegisterBalance(token: Token, balance: U256) returns (r: Result<()>)
      modifies this
      ensures match Register(old(remaining), token, balance)
              case Ok(m) => r == Ok(()) && remaining == m
              case Err(e) => r == Err(e) && remaining == old(remaining)
    {
      if token in remaining && remaining[token] != balance { return Err(InconsistentBalance); }
      if token !in remaining { remaining := remaining[token := balance]; }
      return Ok(());
    }

    /** A failed consumption leaves the balance alone. */
    method ConsumeAssets(token: Token, assets: U256) returns (r: Result<U256>)
      modifies this
      ensures match Consume(old(remaining), token, assets)
              case Ok(m) => remaining == m && r == Ok(m[token])
              case Err(e) => r == Err(e) && remaining == old(remaining)
    {
      if token !in remaining { return Err(MissingToken); }
      if remaining[token] < assets { return Err(Exhausted); }
      remaining := remaining[token := remaining[token] - assets];
      return Ok(remaining[token]);
    }

    method CreditAssets(token: Token, assets: U256) returns (r: Result<U256>)
      modifies this
      ensures match Credit(old(remaining), token, assets)
              case Ok(m) => remaining == m && r == Ok(m[token])
              case Err(e) => r == Err(e) && remaining == old(remaining)
    {
      if token !in remaining { return Err(MissingToken); }
      if remaining[token] + assets > MAX_U256 { return Err(Exhausted); }
      remaining := remaining[token := remaining[token] + assets];
      return Ok(remaining[token]);
    }
  }

  class SimulationState {
    var markets: map<MarketId, MarketState>
    var positions: map<PositionKey, Position>
    var liquidityAdapter: Option<V1.LiquidityState>
    var capLedger: map<CapRef, U256>
    var vaultIdle: U256
    var lockedIdle: U256
    var firstTotalAssets: Option<U256>
    const sharedLiquidity: SharedTokenLiquidity
    var actions: seq<ActionProjection>
    var immediateLoss: U256

    /** The value this object stands for. */
    function Value(): State
      reads this, sharedLiquidity
    {
      State(markets, positions, liquidityAdapter, capLedger, vaultIdle, lockedIdle, firstTotalAssets,
            sharedLiquidity.remaining, actions, immediateLoss)
    }

    constructor (start: State)
      ensures Value() == start && fresh(sharedLiquidity)
    {
      markets, positions, liquidityAdapter := start.markets, start.positions, start.liquidity;
      capLedger, vaultIdle, lockedIdle := start.ledger, start.idle, start.locked;
      firstTotalAssets, actions, immediateLoss := start.firstTotal, start.actions, start.loss;
      sharedLiquidity := new SharedTokenLiquidity(start.shared);
    }

    /** Adds a signed delta to each cap in turn, refusing a cap that is already zero. */
    method DeallocateFromCaps(caps: Caps, delta: I256) returns (r: Result<()>)
      modifies this`capLedger
      ensures match DeallocateCaps(old(capLedger), caps, delta)
              case Ok(m) => r == Ok(()) && capLedger == m
              case Err(e) => r == Err(e)
    {
      for i := 0 to 3
        invariant DeallocateCaps(capLedger, caps[i..], delta) == DeallocateCaps(old(capLedger), caps, delta)
      {
        assert caps[i..][0] == caps[i] && caps[i..][1..] == caps[i + 1..];
        if caps[i] !in capLedger { return Err(IncompleteState); }
        if capLedger[caps[i]] == 0 { return Err(InvalidDeallocationCap); }
        var updated := ApplyDelta(capLedger[caps[i]], delta);
        if updated.Err? { return Err(updated.error); }
        capLedger := capLedger[caps[i] := updated.value];
      }
      return Ok(());
    }

    /** Adds a signed delta to each cap in turn, admitting each against the fixed total. */
    method AllocateIntoCaps(env: Env, caps: Caps, delta: I256, total: U256) returns (r: Result<()>)
      modifies this`capLedger
      ensures match AllocateCaps(env.caps, old(capLedger), caps, delta, total)
              case Ok(m) => r == Ok(()) && capLedger == m
              case Err(e) => r == Err(e)
    {
      hide Admitted;
      for i := 0 to 3
        invariant AllocateCaps(env.caps, capLedger, caps[i..], delta, total) == AllocateCaps(env.caps, old(capLedger), caps, delta, total)
      {
        assert caps[i..][0] == caps[i] && caps[i..][1..] == caps[i + 1..];
        if caps[i] !in capLedger { return Err(IncompleteState); }
        var updated := ApplyDelta(capLedger[caps[i]], delta);
        if updated.Err? { return Err(updated.error); }
        if caps[i] !in env.caps { return Err(IncompleteState); }
        if !Admitted(env.caps[caps[i]], total, updated.value) { return Err(AllocationCap); }
        capLedger := capLedger[caps[i] := updated.value];
      }
      return Ok(());
    }

    /** The common tail of both direct actions: market, position, accumulated loss and action record. */
    method BookPosition(action: Action, target: Target, t: Market.Transition, localLoss: U256) returns (r: Result<ActionProjection>)
      modifies this
      ensures match BookDirect(old(Value()), action, target, t, localLoss)
              case Ok(n) => Value() == n && |n.actions| > 0 && r == Ok(n.actions[|n.actions| - 1])
              case Err(e) => r == Err(e)
    {
      markets := markets[target.position.market := t.market];
      positions := positions[action.position := Moved(target.position, t)];
      if immediateLoss + localLoss > MAX_U256 { return Err(Arithmetic); }
      immediateLoss := immediateLoss + localLoss;
      var projection := ActionProjection(action.position, action.requested, t.changedShares, t.expectedAssets,
                                         t.allocationChange, localLoss);
      actions := actions + [projection];
      return Ok(projection);
    }

    /** The common tail of both liquidity-adapter actions. */
    method BookAdapter(action: Action, after: V1.LiquidityState, t: V1.Transition, localLoss: U256) returns (r: Result<ActionProjection>)
      modifies this
      ensures match BookLiquidity(old(Value()), action, after, t, localLoss)
              case Ok(n) => Value() == n && |n.actions| > 0 && r == Ok(n.actions[|n.actions| - 1])
              case Err(e) => r == Err(e)
    {
      liquidityAdapter := Some(after);
      if immediateLoss + localLoss > MAX_U256 { return Err(Arithmetic); }
      immediateLoss := immediateLoss + localLoss;
      var projection := ActionProjection(action.position, action.requested, t.changedMorphoShares, t.realAssets,
                                         t.allocationChange, localLoss);
      actions := actions + [projection];
      return Ok(projection);
    }

    /** Applies one deallocation; on failure the object is discarded, so only the error is promised. */
    method Deallocate(env: Env, action: Action) returns (r: Result<ActionProjection>)
      modifies this, sharedLiquidity
      ensures match StepDeallocation(env, old(Value()), action)
              case Ok(n) => Value() == n && |n.actions| > 0 && r == Ok(n.actions[|n.actions| - 1])
              case Err(e) => r == Err(e)
    {
      hide Market.Deallocate, DeallocateLiquidity, DeallocateCaps, BookDirect, Moved, FindConfigured;
      if !action.Deallocation? || action.requested == 0 { return Err(InvalidAction); }
      if IsLiquidityKey(env, action.position) {
        r := DeallocateFromLiquidity(env, action);
        return;
      }
      var found := FindPosition(env, Value(), action);
      if found.Err? { return Err(found.error); }
      var position := found.value;
      if position.mode.Fixed? || position.mode.SyncRequired? { return Err(PositionMode); }
      if action.adapter !in env.adapters { return Err(IncompleteState); }
      var target := FindTarget(env, Value(), position);
      if target.Err? { return Err(target.error); }
      var token := target.value.info.loanToken;
      if token !in sharedLiquidity.remaining { return Err(MissingToken); }
      var transition := Market.Deallocate(target.value.market, position.shares, action.requested, position.recorded,
                                          sharedLiquidity.remaining[token], target.value.info.fee);
      if transition.Err? { return Err(transition.error); }
      var t := transition.value;
      var booked := DeallocateFromCaps(position.caps, t.allocationChange);
      if booked.Err? { return Err(booked.error); }
      var consumed := sharedLiquidity.ConsumeAssets(token, action.requested);
      if consumed.Err? { return Err(consumed.error); }
      if vaultIdle + action.requested > MAX_U256 { return Err(Arithmetic); }
      vaultIdle := vaultIdle + action.requested;
      if t.expectedAssets + action.requested > MAX_U256 { return Err(Arithmetic); }
      r := BookPosition(action, target.value, t, SaturatingSub(position.expected, t.expectedAssets + action.requested));
    }

    method DeallocateFromLiquidity(env: Env, action: Action) returns (r: Result<ActionProjection>)
      requires env.liquidity.Some?
      modifies this, sharedLiquidity
      ensures match DeallocateLiquidity(env, old(Value()), action)
              case Ok(n) => Value() == n && |n.actions| > 0 && r == Ok(n.actions[|n.actions| - 1])
              case Err(e) => r == Err(e)
    {
      hide V1.Deallocate, BookLiquidity, ApplyDelta, V1.After;
      if BadLiquidityAction(env, action) { return Err(InvalidAction); }
      if liquidityAdapter.None? || liquidityAdapter.value.adapter != action.adapter { return Err(IncompleteState); }
      var current := liquidityAdapter.value;
      var transition := V1.Deallocate(current, action.requested);
      if transition.Err? { return Err(transition.error); }
      var t := transition.value;
      var reference := LiquidityCap(env, current);
      if reference !in capLedger { return Err(IncompleteState); }
      var updated := ApplyDelta(capLedger[reference], t.allocationChange);
      if updated.Err? { return Err(updated.error); }
      capLedger := capLedger[reference := updated.value];
      var consumed := sharedLiquidity.ConsumeAssets(env.asset, action.requested);
      if consumed.Err? { return Err(consumed.error); }
      if vaultIdle + action.requested > MAX_U256 { return Err(Arithmetic); }
      vaultIdle := vaultIdle + action.requested;
      if t.realAssets + action.requested > MAX_U256 { return Err(Arithmetic); }
      r := BookAdapter(action, V1.After(current, t).(
                         recordedAllocation := updated.value,
                         maxWithdraw := SaturatingSub(current.maxWithdraw, action.requested)),
                       t, SaturatingSub(current.realAssets, t.realAssets + action.requested));
    }

    /** Fixes the total assets on first use and keeps it ever after. */
    method EstablishTotal(env: Env) returns (r: Result<U256>)
      modifies this`firstTotalAssets
      ensures r == FirstTotal(env, old(Value()))
      ensures r.Ok? ==> firstTotalAssets == Some(r.value)
    {
      hide AdapterAssets, AccrueParent;
      if firstTotalAssets.None? {
        var assets := AdapterAssets(env, Value());
        if assets.Err? { return Err(assets.error); }
        var accrued := AccrueParent(env.parent.(idleAssets := vaultIdle), assets.value, env.timestamp);
        if accrued.Err? { return Err(accrued.error); }
        firstTotalAssets := Some(accrued.value.totalAssets);
      }
      return Ok(firstTotalAssets.value);
    }

    /** Applies one allocation, never touching locked idle. */
    method Allocate(env: Env, action: Action) returns (r: Result<ActionProjection>)
      modifies this, sharedLiquidity
      ensures match StepAllocation(env, old(Value()), action)
              case Ok(n) => Value() == n && |n.actions| > 0 && r == Ok(n.actions[|n.actions| - 1])
              case Err(e) => r == Err(e)
    {
      hide Market.Allocate, AllocateLiquidity, AllocateCaps, FirstTotal, BookDirect, Moved, FindConfigured;
      if !action.Allocation? || action.requested == 0 { return Err(InvalidAction); }
      if vaultIdle < lockedIdle || action.requested > vaultIdle - lockedIdle { return Err(InsufficientIdle); }
      if IsLiquidityKey(env, action.position) {
        r := AllocateIntoLiquidity(env, action);
        return;
      }
      var found := FindPosition(env, Value(), action);
      if found.Err? { return Err(found.error); }
      var position := found.value;
      if !position.mode.Active? { return Err(PositionMode); }
      if action.adapter !in env.adapters { return Err(IncompleteState); }
      var total := EstablishTotal(env);
      if total.Err? { return Err(total.error); }
      var target := FindTarget(env, Value(), position);
      if target.Err? { return Err(target.error); }
      var transition := Market.Allocate(target.value.market, position.shares, action.requested, position.recorded,
                                        target.value.info.fee);
      if transition.Err? { return Err(transition.error); }
      var t := transition.value;
      var booked := AllocateIntoCaps(env, position.caps, t.allocationChange, total.value);
      if booked.Err? { return Err(booked.error); }
      vaultIdle := vaultIdle - action.requested;
      var credited := sharedLiquidity.CreditAssets(target.value.info.loanToken, action.requested);
      if credited.Err? { return Err(credited.error); }
      if position.expected + action.requested > MAX_U256 { return Err(Arithmetic); }
      r := BookPosition(action, target.value, t, SaturatingSub(position.expected + action.requested, t.expectedAssets));
    }

    method AllocateIntoLiquidity(env: Env, action: Action) returns (r: Result<ActionProjection>)
      requires env.liquidity.Some? && action.requested <= vaultIdle
      modifies this, sharedLiquidity
      ensures match AllocateLiquidity(env, old(Value()), action)
              case Ok(n) => Value() == n && |n.actions| > 0 && r == Ok(n.actions[|n.actions| - 1])
              case Err(e) => r == Err(e)
    {
      hide V1.Allocate, FirstTotal, AdmitAdapter, BookLiquidity, V1.After;
      if BadLiquidityAction(env, action) { return Err(InvalidAction); }
      var total := EstablishTotal(env);
      if total.Err? { return Err(total.error); }
      if liquidityAdapter.None? || liquidityAdapter.value.adapter != action.adapter { return Err(IncompleteState); }
      var current := liquidityAdapter.value;
      var transition := V1.Allocate(current, action.requested);
      if transition.Err? { return Err(transition.error); }
      var t := transition.value;
      var updated := AdmitAdapter(env, capLedger, current, t.allocationChange, total.value);
      if updated.Err? { return Err(updated.error); }
      capLedger := capLedger[LiquidityCap(env, current) := updated.value];
      vaultIdle := vaultIdle - action.requested;
      var credited := sharedLiquidity.CreditAssets(env.asset, action.requested);
      if credited.Err? { return Err(credited.error); }
      if current.realAssets + action.requested > MAX_U256 { return Err(Arithmetic); }
      if current.maxWithdraw + action.requested > MAX_U256 { return Err(Arithmetic); }
      r := BookAdapter(action, V1.After(current, t).(
                         recordedAllocation := updated.value,
                         maxDeposit := SaturatingSub(current.maxDeposit, action.requested),
                         maxWithdraw := current.maxWithdraw + action.requested),
                       t, SaturatingSub(current.realAssets + action.requested, t.realAssets));
    }
  }

  /** Runs a whole candidate: fresh state, deallocations first, each position at most once. */
  method RunActions(env: Env, inputs: Inputs, actions: seq<Action>) returns (r: Result<SimulationState>)
    ensures match SimulateActions(env, inputs, actions)
            case Ok(n) => r.Ok? && fresh(r.value) && r.value.Value() == n
            case Err(e) => r == Err(e)
  {
    hide StepDeallocation, StepAllocation, FromProjection;
    var start := FromProjection(env, inputs);
    if start.Err? { return Err(start.error); }
    var state := new SimulationState(start.value);
    var allocating, touched := false, {};
    for i := 0 to |actions|
      invariant fresh(state) && fresh(state.sharedLiquidity)
      invariant Simulate(env, state.Value(), actions[i..], allocating, touched) == Simulate(env, start.value, actions, false, {})
    {
      var action := actions[i];
      assert actions[i..][0] == action && actions[i..][1..] == actions[i + 1..];
      if action.Deallocation? {
        if allocating { return Err(InvalidAction); }
      } else {
        allocating := true;
      }
      if action.position in touched { return Err(InvalidAction); }
      touched := touched + {action.position};
      var step: Result<ActionProjection>;
      if action.Deallocation? {
        step := state.Deallocate(env, action);
      } else {
        step := state.Allocate(env, action);
      }
      if step.Err? { return Err(step.error); }
    }
    return Ok(state);
  }
}
