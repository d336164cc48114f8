/**
 Values and transitions of the sequential simulator.

 The mutable simulation object is in module Simulator; the functions here give the value it holds after
 each step, in the order in which the steps check and update, and module SimulationRuns proves what every
 accepted action list keeps.
 */
module Simulation {
  import opened Checked
  import opened BlueMath
  import opened Market
  import opened VaultV2
  import V1 = VaultV1Adapter

  type PositionKey = nat
  type Address = nat
  type Token = nat
  type Bytes = seq<nat>

  datatype CapRef = CapRef(vault: Address, id: nat)
  datatype Mode = Active | Fixed | SourceOnly | Disabled | SyncRequired

  /** Adapter, collateral and exact-market caps of one position. */
  type Caps = c: seq<CapRef> | |c| == 3 witness [CapRef(0, 0), CapRef(0, 1), CapRef(0, 2)]

  datatype CapState = CapState(absoluteCap: U256, relativeCap: U256, recordedAllocation: U256)

  datatype Position = Position(
    adapter: Address,
    market: MarketId,
    current: bool,
    shares: U256,
    expected: U256,
    recorded: U256,
    caps: Caps,
    mode: Mode)

  datatype Action =
    | Deallocation(position: PositionKey, adapter: Address, data: Bytes, requested: U256)
    | Allocation(position: PositionKey, adapter: Address, data: Bytes, requested: U256)

  datatype ActionProjection = ActionProjection(
    position: PositionKey,
    requested: U256,
    changedShares: U256,
    expectedAfter: U256,
    allocationChange: I256,
    positiveLoss: U256)

  datatype MarketInfo = MarketInfo(loanToken: Token, fee: U256, tokenBalance: U256)
  datatype Configured = Configured(key: PositionKey, adapter: Address, data: Bytes)
  datatype ConfiguredLiquidity = ConfiguredLiquidity(key: PositionKey, adapter: Address, maximumAction: U256)

  /** The frozen inputs of one simulation: exact snapshot, inclusion projection and vault configuration. */
  datatype Env = Env(
    vault: Address,
    asset: Token,
    parent: Parent,
    timestamp: U64,
    adapters: set<Address>,
    markets: map<MarketId, MarketInfo>,
    caps: map<CapRef, CapState>,
    positionKeys: seq<PositionKey>,
    configured: seq<Configured>,
    liquidity: Option<ConfiguredLiquidity>)

  /** The value of one candidate simulation. */
  datatype State = State(
    markets: map<MarketId, MarketState>,
    positions: map<PositionKey, Position>,
    liquidity: Option<V1.LiquidityState>,
    ledger: map<CapRef, U256>,
    idle: U256,
    locked: U256,
    firstTotal: Option<U256>,
    shared: map<Token, U256>,
    actions: seq<ActionProjection>,
    loss: U256)

  // ---------------------------------------------------------------- helpers

  function Lookup<K, V>(m: map<K, V>, k: K, e: Error): Result<V> {
    if k in m then Ok(m[k]) else Err(e)
  }

  function FindConfigured(configured: seq<Configured>, key: PositionKey): Result<Configured> {
    if configured == [] then Err(IncompleteState)
    else if configured[0].key == key then Ok(configured[0])
    else FindConfigured(configured[1..], key)
  }

  predicate IsLiquidityKey(env: Env, key: PositionKey) {
    env.liquidity.Some? && env.liquidity.value.key == key
  }

  /** Adds a signed delta to a recorded allocation; a negative result is an invalid cap update. */
  function ApplyDelta(value: U256, delta: I256): Result<U256> {
    if value > MAX_I256 || value + delta > MAX_I256 then Err(Arithmetic)
    else if value + delta < 0 then Err(InvalidDeallocationCap)
    else Ok(value + delta)
  }

  /** Vault V2 allocation admission at one cap level. */
  predicate Admitted(cap: CapState, total: U256, allocation: U256) {
    && cap.absoluteCap != 0
    && allocation <= cap.absoluteCap
    && cap.relativeCap <= WAD
    && (cap.relativeCap < WAD ==>
          total * cap.relativeCap <= MAX_U256 && allocation <= total * cap.relativeCap / WAD)
  }

  function DeallocateCaps(ledger: map<CapRef, U256>, caps: seq<CapRef>, delta: I256): Result<map<CapRef, U256>>
    decreases |caps|
  {
    if caps == [] then Ok(ledger)
    else
      var held :- Lookup(ledger, caps[0], IncompleteState);
      if held == 0 then Err(InvalidDeallocationCap)
      else
        var updated :- ApplyDelta(held, delta);
        DeallocateCaps(ledger[caps[0] := updated], caps[1..], delta)
  }

  function AllocateCaps(states: map<CapRef, CapState>, ledger: map<CapRef, U256>, caps: seq<CapRef>, delta: I256, total: U256)
    : Result<map<CapRef, U256>>
    decreases |caps|
  {
    if caps == [] then Ok(ledger)
    else
      var held :- Lookup(ledger, caps[0], IncompleteState);
      var updated :- ApplyDelta(held, delta);
      var cap :- Lookup(states, caps[0], IncompleteState);
      if !Admitted(cap, total, updated) then Err(AllocationCap)
      else AllocateCaps(states, ledger[caps[0] := updated], caps[1..], delta, total)
  }

  function Consume(shared: map<Token, U256>, token: Token, assets: U256): Result<map<Token, U256>> {
    var remaining :- Lookup(shared, token, MissingToken);
    var left :- Sub(remaining, assets, Exhausted);
    Ok(shared[token := left])
  }

  function Credit(shared: map<Token, U256>, token: Token, assets: U256): Result<map<Token, U256>> {
    var remaining :- Lookup(shared, token, MissingToken);
    var raised :- Add(remaining, assets, Exhausted);
    Ok(shared[token := raised])
  }

  // ---------------------------------------------------------------- first total assets

  /** An adapter-ordered association list, as the ordered map of adapter totals iterates. */
  function AddTotal(totals: seq<(Address, U256)>, adapter: Address, assets: U256): Result<seq<(Address, U256)>> {
    if totals == [] || adapter < totals[0].0 then Ok([(adapter, assets)] + totals)
    else if adapter == totals[0].0 then
      var sum :- Add(totals[0].1, assets, Arithmetic);
      Ok([(adapter, sum)] + totals[1..])
    else
      var rest :- AddTotal(totals[1..], adapter, assets);
      Ok([totals[0]] + rest)
  }

  function SetTotal(totals: seq<(Address, U256)>, adapter: Address, assets: U256): seq<(Address, U256)> {
    if totals == [] || adapter < totals[0].0 then [(adapter, assets)] + totals
    else if adapter == totals[0].0 then [(adapter, assets)] + totals[1..]
    else [totals[0]] + SetTotal(totals[1..], adapter, assets)
  }

  function TotalValues(totals: seq<(Address, U256)>): seq<U256> {
    if totals == [] then [] else [totals[0].1] + TotalValues(totals[1..])
  }

  function PositionTotals(positions: map<PositionKey, Position>, keys: seq<PositionKey>, totals: seq<(Address, U256)>)
    : Result<seq<(Address, U256)>>
    decreases |keys|
  {
    if keys == [] then Ok(totals)
    else
      var p :- Lookup(positions, keys[0], IncompleteState);
      var next :- if p.current then AddTotal(totals, p.adapter, p.expected) else Ok(totals);
      PositionTotals(positions, keys[1..], next)
  }

  /** Real assets of every adapter, the liquidity adapter's entry replacing any direct one. */
  function AdapterAssets(env: Env, s: State): Result<seq<U256>> {
    var totals :- PositionTotals(s.positions, env.positionKeys, []);
    match s.liquidity
    case Some(l) => Ok(TotalValues(SetTotal(totals, l.adapter, l.realAssets)))
    case None => Ok(TotalValues(totals))
  }

  /** The parent total assets that cap admission uses: computed once, before the first allocation. */
  function FirstTotal(env: Env, s: State): Result<U256> {
    if s.firstTotal.Some? then Ok(s.firstTotal.value)
    else
      var assets :- AdapterAssets(env, s);
      var accrued :- AccrueParent(env.parent.(idleAssets := s.idle), assets, env.timestamp);
      Ok(accrued.totalAssets)
  }

  // ---------------------------------------------------------------- direct positions

  /** The configured direct position an action names, with the market it moves. */
  datatype Target = Target(position: Position, market: MarketState, info: MarketInfo)

  function FindPosition(env: Env, s: State, action: Action): Result<Position> {
    var configured :- FindConfigured(env.configured, action.position);
    if configured.adapter != action.adapter || configured.data != action.data then Err(InvalidAction)
    else Lookup(s.positions, action.position, IncompleteState)
  }

  function FindTarget(env: Env, s: State, position: Position): Result<Target> {
    var market :- Lookup(s.markets, position.market, IncompleteState);
    var info :- Lookup(env.markets, position.market, IncompleteState);
    Ok(Target(position, market, info))
  }

  function Moved(p: Position, t: Transition): Position {
    p.(shares := t.internalShares, current := t.internalShares != 0,
       expected := t.expectedAssets, recorded := t.expectedAssets)
  }

  /** Books a settled direct transition: market, position, action record and accumulated loss. */
  function BookDirect(s: State, action: Action, target: Target, t: Transition, localLoss: U256): Result<State> {
    var loss :- Add(s.loss, localLoss, Arithmetic);
    Ok(s.(markets := s.markets[target.position.market := t.market],
          positions := s.positions[action.position := Moved(target.position, t)],
          loss := loss,
          actions := s.actions + [ActionProjection(action.position, action.requested, t.changedShares,
                                                   t.expectedAssets, t.allocationChange, localLoss)]))
  }

  function DeallocateDirect(env: Env, s: State, action: Action): Result<State> {
    var position :- FindPosition(env, s, action);
    if position.mode.Fixed? || position.mode.SyncRequired? then Err(PositionMode)
    else if action.adapter !in env.adapters then Err(IncompleteState)
    else
      var target :- FindTarget(env, s, position);
      var balance :- Lookup(s.shared, target.info.loanToken, MissingToken);
      var t :- Market.Deallocate(target.market, position.shares, action.requested, position.recorded, balance, target.info.fee);
      var ledger :- DeallocateCaps(s.ledger, position.caps, t.allocationChange);
      var shared :- Consume(s.shared, target.info.loanToken, action.requested);
      var idle :- Add(s.idle, action.requested, Arithmetic);
      var kept :- Add(t.expectedAssets, action.requested, Arithmetic);
      BookDirect(s.(ledger := ledger, shared := shared, idle := idle), action, target, t,
                 SaturatingSub(position.expected, kept))
  }

  function AllocateDirect(env: Env, s: State, action: Action): Result<State> {
    var position :- FindPosition(env, s, action);
    if !position.mode.Active? then Err(PositionMode)
    else if action.adapter !in env.adapters then Err(IncompleteState)
    else
      var total :- FirstTotal(env, s);
      var target :- FindTarget(env, s, position);
      var t :- Market.Allocate(target.market, position.shares, action.requested, position.recorded, target.info.fee);
      var ledger :- AllocateCaps(env.caps, s.ledger, position.caps, t.allocationChange, total);
      var idle :- Sub(s.idle, action.requested, InsufficientIdle);
      var shared :- Credit(s.shared, target.info.loanToken, action.requested);
      var due :- Add(position.expected, action.requested, Arithmetic);
      BookDirect(s.(ledger := ledger, shared := shared, idle := idle, firstTotal := Some(total)), action, target, t,
                 SaturatingSub(due, t.expectedAssets))
  }

  // ---------------------------------------------------------------- the liquidity adapter

  function FindLiquidity(env: Env, s: State, action: Action): Result<V1.LiquidityState>
    requires env.liquidity.Some?
  {
    if s.liquidity.None? || s.liquidity.value.adapter != action.adapter then Err(IncompleteState)
    else Ok(s.liquidity.value)
  }

  function BadLiquidityAction(env: Env, action: Action): bool
    requires env.liquidity.Some?
  {
    var configured := env.liquidity.value;
    configured.adapter != action.adapter || action.data != [] || action.requested > configured.maximumAction
  }

  function LiquidityCap(env: Env, l: V1.LiquidityState): CapRef { CapRef(env.vault, l.adapterCap) }

  function BookLiquidity(s: State, action: Action, l: V1.LiquidityState, t: V1.Transition, localLoss: U256): Result<State> {
    var loss :- Add(s.loss, localLoss, Arithmetic);
    Ok(s.(liquidity := Some(l),
          loss := loss,
          actions := s.actions + [ActionProjection(action.position, action.requested, t.changedMorphoShares,
                                                   t.realAssets, t.allocationChange, localLoss)]))
  }

  function DeallocateLiquidity(env: Env, s: State, action: Action): Result<State>
    requires env.liquidity.Some?
  {
    if BadLiquidityAction(env, action) then Err(InvalidAction)
    else
      var l :- FindLiquidity(env, s, action);
      var t :- V1.Deallocate(l, action.requested);
      var held :- Lookup(s.ledger, LiquidityCap(env, l), IncompleteState);
      var updated :- ApplyDelta(held, t.allocationChange);
      var shared :- Consume(s.shared, env.asset, action.requested);
      var idle :- Add(s.idle, action.requested, Arithmetic);
      var kept :- Add(t.realAssets, action.requested, Arithmetic);
      BookLiquidity(s.(ledger := s.ledger[LiquidityCap(env, l) := updated], shared := shared, idle := idle), action,
                    V1.After(l, t).(recordedAllocation := updated,
                                    maxWithdraw := SaturatingSub(l.maxWithdraw, action.requested)),
                    t, SaturatingSub(l.realAssets, kept))
  }

  function AllocateLiquidity(env: Env, s: State, action: Action): Result<State>
    requires env.liquidity.Some?
  {
    if BadLiquidityAction(env, action) then Err(InvalidAction)
    else
      var total :- FirstTotal(env, s);
      var l :- FindLiquidity(env, s, action);
      var t :- V1.Allocate(l, action.requested);
      var updated :- AdmitAdapter(env, s.ledger, l, t.allocationChange, total);
      var idle :- Sub(s.idle, action.requested, InsufficientIdle);
      var shared :- Credit(s.shared, env.asset, action.requested);
      var due :- Add(l.realAssets, action.requested, Arithmetic);
      var maxWithdraw :- Add(l.maxWithdraw, action.requested, Arithmetic);
      BookLiquidity(s.(ledger := s.ledger[LiquidityCap(env, l) := updated], shared := shared, idle := idle,
                       firstTotal := Some(total)), action,
                    V1.After(l, t).(recordedAllocation := updated,
                                    maxDeposit := SaturatingSub(l.maxDeposit, action.requested),
                                    maxWithdraw := maxWithdraw),
                    t, SaturatingSub(due, t.realAssets))
  }

  /** The adapter cap's new ledger value, if admitted. */
  function AdmitAdapter(env: Env, ledger: map<CapRef, U256>, l: V1.LiquidityState, delta: I256, total: U256): Result<U256> {
    var held :- Lookup(ledger, LiquidityCap(env, l), IncompleteState);
    var updated :- ApplyDelta(held, delta);
    var cap :- Lookup(env.caps, LiquidityCap(env, l), IncompleteState);
    if !Admitted(cap, total, updated) then Err(AllocationCap) else Ok(updated)
  }

  // ---------------------------------------------------------------- one action, and action lists

  function StepDeallocation(env: Env, s: State, action: Action): Result<State> {
    if !action.Deallocation? || action.requested == 0 then Err(InvalidAction)
    else if IsLiquidityKey(env, action.position) then DeallocateLiquidity(env, s, action)
    else DeallocateDirect(env, s, action)
  }

  function StepAllocation(env: Env, s: State, action: Action): Result<State> {
    if !action.Allocation? || action.requested == 0 then Err(InvalidAction)
    else if s.idle < s.locked || action.requested > s.idle - s.locked then Err(InsufficientIdle)
    else if IsLiquidityKey(env, action.position) then AllocateLiquidity(env, s, action)
    else AllocateDirect(env, s, action)
  }

  function Step(env: Env, s: State, action: Action): Result<State> {
    if action.Deallocation? then StepDeallocation(env, s, action) else StepAllocation(env, s, action)
  }

  /** The strict grammar: deallocations first, then allocations, no position twice. */
  function Simulate(env: Env, s: State, actions: seq<Action>, allocating: bool, touched: set<PositionKey>): Result<State>
    decreases |actions|
  {
    if actions == [] then Ok(s)
    else
      var action := actions[0];
      if (action.Deallocation? && allocating) || action.position in touched then Err(InvalidAction)
      else
        var next :- Step(env, s, action);
        Simulate(env, next, actions[1..], action.Allocation?, touched + {action.position})
  }

  // ---------------------------------------------------------------- the starting state

  datatype SnapshotPosition = SnapshotPosition(
    adapter: Address,
    market: MarketId,
    current: bool,
    shares: U256,
    recorded: U256,
    caps: Caps,
    mode: Mode)

  /** What the snapshot and the projection say about positions, locks and projected markets. */
  datatype Inputs = Inputs(
    positions: map<PositionKey, SnapshotPosition>,
    expectedAssets: map<PositionKey, U256>,
    projectedMarkets: map<MarketId, MarketState>,
    marketKeys: seq<MarketId>,
    liquidity: Option<V1.LiquidityState>,
    locks: seq<U256>,
    locksVerified: bool)

  function StartPositions(env: Env, inputs: Inputs, keys: seq<PositionKey>): Result<map<PositionKey, Position>>
    decreases |keys|
  {
    if keys == [] then Ok(map[])
    else
      var p :- Lookup(inputs.positions, keys[0], IncompleteState);
      if p.adapter !in env.adapters then Err(IncompleteState)
      else
        var expected :- Lookup(inputs.expectedAssets, keys[0], IncompleteState);
        var rest :- StartPositions(env, inputs, keys[1..]);
        Ok(rest[keys[0] := Position(p.adapter, p.market, p.current, p.shares, expected, p.recorded, p.caps, p.mode)])
  }

  function SumLocks(locks: seq<U256>, total: U256): Result<U256>
    decreases |locks|
  {
    if locks == [] then Ok(total)
    else
      var sum :- Add(total, locks[0], Arithmetic);
      SumLocks(locks[1..], sum)
  }

  /** Registers every market's observation of its shared token balance; observations must agree. */
  function Register(shared: map<Token, U256>, token: Token, balance: U256): Result<map<Token, U256>> {
    if token in shared && shared[token] != balance then Err(InconsistentBalance)
    else Ok(shared[token := balance])
  }

  function RegisterAll(env: Env, keys: seq<MarketId>, shared: map<Token, U256>): Result<map<Token, U256>>
    decreases |keys|
  {
    if keys == [] then Ok(shared)
    else
      var info :- Lookup(env.markets, keys[0], IncompleteState);
      var next :- Register(shared, info.loanToken, info.tokenBalance);
      RegisterAll(env, keys[1..], next)
  }

  function FromProjection(env: Env, inputs: Inputs): Result<State> {
    var positions :- StartPositions(env, inputs, env.positionKeys);
    var locked :- SumLocks(inputs.locks, 0);
    if !inputs.locksVerified || locked > env.parent.idleAssets then Err(InsufficientIdle)
    else
      var shared :- RegisterAll(env, inputs.marketKeys, map[]);
      Ok(State(inputs.projectedMarkets, positions, inputs.liquidity,
               map c | c in env.caps :: env.caps[c].recordedAllocation,
               env.parent.idleAssets, locked, None, shared, [], 0))
  }

  /** `simulate_actions`: a fresh state and the grammar over the whole list. */
  function SimulateActions(env: Env, inputs: Inputs, actions: seq<Action>): Result<State> {
    var start :- FromProjection(env, inputs);
    Simulate(env, start, actions, false, {})
  }
}
