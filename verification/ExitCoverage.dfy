/** The boundary search of the service constraints, and the exact exit coverage it computes. */
module ExitCoverage {
  import opened Checked
  import opened SharePool
  import opened BlueMath
  import opened AdaptiveCurve
  import opened Market
  import opened Simulation
  import V1 = VaultV1Adapter

  /** The amount passes, or is zero, and its successor fails, or is past the upper bound. */
  predicate IsBoundary(test: U256 -> Result<bool>, upper: U256, amount: U256) {
    && amount <= upper
    && (amount == 0 || test(amount) == Ok(true))
    && (amount == upper || test(amount + 1) == Ok(false))
  }

  /** Bisection over a closure that may fail.  The midpoint's rounding addition overflows on the full
      256-bit range, so that upper bound is refused. */
  method MonotoneMaximum(upper: U256, test: U256 -> Result<bool>) returns (r: Result<U256>)
    ensures r.Ok? ==> IsBoundary(test, upper, r.value)
    ensures upper == MAX_U256 ==> r == Err(Arithmetic)
    ensures upper < MAX_U256 && (forall a: U256 | 0 < a <= upper :: test(a).Ok?) ==> r.Ok?
  {
    var low: U256, high: U256 := 0, upper;
    while low < high
      invariant low <= high <= upper
      invariant upper == MAX_U256 ==> low == 0 && high == upper
      invariant low == 0 || test(low) == Ok(true)
      invariant high == upper || test(high + 1) == Ok(false)
      decreases high - low
    {
      var distance := high - low;
      if distance + 1 > MAX_U256 { return Err(Arithmetic); }
      var midpoint := low + (distance + 1) / 2;
      var passed := test(midpoint);
      if passed.Err? { return Err(passed.error); }
      if passed.value { low := midpoint; } else { high := midpoint - 1; }
    }
    return Ok(low);
  }

  /** For a downward-closed test the boundary is the exact maximum. */
  lemma BoundaryIsMaximum(test: U256 -> Result<bool>, upper: U256, amount: U256)
    requires IsBoundary(test, upper, amount)
    requires forall a: U256, b: U256 | 0 < a <= b <= upper && test(b) == Ok(true) :: test(a) == Ok(true)
    ensures forall a: U256 | 0 < a <= upper :: test(a) == Ok(true) <==> a <= amount
  {
    forall a: U256 | 0 < a <= upper
      ensures test(a) == Ok(true) <==> a <= amount
    {
    }
  }

  // ---------------------------------------------------------------- withdrawals are downward closed

  /** Totals and ownership within the widths Morpho stores. */
  predicate Uint128Bounded(m: MarketState, shares: U256) {
    m.supplyAssets <= MAX_U128 && m.supplyShares <= MAX_U128 && shares <= MAX_U128
  }

  lemma BurnMonotone(a: U256, b: U256, m: MarketState)
    requires a <= b && ToSharesUp(b, m.supplyAssets, m.supplyShares).Ok?
    ensures ToSharesUp(a, m.supplyAssets, m.supplyShares).Ok?
    ensures ToSharesUp(a, m.supplyAssets, m.supplyShares).value <= ToSharesUp(b, m.supplyAssets, m.supplyShares).value
  {
    hide MulDivUp;
    var p, q := m.P(), m.Q();
    MulMonotone(a, b, q);
    MulDivUpIsCeiling(a, q, p);
    MulDivUpIsCeiling(b, q, p);
    var x, y := MulDivUp(a, q, p).value, MulDivUp(b, q, p).value;
    if y < x { MulMonotone(y + 1, x, p); }
  }

  /** Rates that refresh after a larger withdrawal refresh after a smaller one: utilization is lower. */
  lemma RefreshMonotone(low: MarketState, high: MarketState, fee: U256)
    requires low.supplyAssets <= high.supplyAssets <= MAX_U128
    requires low.borrowAssets == high.borrowAssets && low.endingRateAtTarget == high.endingRateAtTarget
    requires RefreshRates(low, fee).Ok?
    ensures RefreshRates(high, fee).Ok?
  {
    hide SpotRate, SupplyRate;
    UtilizationBounds(high.borrowAssets, high.supplyAssets);
    UtilizationMonotone(low.borrowAssets, low.supplyAssets, high.supplyAssets);
    var u, v := Utilization(low.borrowAssets, low.supplyAssets).value, Utilization(high.borrowAssets, high.supplyAssets).value;
    SpotRateMonotone(v, u, low.endingRateAtTarget);
    SupplyRateMonotone(SpotRate(v, low.endingRateAtTarget).value, v, SpotRate(u, low.endingRateAtTarget).value, u, fee);
  }

  /** A valuation inside the stored widths always fits the signed ledger. */
  lemma SettleSucceeds(m: MarketState, owned: U256, changed: U256, recorded: U256, fee: U256)
    requires Uint128Bounded(m, owned) && RefreshRates(m, fee).Ok? && recorded <= MAX_I256
    ensures Settle(m, owned, changed, recorded, fee).Ok?
  {
    hide MulDivDown, RefreshRates;
    var n := RefreshRates(m, fee).value;
    assert n.P() == m.P() && n.Q() == m.Q() by { RefreshKeepsBalances(m, fee); }
    MulMonotone(owned, MAX_U128, m.P());
    MulMonotone(m.P(), MAX_U128 + 1, MAX_U128);
    MulDivDownIsFloor(owned, m.P(), m.Q());
    var v := MulDivDown(owned, m.P(), m.Q()).value;
    assert v <= MAX_I256 by {
      MulMonotone(VIRTUAL_SHARES, m.Q(), v);
      assert v * VIRTUAL_SHARES <= MAX_U256;
    }
  }

  lemma RefreshKeepsBalances(m: MarketState, fee: U256)
    requires RefreshRates(m, fee).Ok?
    ensures var n := RefreshRates(m, fee).value; n.P() == m.P() && n.Q() == m.Q()
  {
  }

  /** What a withdrawal needs before it is settled. */
  predicate Withdrawable(m: MarketState, shares: U256, a: U256, balance: U256) {
    && a <= m.liquidity && a <= balance && a <= m.supplyAssets
    && ToSharesUp(a, m.supplyAssets, m.supplyShares).Ok?
    && ToSharesUp(a, m.supplyAssets, m.supplyShares).value <= shares
    && ToSharesUp(a, m.supplyAssets, m.supplyShares).value <= m.supplyShares
  }

  function Drained(m: MarketState, shares: U256, a: U256, balance: U256): MarketState
    requires Withdrawable(m, shares, a, balance)
  {
    m.(supplyAssets := m.supplyAssets - a,
       supplyShares := m.supplyShares - ToSharesUp(a, m.supplyAssets, m.supplyShares).value)
  }

  lemma DeallocateUnfolds(m: MarketState, shares: U256, a: U256, recorded: U256, balance: U256, fee: U256)
    ensures Deallocate(m, shares, a, recorded, balance, fee).Ok? <==>
            Withdrawable(m, shares, a, balance)
            && var burned := ToSharesUp(a, m.supplyAssets, m.supplyShares).value;
               Settle(Drained(m, shares, a, balance), shares - burned, burned, recorded, fee).Ok?
  {
    hide ToSharesUp, Settle;
  }

  /** If an amount can be withdrawn, so can every smaller one. */
  lemma WithdrawDownwardClosed(m: MarketState, shares: U256, a: U256, b: U256, recorded: U256, balance: U256, fee: U256)
    requires a <= b && Uint128Bounded(m, shares) && Deallocate(m, shares, b, recorded, balance, fee).Ok?
    ensures Deallocate(m, shares, a, recorded, balance, fee).Ok?
  {
    hide Deallocate, ToSharesUp, Settle, RefreshRates;
    DeallocateUnfolds(m, shares, b, recorded, balance, fee);
    DeallocateUnfolds(m, shares, a, recorded, balance, fee);
    BurnMonotone(a, b, m);
    var x, y := ToSharesUp(a, m.supplyAssets, m.supplyShares).value, ToSharesUp(b, m.supplyAssets, m.supplyShares).value;
    SettleNeeds(Drained(m, shares, b, balance), shares - y, y, recorded, fee);
    RefreshMonotone(Drained(m, shares, b, balance), Drained(m, shares, a, balance), fee);
    SettleSucceeds(Drained(m, shares, a, balance), shares - x, x, recorded, fee);
  }

  lemma SettleNeeds(m: MarketState, owned: U256, changed: U256, recorded: U256, fee: U256)
    requires Settle(m, owned, changed, recorded, fee).Ok?
    ensures RefreshRates(m, fee).Ok? && recorded <= MAX_I256
  {
    hide RefreshRates, ExpectedAssets;
  }

  /** No withdrawal exceeds the floor value of the position's shares. */
  lemma WithdrawWithinValue(m: MarketState, shares: U256, a: U256, recorded: U256, balance: U256, fee: U256)
    requires Deallocate(m, shares, a, recorded, balance, fee).Ok?
    ensures a <= m.liquidity && a <= balance && a <= shares * m.P() / m.Q()
  {
    hide Deallocate, RefreshRates;
    DeallocateEffect(m, shares, a, recorded, balance, fee);
    assert a <= m.liquidity && a <= balance by { DeallocateUnfolds(m, shares, a, recorded, balance, fee); }
    var burned := Deallocate(m, shares, a, recorded, balance, fee).value.changedShares;
    MulMonotone(burned, shares, m.P());
    DivAtLeast(shares * m.P(), m.Q(), a);
  }

  // ---------------------------------------------------------------- atomic exit coverage

  function FindExitPosition(configured: seq<Configured>, adapter: Address, data: Bytes): Result<Configured> {
    if configured == [] then Err(IncompleteState)
    else if configured[0].adapter == adapter && configured[0].data == data then Ok(configured[0])
    else FindExitPosition(configured[1..], adapter, data)
  }

  /** The direct position that native exits withdraw from, with its market. */
  function ExitTarget(env: Env, s: State, adapter: Address, data: Bytes): Result<Target> {
    var configured :- FindExitPosition(env.configured, adapter, data);
    var position :- Lookup(s.positions, configured.key, IncompleteState);
    FindTarget(env, s, position)
  }

  /** Whether `a` can leave through the direct position right now. */
  predicate CanExit(t: Target, balance: U256, a: U256) {
    Deallocate(t.market, t.position.shares, a, t.position.recorded, balance, t.info.fee).Ok?
  }

  /** Idle assets plus what the liquidity path can release.  Through a direct position within Morpho's
      widths, that is exactly the largest withdrawal up to the cached valuation, so every smaller amount
      can leave too; when the valuation is current, no larger amount can leave at all. */
  method AtomicExitCoverage(env: Env, s: State, adapter: Address, data: Bytes) returns (r: Result<U256>)
    ensures s.liquidity.Some? ==>
              r == Add(s.idle, Min(s.liquidity.value.maxWithdraw, s.liquidity.value.realAssets), Arithmetic)
    ensures s.liquidity.None? && adapter == 0 ==> r == Ok(s.idle)
    ensures s.liquidity.None? && adapter != 0 && r.Ok? ==>
              var target := ExitTarget(env, s, adapter, data);
              && target.Ok? && target.value.info.loanToken in s.shared && s.idle <= r.value
              && (Uint128Bounded(target.value.market, target.value.position.shares) ==>
                    forall a: U256 | a > 0 ::
                      a <= r.value - s.idle <==> a <= target.value.position.expected
                                                 && CanExit(target.value, s.shared[target.value.info.loanToken], a))
  {
    hide Deallocate;
    var executable: U256 := 0;
    if s.liquidity.Some? {
      executable := Min(s.liquidity.value.maxWithdraw, s.liquidity.value.realAssets);
    } else if adapter != 0 {
      var target := ExitTarget(env, s, adapter, data);
      if target.Err? { return Err(target.error); }
      var t := target.value;
      if t.info.loanToken !in s.shared { return Err(MissingToken); }
      var balance := s.shared[t.info.loanToken];
      var upper := Min(Min(t.position.expected, t.market.liquidity), balance);
      var test := (a: U256) => Ok(Deallocate(t.market, t.position.shares, a, t.position.recorded, balance, t.info.fee).Ok?);
      var maximum := MonotoneMaximum(upper, test);
      if maximum.Err? { return Err(maximum.error); }
      executable := maximum.value;
      if Uint128Bounded(t.market, t.position.shares) {
        ExitIsExact(t, balance, upper, test, executable);
      }
    }
    return Add(s.idle, executable, Arithmetic);
  }

  lemma ExitIsExact(t: Target, balance: U256, upper: U256, test: U256 -> Result<bool>, amount: U256)
    requires Uint128Bounded(t.market, t.position.shares)
    requires upper == Min(Min(t.position.expected, t.market.liquidity), balance)
    requires forall a: U256 :: test(a) == Ok(CanExit(t, balance, a))
    requires IsBoundary(test, upper, amount)
    ensures forall a: U256 | a > 0 :: a <= amount <==> a <= t.position.expected && CanExit(t, balance, a)
  {
    hide Deallocate;
    forall a: U256, b: U256 | 0 < a <= b <= upper && test(b) == Ok(true)
      ensures test(a) == Ok(true)
    {
      WithdrawDownwardClosed(t.market, t.position.shares, a, b, t.position.recorded, balance, t.info.fee);
    }
    BoundaryIsMaximum(test, upper, amount);
    forall a: U256 | a > 0
      ensures a <= amount <==> a <= t.position.expected && CanExit(t, balance, a)
    {
      assert test(a) == Ok(CanExit(t, balance, a));
      if CanExit(t, balance, a) {
        WithdrawWithinValue(t.market, t.position.shares, a, t.position.recorded, balance, t.info.fee);
      }
    }
  }

  /** With a current valuation the cached bound never binds: coverage is the exact largest withdrawal. */
  lemma CurrentValuationNeverBinds(t: Target, balance: U256, a: U256)
    requires t.position.expected == t.position.shares * t.market.P() / t.market.Q()
    requires CanExit(t, balance, a)
    ensures a <= t.position.expected
  {
    WithdrawWithinValue(t.market, t.position.shares, a, t.position.recorded, balance, t.info.fee);
  }
}
