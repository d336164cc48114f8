/** Morpho market states, the direct adapter's supply and withdrawal, and interest accrual. */
module Market {
  import opened Checked
  import opened SharePool
  import opened BlueMath
  import opened AdaptiveCurve

  type MarketId = nat

  /** A market projected to a timestamp, with its cached rates. */
  datatype MarketState = MarketState(
    timestamp: U64,
    supplyAssets: U256,
    supplyShares: U256,
    borrowAssets: U256,
    borrowShares: U256,
    averageBorrowRate: U256,
    endingRateAtTarget: U256,
    spotBorrowRate: U256,
    spotSupplyRate: U256,
    utilization: U256,
    liquidity: U256)
  {
    function P(): nat { supplyAssets + VIRTUAL_ASSETS }
    function Q(): nat { supplyShares + VIRTUAL_SHARES }
  }

  /** A market as stored on chain before local accrual. */
  datatype StoredMarket = StoredMarket(
    supplyAssets: U256,
    supplyShares: U256,
    borrowAssets: U256,
    borrowShares: U256,
    lastUpdate: U64,
    fee: U256,
    storedRateAtTarget: U256)

  datatype Transition = Transition(
    market: MarketState,
    internalShares: U256,
    changedShares: U256,
    expectedAssets: U256,
    allocationChange: I256)

  function ExpectedAssets(internalShares: U256, market: MarketState): Result<U256> {
    ToAssetsDown(internalShares, market.supplyAssets, market.supplyShares)
  }

  function SupplyRate(borrowRate: U256, utilization: U256, fee: U256): Result<U256> {
    var gross :- WMulDown(borrowRate, utilization);
    var kept :- Sub(WAD, fee, Underflow);
    WMulDown(gross, kept)
  }

  /** Recomputes every cached rate from the market's balances. */
  function RefreshRates(market: MarketState, fee: U256): Result<MarketState> {
    if market.borrowAssets > market.supplyAssets || fee > WAD then Err(Invariant)
    else
      var utilization :- Utilization(market.borrowAssets, market.supplyAssets);
      var spotBorrowRate :- SpotRate(utilization, market.endingRateAtTarget);
      var spotSupplyRate :- SupplyRate(spotBorrowRate, utilization, fee);
      Ok(market.(utilization := utilization,
                 spotBorrowRate := spotBorrowRate,
                 spotSupplyRate := spotSupplyRate,
                 liquidity := market.supplyAssets - market.borrowAssets))
  }

  function Allocate(market: MarketState, internalShares: U256, requested: U256, recorded: U256, fee: U256): Result<Transition> {
    var minted :- ToSharesDown(requested, market.supplyAssets, market.supplyShares);
    if requested != 0 && minted < requested then Err(SharePriceAboveOne)
    else
      var assets :- Add(market.supplyAssets, requested, Overflow);
      var shares :- Add(market.supplyShares, minted, Overflow);
      var owned :- Add(internalShares, minted, Overflow);
      Settle(market.(supplyAssets := assets, supplyShares := shares), owned, minted, recorded, fee)
  }

  function Deallocate(market: MarketState, internalShares: U256, requested: U256, recorded: U256, tokenBalance: U256, fee: U256): Result<Transition> {
    if requested > market.liquidity || requested > tokenBalance then Err(InsufficientLiquidity)
    else
      var burned :- ToSharesUp(requested, market.supplyAssets, market.supplyShares);
      if burned > internalShares then Err(InsufficientShares)
      else
        var assets :- Sub(market.supplyAssets, requested, Underflow);
        var shares :- Sub(market.supplyShares, burned, Underflow);
        Settle(market.(supplyAssets := assets, supplyShares := shares), internalShares - burned, burned, recorded, fee)
  }

  /** The common tail of both transitions: refreshed rates, new valuation, signed cap delta. */
  function Settle(market: MarketState, owned: U256, changed: U256, recorded: U256, fee: U256): Result<Transition> {
    var refreshed :- RefreshRates(market, fee);
    var expected :- ExpectedAssets(owned, refreshed);
    var delta :- SignedDifference(expected, recorded);
    Ok(Transition(refreshed, owned, changed, expected, delta))
  }

  function RequireUint128(x: U256): Result<U256> {
    if x > MAX_U128 then Err(Invariant) else Ok(x)
  }

  datatype Accrual = Accrual(market: MarketState, interest: U256, feeShares: U256)

  /** Interest and fee-share accrual from the stored state to `timestamp`. */
  function Accrue(stored: StoredMarket, timestamp: U64): Result<Accrual> {
    if timestamp < stored.lastUpdate then Err(TimestampRegression)
    else if stored.borrowAssets > stored.supplyAssets || stored.fee > WAD then Err(Invariant)
    else
      var elapsed := timestamp - stored.lastUpdate;
      var projection :-
        if elapsed == 0 then Ok(Projection(0, stored.storedRateAtTarget))
        else BorrowRate(stored.borrowAssets, stored.supplyAssets, stored.storedRateAtTarget, elapsed);
      var compounded :- WTaylorCompounded(projection.averageRate, elapsed);
      var interest :- WMulDown(stored.borrowAssets, compounded);
      var borrowSum :- Add(stored.borrowAssets, interest, Overflow);
      var borrowAssets :- RequireUint128(borrowSum);
      var supplySum :- Add(stored.supplyAssets, interest, Overflow);
      var supplyAssets :- RequireUint128(supplySum);
      var feeShares :- FeeShares(interest, stored.fee, supplyAssets, stored.supplyShares);
      var shareSum :- Add(stored.supplyShares, feeShares, Overflow);
      var supplyShares :- RequireUint128(shareSum);
      var utilization :- Utilization(borrowAssets, supplyAssets);
      var spotBorrowRate :- SpotRate(utilization, projection.endingRateAtTarget);
      var spotSupplyRate :- SupplyRate(spotBorrowRate, utilization, stored.fee);
      var liquidity :- Sub(supplyAssets, borrowAssets, Invariant);
      Ok(Accrual(
           MarketState(timestamp, supplyAssets, supplyShares, borrowAssets, stored.borrowShares,
                       projection.averageRate, projection.endingRateAtTarget, spotBorrowRate,
                       spotSupplyRate, utilization, liquidity),
           interest, feeShares))
  }

  function FeeShares(interest: U256, fee: U256, supplyAssets: U256, supplyShares: U256): Result<U256> {
    if fee == 0 then Ok(0)
    else
      var feeAssets :- WMulDown(interest, fee);
      var withoutFee :- Sub(supplyAssets, feeAssets, Underflow);
      ToSharesDown(feeAssets, withoutFee, supplyShares)
  }

  // ---------------------------------------------------------------- one transition

  /** Settling keeps the balances, and leaves rates and valuation those of the new balances. */
  lemma SettleEffect(market: MarketState, owned: U256, changed: U256, recorded: U256, fee: U256)
    requires Settle(market, owned, changed, recorded, fee).Ok?
    ensures var t := Settle(market, owned, changed, recorded, fee).value;
            && t.market.P() == market.P() && t.market.Q() == market.Q()
            && t.market.borrowAssets == market.borrowAssets
            && t.market.endingRateAtTarget == market.endingRateAtTarget
            && t.internalShares == owned && t.changedShares == changed
            && t.expectedAssets == owned * market.P() / market.Q()
            && t.allocationChange == t.expectedAssets - recorded
            && RefreshRates(t.market, fee) == Ok(t.market)
  {
    hide Utilization, SpotRate, SupplyRate, ExpectedAssets;
    ExpectedIsFloor(owned, RefreshRates(market, fee).value);
  }

  lemma ExpectedIsFloor(shares: U256, market: MarketState)
    ensures var r := ExpectedAssets(shares, market); r.Ok? ==> r.value == shares * market.P() / market.Q()
  {
    hide MulDivDown;
    if market.P() <= MAX_U256 && market.Q() <= MAX_U256 { MulDivDownIsQuotient(shares, market.P(), market.Q()); }
  }

  /** What a successful supply did to the pool and to its owner. */
  lemma AllocateEffect(market: MarketState, shares: U256, requested: U256, recorded: U256, fee: U256)
    requires Allocate(market, shares, requested, recorded, fee).Ok?
    ensures var t := Allocate(market, shares, requested, recorded, fee).value;
            && t.market.P() == market.P() + requested && t.market.Q() == market.Q() + t.changedShares
            && t.internalShares == shares + t.changedShares
            && t.market.borrowAssets == market.borrowAssets
            && t.market.endingRateAtTarget == market.endingRateAtTarget
            && t.changedShares * market.P() <= requested * market.Q() < (t.changedShares + 1) * market.P()
            && (requested == 0 || requested <= t.changedShares)
            && t.expectedAssets == t.internalShares * t.market.P() / t.market.Q()
            && t.allocationChange == t.expectedAssets - recorded
            && RefreshRates(t.market, fee) == Ok(t.market)
  {
    hide Settle, RefreshRates;
    var minted := ToSharesDown(requested, market.supplyAssets, market.supplyShares).value;
    MulDivDownIsFloor(requested, market.Q(), market.P());
    var supplied := market.(supplyAssets := market.supplyAssets + requested, supplyShares := market.supplyShares + minted);
    SettleEffect(supplied, shares + minted, minted, recorded, fee);
  }

  /** What a successful withdrawal did to the pool and to its owner. */
  lemma DeallocateEffect(market: MarketState, shares: U256, requested: U256, recorded: U256, balance: U256, fee: U256)
    requires Deallocate(market, shares, requested, recorded, balance, fee).Ok?
    ensures var t := Deallocate(market, shares, requested, recorded, balance, fee).value;
            && t.changedShares <= shares && t.internalShares == shares - t.changedShares
            && requested <= market.supplyAssets && t.changedShares <= market.supplyShares
            && t.market.P() == market.P() - requested && t.market.Q() == market.Q() - t.changedShares
            && t.market.borrowAssets == market.borrowAssets
            && t.market.endingRateAtTarget == market.endingRateAtTarget
            && requested * market.Q() <= t.changedShares * market.P() < requested * market.Q() + market.P()
            && t.expectedAssets == t.internalShares * t.market.P() / t.market.Q()
            && t.allocationChange == t.expectedAssets - recorded
            && RefreshRates(t.market, fee) == Ok(t.market)
  {
    hide Settle, RefreshRates;
    var burned := ToSharesUp(requested, market.supplyAssets, market.supplyShares).value;
    MulDivUpIsCeiling(requested, market.Q(), market.P());
    var drained := market.(supplyAssets := market.supplyAssets - requested, supplyShares := market.supplyShares - burned);
    SettleEffect(drained, shares - burned, burned, recorded, fee);
  }

  // ---------------------------------------------------------------- rates and utilization

  /** Every cached rate is the one its balances imply. */
  predicate RatesFresh(market: MarketState, fee: U256) {
    RefreshRates(market, fee) == Ok(market)
  }

  lemma UtilizationMonotone(borrow: U256, low: U256, high: U256)
    requires low <= high && borrow <= low
    requires Utilization(borrow, low).Ok? && Utilization(borrow, high).Ok?
    ensures Utilization(borrow, high).value <= Utilization(borrow, low).value
  {
    hide Utilization;
    UtilizationIsQuotient(borrow, low);
    UtilizationIsQuotient(borrow, high);
    if low > 0 { QuotientAntitone(borrow * WAD, low, high); }
  }

  lemma UtilizationIsQuotient(borrow: U256, supply: U256)
    requires borrow <= supply
    ensures var u := Utilization(borrow, supply); u.Ok? ==> u.value == if borrow == 0 then 0 else borrow * WAD / supply
  {
    hide MulDivDown;
    MulDivDownIsQuotient(borrow, WAD, supply);
    if borrow == 0 && supply > 0 { ZeroQuotient(supply); }
  }

  lemma ZeroQuotient(d: nat)
    requires d > 0
    ensures 0 * WAD / d == 0
  {
    DivAtMost(0, d, 0);
    DivAtLeast(0, d, 0);
  }

  lemma QuotientAntitone(n: nat, low: nat, high: nat)
    requires 0 < low <= high
    ensures n / high <= n / low
  {
    DivBounds(n, high);
    DivAtLeast(n, high, 0);
    MulMonotone(low, high, n / high);
    DivAtLeast(n, low, n / high);
  }

  lemma SupplyRateMonotone(r1: U256, u1: U256, r2: U256, u2: U256, fee: U256)
    requires r1 <= r2 && u1 <= u2 && SupplyRate(r2, u2, fee).Ok?
    ensures SupplyRate(r1, u1, fee).Ok? && SupplyRate(r1, u1, fee).value <= SupplyRate(r2, u2, fee).value
  {
    hide WMulDown;
    WMulDownMonotone(r1, u1, r2, u2);
    if fee <= WAD { WMulDownMonotone(WMulDown(r1, u1).value, WAD - fee, WMulDown(r2, u2).value, WAD - fee); }
  }

  lemma WMulDownMonotone(x1: U256, y1: U256, x2: U256, y2: U256)
    requires x1 <= x2 && y1 <= y2 && WMulDown(x2, y2).Ok?
    ensures WMulDown(x1, y1).Ok? && WMulDown(x1, y1).value <= WMulDown(x2, y2).value
  {
    hide MulDivDown;
    MulDivDownIsFloor(x1, y1, WAD);
    MulDivDownIsQuotient(x1, y1, WAD);
    MulDivDownIsQuotient(x2, y2, WAD);
    MulDivDownIsFloor(x2, y2, WAD);
    MulMonotone(x1, x2, y1);
    MulMonotone(y1, y2, x2);
    DivMonotone(x1 * y1, x2 * y2, WAD);
  }

  /** Of two fresh states of one market, the one with more supply has no higher utilization or rate. */
  lemma MoreSupplyLowersRates(small: MarketState, large: MarketState, fee: U256)
    requires RatesFresh(small, fee) && RatesFresh(large, fee)
    requires small.borrowAssets == large.borrowAssets && small.endingRateAtTarget == large.endingRateAtTarget
    requires small.supplyAssets <= large.supplyAssets
    ensures large.utilization <= small.utilization
    ensures large.spotBorrowRate <= small.spotBorrowRate && large.spotSupplyRate <= small.spotSupplyRate
  {
    UtilizationMonotone(small.borrowAssets, small.supplyAssets, large.supplyAssets);
    SpotRateMonotone(large.utilization, small.utilization, small.endingRateAtTarget);
    SupplyRateMonotone(large.spotBorrowRate, large.utilization, small.spotBorrowRate, small.utilization, fee);
  }

  /** Supplying never raises utilization, borrow rate or supply rate. */
  lemma AllocateLowersRates(market: MarketState, shares: U256, requested: U256, recorded: U256, fee: U256)
    requires RatesFresh(market, fee) && Allocate(market, shares, requested, recorded, fee).Ok?
    ensures var after := Allocate(market, shares, requested, recorded, fee).value.market;
            && RatesFresh(after, fee) && after.utilization <= market.utilization
            && after.spotBorrowRate <= market.spotBorrowRate && after.spotSupplyRate <= market.spotSupplyRate
  {
    hide Allocate, RefreshRates;
    AllocateEffect(market, shares, requested, recorded, fee);
    MoreSupplyLowersRates(market, Allocate(market, shares, requested, recorded, fee).value.market, fee);
  }

  /** Withdrawing never lowers them. */
  lemma DeallocateRaisesRates(market: MarketState, shares: U256, requested: U256, recorded: U256, balance: U256, fee: U256)
    requires RatesFresh(market, fee) && Deallocate(market, shares, requested, recorded, balance, fee).Ok?
    ensures var after := Deallocate(market, shares, requested, recorded, balance, fee).value.market;
            && RatesFresh(after, fee) && market.utilization <= after.utilization
            && market.spotBorrowRate <= after.spotBorrowRate && market.spotSupplyRate <= after.spotSupplyRate
  {
    hide Deallocate, RefreshRates;
    DeallocateEffect(market, shares, requested, recorded, balance, fee);
    MoreSupplyLowersRates(Deallocate(market, shares, requested, recorded, balance, fee).value.market, market, fee);
  }

  // ---------------------------------------------------------------- the share price over runs

  /** The virtual share price of `after` is at least that of `before`. */
  predicate PriceKept(before: MarketState, after: MarketState) {
    PriceAtMost(before.P(), before.Q(), after.P(), after.Q())
  }

  lemma AllocateKeepsPrice(market: MarketState, shares: U256, requested: U256, recorded: U256, fee: U256)
    requires Allocate(market, shares, requested, recorded, fee).Ok?
    ensures PriceKept(market, Allocate(market, shares, requested, recorded, fee).value.market)
  {
    hide Allocate, RefreshRates;
    AllocateEffect(market, shares, requested, recorded, fee);
    DepositKeepsPrice(market.P(), market.Q(), requested, Allocate(market, shares, requested, recorded, fee).value.changedShares);
  }

  lemma DeallocateKeepsPrice(market: MarketState, shares: U256, requested: U256, recorded: U256, balance: U256, fee: U256)
    requires Deallocate(market, shares, requested, recorded, balance, fee).Ok?
    ensures PriceKept(market, Deallocate(market, shares, requested, recorded, balance, fee).value.market)
  {
    hide Deallocate, RefreshRates;
    DeallocateEffect(market, shares, requested, recorded, balance, fee);
    WithdrawKeepsPrice(market.P(), market.Q(), requested, Deallocate(market, shares, requested, recorded, balance, fee).value.changedShares);
  }

  /** Accrual adds the interest to both sides and mints fee shares that redeem for at most the fee. */
  lemma AccrueKeepsPrice(stored: StoredMarket, timestamp: U64)
    requires Accrue(stored, timestamp).Ok?
    ensures var a := Accrue(stored, timestamp).value;
            && a.market.supplyAssets == stored.supplyAssets + a.interest
            && a.market.borrowAssets == stored.borrowAssets + a.interest
            && a.market.supplyShares == stored.supplyShares + a.feeShares
            && PriceAtMost(stored.supplyAssets + VIRTUAL_ASSETS, stored.supplyShares + VIRTUAL_SHARES, a.market.P(), a.market.Q())
            && a.feeShares * a.market.P() * WAD <= a.interest * stored.fee * a.market.Q()
  {
    hide BorrowRate, WTaylorCompounded, Utilization, SpotRate, SupplyRate, FeeShares;
    var a := Accrue(stored, timestamp).value;
    assert FeeShares(a.interest, stored.fee, a.market.supplyAssets, stored.supplyShares) == Ok(a.feeShares);
    FeeSharesKeepPrice(stored.supplyAssets, stored.supplyShares, a.interest, stored.fee);
  }

  lemma FeeSharesKeepPrice(supplyAssets: U256, supplyShares: U256, interest: U256, fee: U256)
    requires fee <= WAD && supplyAssets + interest <= MAX_U128
    requires FeeShares(interest, fee, supplyAssets + interest, supplyShares).Ok?
    ensures var m := FeeShares(interest, fee, supplyAssets + interest, supplyShares).value;
            var p, q := supplyAssets + VIRTUAL_ASSETS, supplyShares + VIRTUAL_SHARES;
            && PriceAtMost(p, q, p + interest, q + m)
            && m * (p + interest) * WAD <= interest * fee * (q + m)
  {
    hide MulDivDown;
    if fee == 0 {
      FeeMintKeepsPrice(supplyAssets + VIRTUAL_ASSETS, supplyShares + VIRTUAL_SHARES, interest, 0, 0);
    } else {
      var p, q := supplyAssets + VIRTUAL_ASSETS, supplyShares + VIRTUAL_SHARES;
      var f := WMulDown(interest, fee).value;
      var m := FeeShares(interest, fee, supplyAssets + interest, supplyShares).value;
      MulDivDownIsFloor(interest, fee, WAD);
      MulDivDownIsFloor(f, q, p + interest - f);
      FeeMint(p, q, interest, fee, f, m);
    }
  }

  /** A fee `f` rounded down from its share of the interest, and shares `m` rounded down from the fee. */
  lemma FeeMint(p: nat, q: nat, interest: nat, fee: nat, f: nat, m: nat)
    requires fee <= WAD && f * WAD <= interest * fee && f <= p + interest && m * (p + interest - f) <= f * q
    ensures PriceAtMost(p, q, p + interest, q + m)
    ensures m * (p + interest) * WAD <= interest * fee * (q + m)
  {
    FeeWithinInterest(interest, fee, f);
    FeeMintKeepsPrice(p, q, interest, f, m);
    FeeValue(p + interest, q, f, m);
    FeeScaled(m * (p + interest), f, interest * fee, q + m);
  }

  lemma FeeWithinInterest(interest: nat, fee: nat, f: nat)
    requires fee <= WAD && f * WAD <= interest * fee
    ensures f <= interest
  {
    MulMonotone(fee, WAD, interest);
    MulCancel(f, interest, WAD);
  }

  /** Fee shares minted at the price without the fee are worth at most the fee afterwards. */
  lemma FeeValue(total: nat, q: nat, f: nat, m: nat)
    requires f <= total && m * (total - f) <= f * q
    ensures m * total <= f * (q + m)
  {
    assert m * total == m * (total - f) + m * f;
    assert f * (q + m) == f * q + m * f;
  }

  lemma FeeScaled(value: nat, f: nat, product: nat, q: nat)
    requires value <= f * q && f * WAD <= product
    ensures value * WAD <= product * q
  {
    MulMonotone(value, f * q, WAD);
    assert f * q * WAD == f * WAD * q;
    MulMonotone(f * WAD, product, q);
  }

  /** One successful operation on a shared market by some account. */
  datatype MarketStep =
    | AccrueTo(lastUpdate: U64, timestamp: U64)
    | Supply(shares: U256, assets: U256, recorded: U256)
    | Withdraw(shares: U256, assets: U256, recorded: U256, balance: U256)

  /** The stored view of a projected market, as horizon projections rebuild it. */
  function ToStored(market: MarketState, lastUpdate: U64, fee: U256): StoredMarket {
    StoredMarket(market.supplyAssets, market.supplyShares, market.borrowAssets, market.borrowShares,
                 lastUpdate, fee, market.endingRateAtTarget)
  }

  function ApplyStep(market: MarketState, fee: U256, step: MarketStep): Result<MarketState> {
    match step
    case AccrueTo(lastUpdate, timestamp) =>
      var accrual :- Accrue(ToStored(market, lastUpdate, fee), timestamp);
      Ok(accrual.market)
    case Supply(shares, assets, recorded) =>
      var t :- Allocate(market, shares, assets, recorded, fee);
      Ok(t.market)
    case Withdraw(shares, assets, recorded, balance) =>
      var t :- Deallocate(market, shares, assets, recorded, balance, fee);
      Ok(t.market)
  }

  function RunSteps(market: MarketState, fee: U256, steps: seq<MarketStep>): Result<MarketState>
    decreases |steps|
  {
    if steps == [] then Ok(market)
    else
      var next :- ApplyStep(market, fee, steps[0]);
      RunSteps(next, fee, steps[1..])
  }

  lemma StepKeepsPrice(market: MarketState, fee: U256, step: MarketStep)
    requires ApplyStep(market, fee, step).Ok?
    ensures PriceKept(market, ApplyStep(market, fee, step).value)
  {
    hide Accrue, Allocate, Deallocate;
    match step
    case AccrueTo(lastUpdate, timestamp) => AccrueKeepsPrice(ToStored(market, lastUpdate, fee), timestamp);
    case Supply(shares, assets, recorded) => AllocateKeepsPrice(market, shares, assets, recorded, fee);
    case Withdraw(shares, assets, recorded, balance) => DeallocateKeepsPrice(market, shares, assets, recorded, balance, fee);
  }

  /** Over every interleaving of accruals, supplies and withdrawals the virtual share price never falls. */
  lemma {:induction false} RunKeepsPrice(market: MarketState, fee: U256, steps: seq<MarketStep>)
    requires RunSteps(market, fee, steps).Ok?
    ensures PriceKept(market, RunSteps(market, fee, steps).value)
    decreases |steps|
  {
    hide ApplyStep;
    if steps != [] {
      var next := ApplyStep(market, fee, steps[0]).value;
      StepKeepsPrice(market, fee, steps[0]);
      RunKeepsPrice(next, fee, steps[1..]);
      var last := RunSteps(market, fee, steps).value;
      PriceTransitive(market.P(), market.Q(), next.P(), next.Q(), last.P(), last.Q());
    }
  }

  /** So a bystander's redeemable assets never drop. */
  lemma BystanderNeverLoses(market: MarketState, fee: U256, steps: seq<MarketStep>, shares: U256)
    requires RunSteps(market, fee, steps).Ok?
    requires ExpectedAssets(shares, market).Ok? && ExpectedAssets(shares, RunSteps(market, fee, steps).value).Ok?
    ensures ExpectedAssets(shares, market).value <= ExpectedAssets(shares, RunSteps(market, fee, steps).value).value
  {
    hide RunSteps, ExpectedAssets;
    var last := RunSteps(market, fee, steps).value;
    RunKeepsPrice(market, fee, steps);
    ExpectedIsFloor(shares, market);
    ExpectedIsFloor(shares, last);
    ValueMonotone(shares, market.P(), market.Q(), last.P(), last.Q());
  }
}
