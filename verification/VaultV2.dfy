/** Parent vault accrual: max-rate limited total assets and the two fee mints. */
module VaultV2 {
  import opened Checked
  import opened SharePool
  import opened BlueMath

  datatype Parent = Parent(
    idleAssets: U256,
    storedTotalAssets: U256,
    lastUpdate: U64,
    maxRate: U256,
    totalSupply: U256,
    virtualShares: U256,
    performanceFee: U256,
    performanceFeeAllowed: bool,
    managementFee: U256,
    managementFeeAllowed: bool)

  datatype Accrual = Accrual(
    totalAssets: U256,
    totalSupply: U256,
    performanceFeeShares: U256,
    managementFeeShares: U256)

  /** Idle assets plus every adapter's real assets, in adapter order. */
  function RealAssets(idle: U256, adapters: seq<U256>): Result<U256>
    decreases |adapters|
  {
    if adapters == [] then Ok(idle)
    else
      var sum :- Add(idle, adapters[0], Overflow);
      RealAssets(sum, adapters[1..])
  }

  function PerformanceFeeAssets(parent: Parent, interest: U256): Result<U256> {
    if interest != 0 && parent.performanceFee != 0 && parent.performanceFeeAllowed
    then MulDivDown(interest, parent.performanceFee, WAD)
    else Ok(0)
  }

  function ManagementFeeAssets(parent: Parent, total: U256, elapsed: U256): Result<U256> {
    if elapsed != 0 && parent.managementFee != 0 && parent.managementFeeAllowed then
      var timeWeighted :- CheckedProduct(total, elapsed);
      MulDivDown(timeWeighted, parent.managementFee, WAD)
    else Ok(0)
  }

  /** Real assets limited by the maximum growth since the last update. */
  function LimitedTotal(parent: Parent, held: U256, elapsed: U256): Result<U256> {
    var elapsedAssets :- CheckedProduct(parent.storedTotalAssets, elapsed);
    var growth :- MulDivDown(elapsedAssets, parent.maxRate, WAD);
    var ceiling :- Add(parent.storedTotalAssets, growth, Overflow);
    Ok(Min(held, ceiling))
  }

  /** Both fee mints are priced against the same assets without fees. */
  function MintFees(parent: Parent, total: U256, performance: U256, management: U256): Result<Accrual> {
    var afterPerformance :- Sub(total, performance, Invariant);
    var withoutFees :- Sub(afterPerformance, management, Invariant);
    var denominator :- Add(withoutFees, 1, Overflow);
    var shares :- Add(parent.totalSupply, parent.virtualShares, Overflow);
    var performanceShares :- MulDivDown(performance, shares, denominator);
    var managementShares :- MulDivDown(management, shares, denominator);
    var supply :- Add(parent.totalSupply, performanceShares, Overflow);
    var supply' :- Add(supply, managementShares, Overflow);
    Ok(Accrual(total, supply', performanceShares, managementShares))
  }

  function AccrueParent(parent: Parent, adapters: seq<U256>, timestamp: U64): Result<Accrual> {
    if timestamp < parent.lastUpdate then Err(TimestampRegression)
    else
      var held :- RealAssets(parent.idleAssets, adapters);
      var elapsed := timestamp - parent.lastUpdate;
      var total :- LimitedTotal(parent, held, elapsed);
      var interest := SaturatingSub(total, parent.storedTotalAssets);
      var performance :- PerformanceFeeAssets(parent, interest);
      var management :- ManagementFeeAssets(parent, total, elapsed);
      MintFees(parent, total, performance, management)
  }

  /** The fee mints leave the share price at or above the price of the assets without fees, and together
      redeem for at most the fees. */
  lemma FeeMintsKeepPrice(parent: Parent, total: U256, performance: U256, management: U256)
    requires MintFees(parent, total, performance, management).Ok?
    ensures var a := MintFees(parent, total, performance, management).value;
            var q, m := parent.totalSupply + parent.virtualShares, a.performanceFeeShares + a.managementFeeShares;
            && performance + management <= total && a.totalAssets == total && a.totalSupply == parent.totalSupply + m
            && PriceAtMost(total - performance - management + 1, q, total + 1, q + m)
            && m * (total + 1) <= (performance + management) * (q + m)
  {
    hide MulDivDown;
    var a := MintFees(parent, total, performance, management).value;
    var w, q := total - performance - management + 1, parent.totalSupply + parent.virtualShares;
    var p, m := a.performanceFeeShares, a.managementFeeShares;
    MulDivDownIsFloor(performance, q, w);
    MulDivDownIsFloor(management, q, w);
    assert (p + m) * w <= (performance + management) * q by {
      assert (p + m) * w == p * w + m * w;
      assert (performance + management) * q == performance * q + management * q;
    }
    DepositKeepsPrice(w, q, performance + management, p + m);
    assert (p + m) * (total + 1) == (p + m) * w + (p + m) * (performance + management);
    assert (performance + management) * (q + (p + m)) == (performance + management) * q + (performance + management) * (p + m);
  }

  /** Performance and management fees charged by an accrual that succeeds. */
  function FeeAssets(parent: Parent, held: U256, elapsed: U256): nat
    requires LimitedTotal(parent, held, elapsed).Ok?
  {
    var total := LimitedTotal(parent, held, elapsed).value;
    var performance := PerformanceFeeAssets(parent, SaturatingSub(total, parent.storedTotalAssets));
    var management := ManagementFeeAssets(parent, total, elapsed);
    if performance.Ok? && management.Ok? then performance.value + management.value else 0
  }

  /** Accrual as a whole: total assets never exceed the assets held, the fee mint leaves the price at or
      above that of the assets without fees, and the fee shares redeem for at most the fees. */
  lemma AccrualKeepsPrice(parent: Parent, adapters: seq<U256>, timestamp: U64)
    requires AccrueParent(parent, adapters, timestamp).Ok?
    ensures RealAssets(parent.idleAssets, adapters).Ok?
    ensures var a := AccrueParent(parent, adapters, timestamp).value;
            var held, elapsed := RealAssets(parent.idleAssets, adapters).value, timestamp - parent.lastUpdate;
            var q := parent.totalSupply + parent.virtualShares;
            && LimitedTotal(parent, held, elapsed) == Ok(a.totalAssets) && a.totalAssets <= held
            && parent.totalSupply <= a.totalSupply
            && var fees := FeeAssets(parent, held, elapsed);
               && fees <= a.totalAssets
               && PriceAtMost(a.totalAssets - fees + 1, q, a.totalAssets + 1, a.totalSupply + parent.virtualShares)
               && (a.totalSupply - parent.totalSupply) * (a.totalAssets + 1) <= fees * (a.totalSupply + parent.virtualShares)
  {
    hide MulDivDown, MintFees, RealAssets, PerformanceFeeAssets, ManagementFeeAssets;
    var held := RealAssets(parent.idleAssets, adapters).value;
    var elapsed := timestamp - parent.lastUpdate;
    var total := LimitedTotal(parent, held, elapsed).value;
    var performance := PerformanceFeeAssets(parent, SaturatingSub(total, parent.storedTotalAssets)).value;
    var management := ManagementFeeAssets(parent, total, elapsed).value;
    FeeMintsKeepPrice(parent, total, performance, management);
  }
}
