/** The wrapped ERC-4626 vault behind the liquidity adapter (EIP-4626 previews with opposing rounding). */
module VaultV1Adapter {
  import opened Checked
  import opened SharePool
  import opened BlueMath

  type U8 = x: int | 0 <= x < 256

  /** The fields of the liquidity adapter that an action reads or writes. */
  datatype LiquidityState = LiquidityState(
    adapter: nat,
    adapterCap: nat,
    realAssets: U256,
    recordedAllocation: U256,
    shareBalance: U256,
    vaultAssets: U256,
    vaultSupply: U256,
    decimalsOffset: U8,
    maxDeposit: U256,
    maxWithdraw: U256,
    idleMarketAssets: U256,
    idleMarketShares: U256,
    idleMarketOwned: U256)

  datatype Transition = Transition(
    vaultAssets: U256,
    vaultSupply: U256,
    shareBalance: U256,
    realAssets: U256,
    allocationChange: I256,
    changedMorphoShares: U256,
    idleMarketAssets: U256,
    idleMarketShares: U256,
    idleMarketOwned: U256)

  function Pow10(k: nat): (p: nat)
    ensures p >= 1
  {
    if k == 0 then 1 else 10 * Pow10(k - 1)
  }

  function VirtualShares(offset: U8): Result<U256> {
    if Pow10(offset) <= MAX_U256 then Ok(Pow10(offset)) else Err(Invariant)
  }

  /** The loop fails at the first product that leaves 256 bits, which is when the power itself does. */
  method ComputeVirtualShares(offset: U8) returns (r: Result<U256>)
    ensures r == VirtualShares(offset)
  {
    var value: U256 := 1;
    for i := 0 to offset
      invariant value == Pow10(i)
    {
      if value * 10 > MAX_U256 {
        Pow10Monotone(i + 1, offset);
        return Err(Invariant);
      }
      value := value * 10;
    }
    return Ok(value);
  }

  lemma {:induction false} Pow10Monotone(j: nat, k: nat)
    requires j <= k
    ensures Pow10(j) <= Pow10(k)
    decreases k
  {
    if j < k { Pow10Monotone(j, k - 1); }
  }

  /** Assets and shares with their virtual offsets. */
  function ConversionTotals(assets: U256, supply: U256, offset: U8): Result<(U256, U256)> {
    var p :- Add(assets, 1, Invariant);
    var v :- VirtualShares(offset);
    var q :- Add(supply, v, Invariant);
    Ok((p, q))
  }

  function PreviewDeposit(assets: U256, totalAssets: U256, totalSupply: U256, offset: U8): Result<U256> {
    var t :- ConversionTotals(totalAssets, totalSupply, offset);
    MulDivDown(assets, t.1, t.0)
  }

  function PreviewWithdraw(assets: U256, totalAssets: U256, totalSupply: U256, offset: U8): Result<U256> {
    var t :- ConversionTotals(totalAssets, totalSupply, offset);
    MulDivUp(assets, t.1, t.0)
  }

  function PreviewRedeem(shares: U256, totalAssets: U256, totalSupply: U256, offset: U8): Result<U256> {
    var t :- ConversionTotals(totalAssets, totalSupply, offset);
    MulDivDown(shares, t.0, t.1)
  }

  function Allocate(s: LiquidityState, assets: U256): Result<Transition> {
    if assets == 0 || assets > s.maxDeposit then Err(Invariant)
    else
      var minted :- PreviewDeposit(assets, s.vaultAssets, s.vaultSupply, s.decimalsOffset);
      if minted == 0 then Err(Invariant)
      else
        var morphoShares :- ToSharesDown(assets, s.idleMarketAssets, s.idleMarketShares);
        if morphoShares == 0 then Err(Invariant)
        else
          var vaultAssets :- Add(s.vaultAssets, assets, Invariant);
          var vaultSupply :- Add(s.vaultSupply, minted, Invariant);
          var balance :- Add(s.shareBalance, minted, Invariant);
          var redeemable :- PreviewRedeem(balance, vaultAssets, vaultSupply, s.decimalsOffset);
          var delta :- AllocationChange(redeemable, s.recordedAllocation);
          var idleAssets :- Add(s.idleMarketAssets, assets, Invariant);
          var idleShares :- Add(s.idleMarketShares, morphoShares, Invariant);
          var idleOwned :- Add(s.idleMarketOwned, morphoShares, Invariant);
          Ok(Transition(vaultAssets, vaultSupply, balance, redeemable, delta, morphoShares, idleAssets, idleShares, idleOwned))
  }

  function Deallocate(s: LiquidityState, assets: U256): Result<Transition> {
    if assets == 0 || assets > s.maxWithdraw || assets > s.vaultAssets then Err(InsufficientLiquidity)
    else
      var burned :- PreviewWithdraw(assets, s.vaultAssets, s.vaultSupply, s.decimalsOffset);
      if burned > s.shareBalance || burned > s.vaultSupply then Err(InsufficientShares)
      else
        var morphoShares :- ToSharesUp(assets, s.idleMarketAssets, s.idleMarketShares);
        if morphoShares > s.idleMarketOwned || morphoShares > s.idleMarketShares then Err(InsufficientShares)
        else
          var vaultAssets := s.vaultAssets - assets;
          var vaultSupply := s.vaultSupply - burned;
          var balance := s.shareBalance - burned;
          var redeemable :- PreviewRedeem(balance, vaultAssets, vaultSupply, s.decimalsOffset);
          var delta :- AllocationChange(redeemable, s.recordedAllocation);
          var idleAssets :- Sub(s.idleMarketAssets, assets, Invariant);
          Ok(Transition(vaultAssets, vaultSupply, balance, redeemable, delta, morphoShares, idleAssets,
                        s.idleMarketShares - morphoShares, s.idleMarketOwned - morphoShares))
  }

  function AllocationChange(after: U256, before: U256): Result<I256> {
    var a :- Positive(after);
    var b :- Positive(before);
    Signed(a - b, SignedConversion)
  }

  // ---------------------------------------------------------------- what an action costs

  /** The wrapped vault's virtual assets and shares. */
  function P(s: LiquidityState): nat { s.vaultAssets + 1 }
  function Q(s: LiquidityState): nat { s.vaultSupply + Pow10(s.decimalsOffset) }

  /** The redeem value of the adapter's own shares at the current price. */
  function RedeemValue(s: LiquidityState): nat { s.shareBalance * P(s) / Q(s) }

  /** The state the simulator keeps after a transition. */
  function After(s: LiquidityState, t: Transition): LiquidityState {
    s.(vaultAssets := t.vaultAssets, vaultSupply := t.vaultSupply, shareBalance := t.shareBalance,
       realAssets := t.realAssets, idleMarketAssets := t.idleMarketAssets,
       idleMarketShares := t.idleMarketShares, idleMarketOwned := t.idleMarketOwned)
  }

  lemma PreviewRedeemValue(shares: U256, totalAssets: U256, totalSupply: U256, offset: U8)
    requires PreviewRedeem(shares, totalAssets, totalSupply, offset).Ok?
    ensures PreviewRedeem(shares, totalAssets, totalSupply, offset).value
            == shares * (totalAssets + 1) / (totalSupply + Pow10(offset))
  {
    hide MulDivDown;
    MulDivDownIsQuotient(shares, totalAssets + 1, totalSupply + Pow10(offset));
  }

  /** A deposit values the adapter exactly, never lowers the vault's price, keeps it at or below one if
      it was, and costs at most the ceiling of the price. */
  lemma AllocateEffect(s: LiquidityState, assets: U256)
    requires Allocate(s, assets).Ok?
    ensures var t := Allocate(s, assets).value;
            var n := After(s, t);
            && t.realAssets == RedeemValue(n) && P(n) == P(s) + assets
            && PriceAtMost(P(s), Q(s), P(n), Q(n))
            && (P(s) <= Q(s) ==> P(n) <= Q(n))
            && RedeemValue(s) + assets <= t.realAssets + PriceCeiling(P(s), Q(s))
            && t.allocationChange == t.realAssets - s.recordedAllocation
  {
    hide MulDivDown, PreviewRedeem, ToSharesDown;
    var t := Allocate(s, assets).value;
    var minted := t.shareBalance - s.shareBalance;
    MulDivDownIsFloor(assets, Q(s), P(s));
    PreviewRedeemValue(t.shareBalance, t.vaultAssets, t.vaultSupply, s.decimalsOffset);
    DepositKeepsPrice(P(s), Q(s), assets, minted);
    DepositLoss(s.shareBalance, P(s), Q(s), assets, minted);
    if P(s) <= Q(s) { DepositKeepsBelowOne(P(s), Q(s), assets, minted); }
  }

  lemma DeallocateEffect(s: LiquidityState, assets: U256)
    requires Deallocate(s, assets).Ok?
    ensures var t := Deallocate(s, assets).value;
            var n := After(s, t);
            && t.realAssets == RedeemValue(n) && P(n) == P(s) - assets
            && PriceAtMost(P(s), Q(s), P(n), Q(n))
            && (P(s) <= Q(s) ==> P(n) <= Q(n))
            && RedeemValue(s) <= t.realAssets + assets + PriceCeiling(P(s), Q(s))
            && t.allocationChange == t.realAssets - s.recordedAllocation
  {
    hide MulDivDown, MulDivUp, PreviewRedeem, ToSharesUp;
    var t := Deallocate(s, assets).value;
    var burned := s.shareBalance - t.shareBalance;
    MulDivUpIsCeiling(assets, Q(s), P(s));
    PreviewRedeemValue(t.shareBalance, t.vaultAssets, t.vaultSupply, s.decimalsOffset);
    WithdrawKeepsPrice(P(s), Q(s), assets, burned);
    WithdrawLoss(s.shareBalance, P(s), Q(s), assets, burned);
    if P(s) <= Q(s) { WithdrawKeepsBelowOne(P(s), Q(s), assets, burned); }
  }

  /** EIP-4626: redeeming what a deposit minted returns at most the deposit, and the shares charged for
      a withdrawal redeem for at least the withdrawal. */
  lemma PreviewsOppose(assets: U256, totalAssets: U256, totalSupply: U256, offset: U8)
    ensures var minted := PreviewDeposit(assets, totalAssets, totalSupply, offset);
            minted.Ok? && PreviewRedeem(minted.value, totalAssets, totalSupply, offset).Ok?
            ==> PreviewRedeem(minted.value, totalAssets, totalSupply, offset).value <= assets
    ensures var burned := PreviewWithdraw(assets, totalAssets, totalSupply, offset);
            burned.Ok? && PreviewRedeem(burned.value, totalAssets, totalSupply, offset).Ok?
            ==> assets <= PreviewRedeem(burned.value, totalAssets, totalSupply, offset).value
  {
    hide MulDivDown, MulDivUp;
    var totals := ConversionTotals(totalAssets, totalSupply, offset);
    if totals.Ok? {
      var (p, q) := totals.value;
      MulDivDownIsFloor(assets, q, p);
      MulDivUpIsCeiling(assets, q, p);
      var minted, burned := PreviewDeposit(assets, totalAssets, totalSupply, offset), PreviewWithdraw(assets, totalAssets, totalSupply, offset);
      if minted.Ok? {
        MulDivDownIsFloor(minted.value, p, q);
        var back := MulDivDown(minted.value, p, q);
        if back.Ok? { MulCancel(back.value, assets, q); }
      }
      if burned.Ok? {
        MulDivDownIsFloor(burned.value, p, q);
        var back := MulDivDown(burned.value, p, q);
        if back.Ok? && back.value < assets { MulMonotone(back.value + 1, assets, q); }
      }
    }
  }
}
