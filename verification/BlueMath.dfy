/** Morpho Blue fixed-point and share arithmetic: 256-bit products, opposing rounding, virtual offsets. */
module BlueMath {
  import opened Checked
  import opened SharePool

  const WAD: int := 1_000_000_000_000_000_000
  const VIRTUAL_SHARES: int := 1_000_000
  const VIRTUAL_ASSETS: int := 1

  // Products and quotients are defined by repeated addition and subtraction: proofs reach the nonlinear operators
  // only through the two lemmas that equate them.

  function Product(x: nat, y: nat): nat { if y == 0 then 0 else x + Product(x, y - 1) }

  function Quotient(n: nat, d: nat): (q: nat)
    requires d > 0
    ensures q <= n
    decreases n
  {
    if n < d then 0 else 1 + Quotient(n - d, d)
  }

  lemma {:induction false} ProductIsTimes(x: nat, y: nat)
    ensures Product(x, y) == x * y
    decreases y
  {
    if y > 0 {
      ProductIsTimes(x, y - 1);
      assert x * y == x * (y - 1) + x;
    }
  }

  lemma {:induction false} QuotientIsFloor(n: nat, d: nat)
    requires d > 0
    ensures Quotient(n, d) == n / d
    ensures Quotient(n, d) * d <= n < (Quotient(n, d) + 1) * d
    decreases n
  {
    var q := Quotient(n, d);
    if n >= d {
      QuotientIsFloor(n - d, d);
      assert q * d == (q - 1) * d + d && (q + 1) * d == q * d + d;
    }
    DivAtLeast(n, d, q);
    DivAtMost(n, d, q);
  }

  function MulDivDown(x: U256, y: U256, d: U256): Result<U256> {
    if d == 0 then Err(DivisionByZero)
    else if Product(x, y) > MAX_U256 then Err(Overflow)
    else Ok(Quotient(Product(x, y), d))
  }

  /** The rounding addition is part of the 256-bit intermediate. */
  function MulDivUp(x: U256, y: U256, d: U256): Result<U256> {
    if d == 0 then Err(DivisionByZero)
    else if Product(x, y) > MAX_U256 || Product(x, y) + (d - 1) > MAX_U256 then Err(Overflow)
    else Ok(Quotient(Product(x, y) + (d - 1), d))
  }

  /** Floor of the exact quotient; it fails exactly on a zero divisor or a product over 256 bits. */
  lemma MulDivDownIsFloor(x: U256, y: U256, d: U256)
    ensures MulDivDown(x, y, d).Ok? <==> d != 0 && x * y <= MAX_U256
    ensures var r := MulDivDown(x, y, d); r.Ok? ==> r.value * d <= x * y < (r.value + 1) * d
  {
    ProductIsTimes(x, y);
    if d != 0 { QuotientIsFloor(Product(x, y), d); }
  }

  lemma MulDivDownIsQuotient(x: U256, y: U256, d: U256)
    ensures var r := MulDivDown(x, y, d); r.Ok? ==> r.value == x * y / d
  {
    ProductIsTimes(x, y);
    if d != 0 { QuotientIsFloor(Product(x, y), d); }
  }

  /** Ceiling of the exact quotient. */
  lemma MulDivUpIsCeiling(x: U256, y: U256, d: U256)
    ensures MulDivUp(x, y, d).Ok? <==> d != 0 && x * y + d - 1 <= MAX_U256
    ensures var r := MulDivUp(x, y, d); r.Ok? ==> x * y <= r.value * d < x * y + d
  {
    ProductIsTimes(x, y);
    if d != 0 {
      var n := Product(x, y) + (d - 1);
      QuotientIsFloor(n, d);
      assert (Quotient(n, d) + 1) * d == Quotient(n, d) * d + d;
    }
  }

  lemma QuotientFits(n: U256, d: U256)
    requires d > 0
    ensures 0 <= n / d <= n
  {
    DivAtLeast(n, d, 0);
    MulMonotone(1, d, n + 1);
    DivAtMost(n, d, n);
  }

  function WMulDown(x: U256, y: U256): Result<U256> { MulDivDown(x, y, WAD) }

  function WDivDown(x: U256, y: U256): Result<U256> { MulDivDown(x, WAD, y) }

  /** Third-order compounding factor of rate `x` over `n` seconds. */
  function WTaylorCompounded(x: U256, n: U256): Result<U256> {
    var first :- CheckedProduct(x, n);
    var second :- MulDivDown(first, first, 2 * WAD);
    var third :- MulDivDown(second, first, 3 * WAD);
    var sum :- Add(first, second, Overflow);
    Add(sum, third, Overflow)
  }

  function CheckedProduct(x: U256, y: U256): Result<U256> {
    if 0 <= x * y <= MAX_U256 then Ok(x * y) else Err(Overflow)
  }

  function ToSharesDown(assets: U256, totalAssets: U256, totalShares: U256): Result<U256> {
    var p :- Add(totalAssets, VIRTUAL_ASSETS, Overflow);
    var q :- Add(totalShares, VIRTUAL_SHARES, Overflow);
    MulDivDown(assets, q, p)
  }

  function ToSharesUp(assets: U256, totalAssets: U256, totalShares: U256): Result<U256> {
    var p :- Add(totalAssets, VIRTUAL_ASSETS, Overflow);
    var q :- Add(totalShares, VIRTUAL_SHARES, Overflow);
    MulDivUp(assets, q, p)
  }

  function ToAssetsDown(shares: U256, totalAssets: U256, totalShares: U256): Result<U256> {
    var p :- Add(totalAssets, VIRTUAL_ASSETS, Overflow);
    var q :- Add(totalShares, VIRTUAL_SHARES, Overflow);
    MulDivDown(shares, p, q)
  }

  /** Rounding opposes the caller: shares bought with assets never redeem for more than was paid. */
  lemma DepositThenRedeem(assets: U256, totalAssets: U256, totalShares: U256)
    ensures var minted := ToSharesDown(assets, totalAssets, totalShares);
            minted.Ok? && ToAssetsDown(minted.value, totalAssets, totalShares).Ok?
            ==> ToAssetsDown(minted.value, totalAssets, totalShares).value <= assets
  {
    var p, q := totalAssets + VIRTUAL_ASSETS, totalShares + VIRTUAL_SHARES;
    var minted := ToSharesDown(assets, totalAssets, totalShares);
    if minted.Ok? && ToAssetsDown(minted.value, totalAssets, totalShares).Ok? {
      hide MulDivDown;
      MulDivDownIsFloor(assets, q, p);
      MulDivDownIsQuotient(minted.value, p, q);
      assert minted.value * p <= assets * q < (assets + 1) * q by {
        assert (assets + 1) * q == assets * q + q;
      }
      DivAtMost(minted.value * p, q, assets);
    }
  }

  /** ...and the shares burned for a withdrawal are worth at least the assets taken out. */
  lemma WithdrawCoversAssets(assets: U256, totalAssets: U256, totalShares: U256)
    ensures var burned := ToSharesUp(assets, totalAssets, totalShares);
            burned.Ok? && ToAssetsDown(burned.value, totalAssets, totalShares).Ok?
            ==> assets <= ToAssetsDown(burned.value, totalAssets, totalShares).value
  {
    var p, q := totalAssets + VIRTUAL_ASSETS, totalShares + VIRTUAL_SHARES;
    var burned := ToSharesUp(assets, totalAssets, totalShares);
    if burned.Ok? && ToAssetsDown(burned.value, totalAssets, totalShares).Ok? {
      hide MulDivDown, MulDivUp;
      MulDivUpIsCeiling(assets, q, p);
      MulDivDownIsQuotient(burned.value, p, q);
      DivAtLeast(burned.value * p, q, assets);
    }
  }
}
