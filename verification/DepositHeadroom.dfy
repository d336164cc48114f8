/**
 The largest deposit that the liquidity path can allocate at once.

 The search bisects over a test that is not downward closed in general: relative caps grow with the deposit and
 both sides round.  Stated here is how far it can be from closed, and when it is exactly closed.
 */
module DepositHeadroom {
  import opened Checked
  import opened SharePool
  import opened BlueMath
  import opened AdaptiveCurve
  import opened Market
  import opened Simulation
  import opened ExitCoverage
  import VaultV2
  import V1 = VaultV1Adapter

  // ---------------------------------------------------------------- the valuation of a growing deposit

  /** A larger deposit never values its owner lower, as long as the owner's shares are among the pool's. */
  lemma ValueRises(s: nat, p: nat, q: nat, a: nat, ma: nat, b: nat, mb: nat)
    requires 0 < q && s <= q && a <= b && ma <= mb
    ensures (s + ma) * (p + a) / (q + ma) <= (s + mb) * (p + b) / (q + mb)
  {
    hide PriceAtMost;
    ShareRises(s, q, ma, mb);
    ShareOfMore(s + ma, q + ma, s + mb, q + mb, p + a, p + b);
  }

  lemma ShareRises(s: nat, q: nat, ma: nat, mb: nat)
    requires s <= q && ma <= mb
    ensures PriceAtMost(s + ma, q + ma, s + mb, q + mb)
  {
    MulMonotone(s, q, mb - ma);
    assert (s + ma) * (q + mb) == (s + ma) * (q + ma) + s * (mb - ma) + ma * (mb - ma);
    assert (s + mb) * (q + ma) == (s + ma) * (q + ma) + q * (mb - ma) + ma * (mb - ma);
  }

  /** A larger share of a larger pool is worth no less. */
  lemma ShareOfMore(x: nat, y: nat, x': nat, y': nat, assets: nat, assets': nat)
    requires 0 < y && 0 < y' && PriceAtMost(x, y, x', y') && assets <= assets'
    ensures x * assets / y <= x' * assets' / y'
  {
    hide PriceAtMost;
    MulCommutes(x, assets);
    MulCommutes(x', assets');
    ValueMonotone(assets, x, y, x', y');
    MulMonotone(assets, assets', x');
    DivMonotone(assets * x', assets' * x', y');
  }

  /** What is left of a pool of `x` assets and `y` shares for the `o` shares of the other owners: it covers their
      share, and in a pool priced at or below one it is at most one unit per share. */
  lemma OthersHold(v: nat, x: nat, y: nat, o: nat)
    requires 0 < y && x <= y && o <= y && v == (y - o) * x / y
    ensures v <= x && x - v <= o && o * x <= (x - v) * y
  {
    DivBounds((y - o) * x, y);
    MulSum(y - o, o, x);
    MulCommutes(x, y);
    MulSum(v, x - v, y);
    LeftIsNonNegative(v, x, y, o);
    LeftAtMostShares(v, x, y, o);
  }

  lemma LeftIsNonNegative(v: int, x: nat, y: nat, o: nat)
    requires 0 < y && o * x <= (x - v) * y
    ensures v <= x
  {
    MulMonotone(0, o, x);
    if v > x { MulMonotone(x - v, -1, y); }
  }

  lemma LeftAtMostShares(v: nat, x: nat, y: nat, o: nat)
    requires 0 < y && x <= y && x * y - o * x < (v + 1) * y
    ensures x - v <= o
  {
    MulMonotone(x, y, o);
    MulCommutes(o, x);
    MulCommutes(o, y);
    MulSum(x - o, o, y);
    if x - o > v { MulMonotone(v + 1, x - o, y); }
  }

  /** The others' holding at the price before the deposit. */
  lemma OthersAtOldPrice(k: nat, o: nat, p: nat, q: nat, a: nat, m: nat)
    requires 0 < p && o * (p + a) <= k * (q + m) && m * p <= a * q
    ensures o * p <= k * q
  {
    MulSum(q, m, p);
    MulSum(p, a, q);
    MulCommutes(p, q);
    // (q + m) * p <= (p + a) * q: the deposit does not lower the price.
    OldPriceCore(k, o, p, q, p + a, q + m);
  }

  lemma OldPriceCore(k: nat, o: nat, p: nat, q: nat, x: nat, y: nat)
    requires 0 < x && o * x <= k * y && y * p <= x * q
    ensures o * p <= k * q
  {
    MulMonotone(o * x, k * y, p);
    MulMonotone(y * p, x * q, k);
    Rotate(o, x, p);
    Rotate(k, y, p);
    MulCommutes(y * p, k);
    MulAssociates(k, y, p);
    MulCommutes(x * q, k);
    MulAssociates(k, x, q);
    Rotate(k, x, q);
    MulCancel(o * p, k * q, x);
  }

  lemma Rotate(x: int, y: int, z: int)
    ensures x * y * z == x * z * y
  {
  }

  /** In a pool priced at or below one a deposit grows its owner's valuation unit by unit, up to one unit of
      rounding. */
  lemma ValueGrows(s: nat, p: nat, q: nat, a: nat, ma: nat, b: nat, mb: nat)
    requires 0 < p <= q && s <= q && a <= b
    requires ma * p <= a * q < (ma + 1) * p && mb * p <= b * q < (mb + 1) * p
    ensures (s + ma) * (p + a) / (q + ma) + (b - a) <= (s + mb) * (p + b) / (q + mb) + 1
  {
    var o, v := q - s, (s + ma) * (p + a) / (q + ma);
    DepositKeepsBelowOne(p, q, a, ma);
    assert s + ma == (q + ma) - o && s + mb == (q + mb) - o;
    ValueNonNegative(s + ma, p + a, q + ma);
    OthersHold(v, p + a, q + ma, o);
    OthersAtOldPrice(p + a - v, o, p, q, a, ma);
    GrownShare(p + a - v, o, p, q, b, mb);
    GrownValue(p + a - v, o, p + b, q + mb);
    DivAtLeast((s + mb) * (p + b), q + mb, v + (b - a) - 1);
  }

  lemma ValueNonNegative(s: nat, x: nat, y: nat)
    requires 0 < y
    ensures 0 <= s * x / y
  {
    MulMonotone(0, s, x);
    DivAtLeast(s * x, y, 0);
  }

  /** The others' shares of the grown pool are worth at most one unit more than before. */
  lemma GrownShare(k: nat, o: nat, p: nat, q: nat, b: nat, mb: nat)
    requires 0 < q && k <= o <= q && o * p <= k * q && b * q < (mb + 1) * p
    ensures o * (p + b) <= (k + 1) * (q + mb)
  {
    var y := q + mb;
    MulSum(p, b, q);
    MulSum(q, mb + 1, p);
    MulCommutes(p, q);
    // (p + b) * q <= (y + 1) * p
    GrownShareCore(k, o, p, q, p + b, y + 1);
    MulCommutes(k, y + 1);
    MulSum(y, 1, k);
    MulSum(k, 1, y);
    MulCommutes(k, y);
  }

  lemma GrownShareCore(k: nat, o: nat, p: nat, q: nat, x: nat, z: nat)
    requires 0 < q && o * p <= k * q && x * q <= z * p
    ensures o * x <= k * z
  {
    MulMonotone(x * q, z * p, o);
    MulMonotone(o * p, k * q, z);
    MulCommutes(x * q, o);
    MulAssociates(o, x, q);
    MulCommutes(z * p, o);
    MulAssociates(o, z, p);
    Rotate(o, z, p);
    Rotate(k, q, z);
    MulCancel(o * x, k * z, q);
  }

  lemma GrownValue(k: nat, o: nat, x: nat, y: nat)
    requires o <= y && o * x <= (k + 1) * y
    ensures (x - k - 1) * y <= (y - o) * x
  {
    MulSum(x - k - 1, k + 1, y);
    MulSum(y - o, o, x);
    MulCommutes(x, y);
  }

  /** Two units or more are worth at least one, and more than a smaller deposit when that is worth one already. */
  lemma SecondUnit(s: nat, p: nat, q: nat, a: nat, ma: nat, b: nat, mb: nat)
    requires 0 < p <= q && s <= q && 0 < a < b
    requires ma * p <= a * q < (ma + 1) * p && mb * p <= b * q < (mb + 1) * p
    ensures 1 <= (s + mb) * (p + b) / (q + mb)
    ensures (s + mb) * (p + b) / (q + mb) >= 2 || (s + ma) * (p + a) / (q + ma) == 0
  {
    var value := (s + mb) * (p + b);
    TwoUnits(s, p, q, b, mb);
    DivAtLeast(value, q + mb, 1);
    if 2 * (q + mb) <= value {
      DivAtLeast(value, q + mb, 2);
    } else {
      assert s == 0 && b == 2 && a == 1;
      assert mb * p < 2 * q by { MulSum(p, 2, mb); MulCommutes(mb, p); MulCommutes(mb, p + 2); }
      SmallMint(p, q, ma, mb);
      DivAtMost(ma * (p + 1), q + ma, 0);
      ValueNonNegative(ma, p + 1, q + ma);
    }
  }

  lemma TwoUnits(s: nat, p: nat, q: nat, b: nat, m: nat)
    requires 0 < p <= q && 2 <= b && b * q < (m + 1) * p
    ensures q + m <= (s + m) * (p + b)
    ensures s > 0 || b > 2 ==> 2 * (q + m) <= (s + m) * (p + b)
  {
    MulCommutes(s + m, p + b);
    MulSum(p, b, s + m);
    MulCommutes(p, s + m);
    MulSum(s, m, p);
    MulSum(m, 1, p);
    MulMonotone(2, b, s + m);
    MulMonotone(if s > 0 then 1 else 0, s, p);
    MulMonotone(if b > 2 then 3 else 2, b, q);
  }

  /** If two units do not mint a price that is worth two, one unit is worth less than one. */
  lemma SmallMint(p: nat, q: nat, m: nat, n: nat)
    requires 0 < p && m * p <= q && n * p < 2 * q < (n + 1) * p
    ensures m * (p + 1) < q + m
  {
    MulSum(p, 1, m);
    MulCommutes(m, p);
    MulCommutes(m, p + 1);
    if m * p == q {
      MulAssociates(2, m, p);
      if 2 * m <= n { MulMonotone(2 * m, n, p); } else { MulMonotone(n + 1, 2 * m, p); }
    }
  }

  /** Valuations `x` and `y` of deposits `a` and `b`: they differ by at least the difference less one unit of
      rounding, and a second unit is always seen. */
  predicate UnitByUnit(x: U256, a: U256, y: U256, b: U256) {
    x + (b - a) <= y + 1 && (a < b ==> 1 <= y && (y == 1 ==> x == 0))
  }

  lemma ValueUnitByUnit(s: nat, p: nat, q: nat, a: U256, ma: nat, b: U256, mb: nat)
    requires 0 < p <= q && s <= q && 0 < a <= b
    requires ma * p <= a * q < (ma + 1) * p && mb * p <= b * q < (mb + 1) * p
    requires (s + ma) * (p + a) / (q + ma) <= MAX_U256 && (s + mb) * (p + b) / (q + mb) <= MAX_U256
    ensures 0 <= (s + ma) * (p + a) / (q + ma) && 0 <= (s + mb) * (p + b) / (q + mb)
    ensures UnitByUnit((s + ma) * (p + a) / (q + ma), a, (s + mb) * (p + b) / (q + mb), b)
  {
    ValueNonNegative(s + ma, p + a, q + ma);
    ValueNonNegative(s + mb, p + b, q + mb);
    ValueGrows(s, p, q, a, ma, b, mb);
    if a < b { SecondUnit(s, p, q, a, ma, b, mb); }
  }

  // ---------------------------------------------------------------- smaller supplies succeed

  /** A solvent market within Morpho's widths whose target rate is unset or in its band, and an owner whose shares
      are among the market's. */
  predicate Sound(m: MarketState, shares: U256) {
    && m.borrowAssets <= m.supplyAssets && m.borrowAssets <= MAX_U128
    && ValidStoredRate(m.endingRateAtTarget) && shares <= m.Q()
  }

  lemma SpotRateTotal(utilization: U256, rate: U256)
    requires utilization <= WAD && ValidStoredRate(rate)
    ensures SpotRate(utilization, rate).Ok? && SpotRate(utilization, rate).value <= 4 * rate
  {
    ErrorMonotone(utilization, utilization);
    var error := NormalizedError(utilization).value;
    CurveIsFactor(rate, error);
    FactorMonotone(error, error);
    hide Curve, Factor, NormalizedError;
    MulMonotone(Factor(error), 4 * WAD, rate);
    ScaleWithinFourfold(Factor(error), rate);
  }

  lemma SupplyRateTotal(rate: U256, utilization: U256, fee: U256)
    requires rate <= 4 * MAX_RATE_AT_TARGET && utilization <= WAD && fee <= WAD
    ensures SupplyRate(rate, utilization, fee).Ok?
  {
    hide MulDivDown;
    MulMonotone(rate, 4 * MAX_RATE_AT_TARGET, utilization);
    MulDivDownIsFloor(rate, utilization, WAD);
    var gross := MulDivDown(rate, utilization, WAD).value;
    MulMonotone(utilization, WAD, 4 * MAX_RATE_AT_TARGET);
    MulCancel(gross, 4 * MAX_RATE_AT_TARGET, WAD);
    MulMonotone(gross, 4 * MAX_RATE_AT_TARGET, WAD - fee);
    MulDivDownIsFloor(gross, WAD - fee, WAD);
  }

  /** The rates of every sound market can be refreshed. */
  lemma RefreshTotal(m: MarketState, fee: U256)
    requires m.borrowAssets <= m.supplyAssets && m.borrowAssets <= MAX_U128 && ValidStoredRate(m.endingRateAtTarget)
    ensures RefreshRates(m, fee).Ok? <==> fee <= WAD
  {
    hide Utilization, SpotRate, SupplyRate;
    UtilizationBounds(m.borrowAssets, m.supplyAssets);
    var u := Utilization(m.borrowAssets, m.supplyAssets).value;
    SpotRateTotal(u, m.endingRateAtTarget);
    if fee <= WAD { SupplyRateTotal(SpotRate(u, m.endingRateAtTarget).value, u, fee); }
  }

  /** What a supply needs before it is settled. */
  predicate Suppliable(m: MarketState, shares: U256, a: U256) {
    && ToSharesDown(a, m.supplyAssets, m.supplyShares).Ok?
    && var minted := ToSharesDown(a, m.supplyAssets, m.supplyShares).value;
       && (a == 0 || a <= minted) && m.supplyAssets + a <= MAX_U256
       && m.supplyShares + minted <= MAX_U256 && shares + minted <= MAX_U256
  }

  function Minted(m: MarketState, shares: U256, a: U256): U256
    requires Suppliable(m, shares, a)
  {
    ToSharesDown(a, m.supplyAssets, m.supplyShares).value
  }

  function Filled(m: MarketState, shares: U256, a: U256): MarketState
    requires Suppliable(m, shares, a)
  {
    m.(supplyAssets := m.supplyAssets + a, supplyShares := m.supplyShares + Minted(m, shares, a))
  }

  lemma AllocateUnfolds(m: MarketState, shares: U256, a: U256, recorded: U256, fee: U256)
    ensures Allocate(m, shares, a, recorded, fee).Ok? <==>
            Suppliable(m, shares, a)
            && Settle(Filled(m, shares, a), shares + Minted(m, shares, a), Minted(m, shares, a), recorded, fee).Ok?
    ensures Suppliable(m, shares, a) ==>
              Allocate(m, shares, a, recorded, fee) ==
              Settle(Filled(m, shares, a), shares + Minted(m, shares, a), Minted(m, shares, a), recorded, fee)
  {
    hide ToSharesDown, Settle;
  }

  /** Exactly when a valuation settles. */
  lemma SettleExactly(m: MarketState, owned: U256, changed: U256, recorded: U256, fee: U256)
    ensures Settle(m, owned, changed, recorded, fee).Ok? <==>
            && RefreshRates(m, fee).Ok? && m.P() <= MAX_U256 && m.Q() <= MAX_U256
            && owned * m.P() <= MAX_U256 && owned * m.P() / m.Q() <= MAX_I256 && recorded <= MAX_I256
    ensures Settle(m, owned, changed, recorded, fee).Ok? ==>
              var t := Settle(m, owned, changed, recorded, fee).value;
              t.expectedAssets == owned * m.P() / m.Q() && t.allocationChange == t.expectedAssets - recorded
  {
    hide RefreshRates, MulDivDown;
    if RefreshRates(m, fee).Ok? && m.P() <= MAX_U256 && m.Q() <= MAX_U256 {
      assert RefreshRates(m, fee).value.P() == m.P() && RefreshRates(m, fee).value.Q() == m.Q() by { RefreshKeepsBalances(m, fee); }
      MulDivDownIsFloor(owned, m.P(), m.Q());
      MulDivDownIsQuotient(owned, m.P(), m.Q());
      ValueNonNegative(owned, m.P(), m.Q());
    } else if RefreshRates(m, fee).Ok? {
      RefreshKeepsBalances(m, fee);
    }
  }

  lemma MintMonotone(a: U256, b: U256, totalAssets: U256, totalShares: U256)
    requires a <= b && ToSharesDown(b, totalAssets, totalShares).Ok?
    ensures ToSharesDown(a, totalAssets, totalShares).Ok?
    ensures var p, q := totalAssets + VIRTUAL_ASSETS, totalShares + VIRTUAL_SHARES;
            var ma, mb := ToSharesDown(a, totalAssets, totalShares).value, ToSharesDown(b, totalAssets, totalShares).value;
            ma <= mb && ma * p <= a * q < (ma + 1) * p && mb * p <= b * q < (mb + 1) * p
  {
    hide MulDivDown;
    QuotientRises(a, b, totalShares + VIRTUAL_SHARES, totalAssets + VIRTUAL_ASSETS);
  }

  lemma QuotientRises(a: U256, b: U256, q: U256, p: U256)
    requires a <= b && MulDivDown(b, q, p).Ok?
    ensures MulDivDown(a, q, p).Ok?
    ensures var ma, mb := MulDivDown(a, q, p).value, MulDivDown(b, q, p).value;
            ma <= mb && ma * p <= a * q < (ma + 1) * p && mb * p <= b * q < (mb + 1) * p
  {
    hide MulDivDown;
    MulMonotone(a, b, q);
    MulDivDownIsFloor(a, q, p);
    MulDivDownIsFloor(b, q, p);
    FloorMonotone(a * q, b * q, p, MulDivDown(a, q, p).value, MulDivDown(b, q, p).value);
  }

  lemma FloorMonotone(m: nat, n: nat, d: nat, x: nat, y: nat)
    requires m <= n && x * d <= m && n < (y + 1) * d
    ensures x <= y
  {
    if x > y { MulMonotone(y + 1, x, d); }
  }

  /** Whenever a supply succeeds, every smaller one does; its valuation is no higher, and lower by at least the
      difference less one unit of rounding. */
  lemma AllocateSmaller(m: MarketState, shares: U256, a: U256, b: U256, recorded: U256, fee: U256)
    requires Sound(m, shares) && 0 < a <= b && Allocate(m, shares, b, recorded, fee).Ok?
    ensures Allocate(m, shares, a, recorded, fee).Ok?
    ensures var x, y := Allocate(m, shares, a, recorded, fee).value, Allocate(m, shares, b, recorded, fee).value;
            && x.expectedAssets <= y.expectedAssets && UnitByUnit(x.expectedAssets, a, y.expectedAssets, b)
            && x.allocationChange == x.expectedAssets - recorded && y.allocationChange == y.expectedAssets - recorded
  {
    hide Allocate, ToSharesDown, Settle, RefreshRates, UnitByUnit;
    AllocateUnfolds(m, shares, a, recorded, fee);
    AllocateUnfolds(m, shares, b, recorded, fee);
    MintMonotone(a, b, m.supplyAssets, m.supplyShares);
    var p, q := m.P(), m.Q();
    var ma, mb := ToSharesDown(a, m.supplyAssets, m.supplyShares).value, Minted(m, shares, b);
    PricedAtMostOne(p, q, b, mb);
    DepositKeepsBelowOne(p, q, a, ma);
    var f, g := Filled(m, shares, a), Filled(m, shares, b);
    assert f.P() == p + a && f.Q() == q + ma && g.P() == p + b && g.Q() == q + mb;
    SettleExactly(f, shares + ma, ma, recorded, fee);
    SettleExactly(g, shares + mb, mb, recorded, fee);
    RefreshTotal(f, fee);
    RefreshTotal(g, fee);
    ProductMonotone(shares + ma, shares + mb, p + a, p + b);
    ValueRises(shares, p, q, a, ma, b, mb);
    ValueUnitByUnit(shares, p, q, a, ma, b, mb);
  }

  /** A supply that mints at least its assets shows that the pool is priced at or below one. */
  lemma PricedAtMostOne(p: nat, q: nat, b: nat, mb: nat)
    requires 0 < b <= mb && mb * p <= b * q
    ensures p <= q
  {
    MulMonotone(b, mb, p);
    MulCommutes(b, p);
    MulCommutes(b, q);
    MulCancel(p, q, b);
  }

  lemma ProductMonotone(x: nat, x': nat, y: nat, y': nat)
    requires x <= x' && y <= y'
    ensures x * y <= x' * y'
  {
    MulMonotone(x, x', y);
    MulMonotone(y, y', x');
  }

  // ---------------------------------------------------------------- caps

  /** Admission of one delta at every cap, each against the recorded ledger. */
  function CapsPass(env: Env, ledger: map<CapRef, U256>, caps: seq<CapRef>, delta: I256, total: U256): Result<bool>
    decreases |caps|
  {
    if caps == [] then Ok(true)
    else
      var held :- Lookup(ledger, caps[0], IncompleteState);
      var cap :- Lookup(env.caps, caps[0], IncompleteState);
      var allocation :- ApplyDelta(held, delta);
      if !Admitted(cap, total, allocation) then Ok(false) else CapsPass(env, ledger, caps[1..], delta, total)
  }

  /** The limit does not move with the total. */
  predicate FixedLimit(cap: CapState) { cap.relativeCap == 0 || cap.relativeCap >= WAD }

  /** A cap that rounding cannot upset: its limit is fixed, or it holds at most one unit. */
  predicate Steady(cap: CapState) { FixedLimit(cap) || cap.absoluteCap <= 1 }

  /** Far enough below a passing deposit that rounding cannot matter: a cap that is not steady leaves room of
      `WAD - relativeCap` per unit. */
  predicate Spaced(cap: CapState, a: U256, b: U256)
    requires a <= b
  {
    a == b || Steady(cap) || (b - a) * (WAD - cap.relativeCap) >= WAD
  }

  predicate AllSpaced(env: Env, caps: seq<CapRef>, a: U256, b: U256)
    requires a <= b
  {
    forall c | c in caps && c in env.caps :: Spaced(env.caps[c], a, b)
  }

  lemma AdmittedSmaller(cap: CapState, total: U256, a: U256, x: U256, b: U256, y: U256)
    requires a <= b && total + b <= MAX_U256 && Admitted(cap, total + b, y)
    requires x <= y && x + (b - a) <= y + 1 && (a == b ==> x == y) && (a < b && y <= 1 ==> x == 0) && Spaced(cap, a, b)
    ensures Admitted(cap, total + a, x)
  {
    hide Admitted;
    if FixedLimit(cap) {
      AdmittedAbsolutely(cap, total + a, x, total + b, y);
    } else if a < b {
      MulMonotone(total + a, total + b, cap.relativeCap);
      if y <= 1 {
        AdmittedNothing(cap, total + a, total + b, y);
      } else {
        assert cap.absoluteCap > 1 by { AdmittedBounds(cap, total + b, y); }
        AdmittedBelow(cap, total, a, x, b, y);
      }
    }
  }

  lemma AdmittedBounds(cap: CapState, t: U256, y: U256)
    requires Admitted(cap, t, y)
    ensures y <= cap.absoluteCap && cap.relativeCap <= WAD
  {
  }

  lemma AdmittedNothing(cap: CapState, ta: U256, tb: U256, y: U256)
    requires ta * cap.relativeCap <= tb * cap.relativeCap && Admitted(cap, tb, y)
    ensures Admitted(cap, ta, 0)
  {
    DivAtLeast(ta * cap.relativeCap, WAD, 0);
  }

  lemma AdmittedBelow(cap: CapState, total: U256, a: U256, x: U256, b: U256, y: U256)
    requires a <= b && total + b <= MAX_U256 && (total + a) * cap.relativeCap <= (total + b) * cap.relativeCap
    requires Admitted(cap, total + b, y) && x <= y && x + (b - a) <= y + 1 && cap.relativeCap < WAD
    requires (b - a) * (WAD - cap.relativeCap) >= WAD
    ensures Admitted(cap, total + a, x)
  {
    LimitLeavesRoom(cap.relativeCap, total, a, x, b, y);
  }

  lemma LimitLeavesRoom(r: nat, total: nat, a: nat, x: nat, b: nat, y: nat)
    requires a <= b && r < WAD && y <= (total + b) * r / WAD && x + (b - a) <= y + 1 && (b - a) * (WAD - r) >= WAD
    ensures x <= (total + a) * r / WAD
  {
    DivBounds((total + b) * r, WAD);
    MulMonotone(y, (total + b) * r / WAD, WAD);
    MulSum(total + a, b - a, r);
    MulSum(x, b - a, WAD);
    MulMonotone(x + (b - a), y + 1, WAD);
    assert (b - a) * (WAD - r) == (b - a) * WAD - (b - a) * r;
    DivAtLeast((total + a) * r, WAD, x);
  }

  lemma AdmittedAbsolutely(cap: CapState, ta: U256, x: U256, tb: U256, y: U256)
    requires FixedLimit(cap) && x <= y && Admitted(cap, tb, y)
    ensures Admitted(cap, ta, x)
  {
  }

  lemma {:induction false} CapsPassSmaller(env: Env, ledger: map<CapRef, U256>, caps: seq<CapRef>, total: U256,
                                           a: U256, da: I256, b: U256, db: I256)
    requires a <= b && total + b <= MAX_U256 && CapsPass(env, ledger, caps, db, total + b) == Ok(true)
    requires da <= db && da + (b - a) <= db + 1 && (a == b ==> da == db) && AllSpaced(env, caps, a, b)
    requires forall c | c in caps && c in ledger :: 0 <= ledger[c] + da && (a < b && ledger[c] + db <= 1 ==> ledger[c] + da == 0)
    ensures CapsPass(env, ledger, caps, da, total + a) == Ok(true)
    decreases |caps|
  {
    hide Admitted, Spaced;
    if caps != [] {
      assert caps[0] in caps;
      var held := ledger[caps[0]];
      AdmittedSmaller(env.caps[caps[0]], total, a, held + da, b, held + db);
      CapsPassSmaller(env, ledger, caps[1..], total, a, da, b, db);
    }
  }

  // ---------------------------------------------------------------- the direct position

  /** Whether a deposit of `a` can be allocated through the direct position at once. */
  function DepositPasses(env: Env, s: State, t: Target, total: U256, a: U256): Result<bool> {
    if total + a > MAX_U128 then Ok(false)
    else
      var supplied := Allocate(t.market, t.position.shares, a, t.position.recorded, t.info.fee);
      if supplied.Err? then Ok(false)
      else CapsPass(env, s.ledger, t.position.caps, supplied.value.allocationChange, total + a)
  }

  /** Every cap of the position holds at least what is recorded for the position itself. */
  predicate Covered(s: State, t: Target) {
    forall c | c in t.position.caps && c in s.ledger :: t.position.recorded <= s.ledger[c]
  }

  /** How far the test is from downward closed: below a passing deposit every one that is spaced from it passes. */
  lemma DepositNearlyClosed(env: Env, s: State, t: Target, total: U256, a: U256, b: U256)
    requires Sound(t.market, t.position.shares) && Covered(s, t)
    requires 0 < a <= b && AllSpaced(env, t.position.caps, a, b) && DepositPasses(env, s, t, total, b) == Ok(true)
    ensures DepositPasses(env, s, t, total, a) == Ok(true)
  {
    hide Allocate, Sound, CapsPass, AllSpaced;
    AllocateSmaller(t.market, t.position.shares, a, b, t.position.recorded, t.info.fee);
    var x := Allocate(t.market, t.position.shares, a, t.position.recorded, t.info.fee).value;
    var y := Allocate(t.market, t.position.shares, b, t.position.recorded, t.info.fee).value;
    CapsPassSmaller(env, s.ledger, t.position.caps, total, a, x.allocationChange, b, y.allocationChange);
  }

  predicate AllSteady(env: Env, caps: seq<CapRef>) {
    forall c | c in caps && c in env.caps :: Steady(env.caps[c])
  }

  /** With steady caps the test is downward closed. */
  lemma DepositDownwardClosed(env: Env, s: State, t: Target, total: U256, a: U256, b: U256)
    requires Sound(t.market, t.position.shares) && Covered(s, t) && AllSteady(env, t.position.caps)
    requires 0 < a <= b && DepositPasses(env, s, t, total, b) == Ok(true)
    ensures DepositPasses(env, s, t, total, a) == Ok(true)
  {
    hide DepositPasses, Sound;
    DepositNearlyClosed(env, s, t, total, a, b);
  }

  /** Every cap of the position is this one. */
  predicate OnlyCap(env: Env, t: Target, cap: CapState) {
    forall c | c in t.position.caps && c in env.caps :: env.caps[c] == cap
  }

  /** With any other cap it is not: for every such cap there is a state in which a deposit of 3 passes and one of 2
      does not. */
  lemma DepositNotClosed(cap: CapState)
    requires !Steady(cap)
    ensures exists env: Env, s: State, t: Target, total: U256 ::
              && Sound(t.market, t.position.shares) && Covered(s, t) && OnlyCap(env, t, cap)
              && DepositPasses(env, s, t, total, 2) == Ok(false) && DepositPasses(env, s, t, total, 3) == Ok(true)
  {
    hide Allocate, Admitted, Steady;
    var c := CapRef(1, 1);
    var market := MarketState(0, 1, 1, 0, 0, 0, 0, 0, 0, 0, 1);
    var position := Position(1, 1, true, 0, 0, 0, [c, c, c], Active);
    var t := Target(position, market, MarketInfo(1, 0, 0));
    var parent := VaultV2.Parent(0, 0, 0, 0, 0, 1, 0, false, 0, false);
    var env := Env(1, 1, parent, 0, {}, map[], map[c := cap], [], [], None);
    var s := State(map[], map[], None, map[c := 0], 0, 0, None, map[], [], 0);
    var total := LimitStep(cap);
    WitnessSupply(market, 2, 1_000_001, 2);
    WitnessSupply(market, 3, 1_500_001, 2);
    CapsAgree(env, s.ledger, c, 2, total + 2);
    CapsAgree(env, s.ledger, c, 2, total + 3);
    assert DepositPasses(env, s, t, total, 2) == Ok(false);
    assert DepositPasses(env, s, t, total, 3) == Ok(true);
  }

  /** A total at which the limit of a moving cap steps up to two units between deposits of 2 and 3. */
  lemma LimitStep(cap: CapState) returns (total: U256)
    requires !Steady(cap)
    ensures total + 3 <= MAX_U128 && !Admitted(cap, total + 2, 2) && Admitted(cap, total + 3, 2)
  {
    var r, n := cap.relativeCap, 2 * WAD - 1;
    DivBounds(n, r);
    DivAtLeast(n, r, 2);
    DivAtMost(n, r, n);
    total := n / r - 2;
    assert total + 2 == n / r && total + 3 == n / r + 1;
    MulSum(n / r, 1, r);
    DivAtMost((total + 2) * r, WAD, 1);
    DivAtLeast((total + 3) * r, WAD, 2);
  }

  /** Every sound state whose only cap is this one tests downward closed. */
  ghost predicate KeepsClosed(cap: CapState) {
    forall env: Env, s: State, t: Target, total: U256, a: U256, b: U256 |
      && Sound(t.market, t.position.shares) && Covered(s, t) && OnlyCap(env, t, cap)
      && 0 < a <= b && DepositPasses(env, s, t, total, b) == Ok(true) ::
      DepositPasses(env, s, t, total, a) == Ok(true)
  }

  /** The exact condition on a cap. */
  lemma ClosedExactly(cap: CapState)
    ensures KeepsClosed(cap) <==> Steady(cap)
  {
    hide DepositPasses, Sound, Covered, Steady;
    if Steady(cap) {
      forall env: Env, s: State, t: Target, total: U256, a: U256, b: U256 |
        && Sound(t.market, t.position.shares) && Covered(s, t) && OnlyCap(env, t, cap)
        && 0 < a <= b && DepositPasses(env, s, t, total, b) == Ok(true)
        ensures DepositPasses(env, s, t, total, a) == Ok(true)
      {
        DepositDownwardClosed(env, s, t, total, a, b);
      }
    } else {
      DepositNotClosed(cap);
    }
  }

  /** Three references to one cap pass or fail together. */
  lemma CapsAgree(env: Env, ledger: map<CapRef, U256>, cap: CapRef, delta: I256, total: U256)
    requires cap in ledger && cap in env.caps && ApplyDelta(ledger[cap], delta).Ok?
    ensures CapsPass(env, ledger, [cap, cap, cap], delta, total) ==
            Ok(Admitted(env.caps[cap], total, ApplyDelta(ledger[cap], delta).value))
  {
    hide Admitted;
    assert [cap, cap, cap][1..] == [cap, cap] && [cap, cap][1..] == [cap] && [cap][1..] == [];
    assert CapsPass(env, ledger, [], delta, total) == Ok(true);
    assert CapsPass(env, ledger, [cap], delta, total) == Ok(Admitted(env.caps[cap], total, ApplyDelta(ledger[cap], delta).value));
    assert CapsPass(env, ledger, [cap, cap], delta, total) == Ok(Admitted(env.caps[cap], total, ApplyDelta(ledger[cap], delta).value));
  }

  lemma WitnessSupply(market: MarketState, a: U256, minted: U256, value: U256)
    requires market == MarketState(0, 1, 1, 0, 0, 0, 0, 0, 0, 0, 1)
    requires 0 < a <= minted <= 3_000_000 && minted * 2 <= a * 1_000_001 < (minted + 1) * 2
    requires value == minted * (a + 2) / (minted + 1_000_001) && value <= 10 && a <= 10
    ensures Allocate(market, 0, a, 0, 0).Ok?
    ensures Allocate(market, 0, a, 0, 0).value.allocationChange == value
  {
    hide ToSharesDown, Allocate, Settle, RefreshRates;
    WitnessMint(a, minted);
    AllocateUnfolds(market, 0, a, 0, 0);
    var filled := Filled(market, 0, a);
    assert filled.P() == a + 2 && filled.Q() == minted + 1_000_001;
    MulMonotone(minted, 3_000_000, a + 2);
    SettleExactly(filled, minted, minted, 0, 0);
    RefreshTotal(filled, 0);
  }

  lemma WitnessMint(a: U256, minted: U256)
    requires a <= 10 && minted * 2 <= a * 1_000_001 < (minted + 1) * 2
    ensures ToSharesDown(a, 1, 1) == Ok(minted)
  {
    hide MulDivDown;
    MulDivDownIsFloor(a, 1_000_001, 2);
  }

  // ---------------------------------------------------------------- the liquidity adapter

  /** A deposit large enough to mint a share of the wrapped vault and of its idle market. */
  predicate Mints(l: V1.LiquidityState, a: U256) {
    && V1.P(l) <= a * V1.Q(l)
    && l.idleMarketAssets + VIRTUAL_ASSETS <= a * (l.idleMarketShares + VIRTUAL_SHARES)
  }

  /** The shares minted in the wrapped vault and in its idle market, with the sums that must fit. */
  predicate Depositable(l: V1.LiquidityState, a: U256) {
    && 0 < a <= l.maxDeposit
    && V1.PreviewDeposit(a, l.vaultAssets, l.vaultSupply, l.decimalsOffset).Ok?
    && ToSharesDown(a, l.idleMarketAssets, l.idleMarketShares).Ok?
    && var m := V1.PreviewDeposit(a, l.vaultAssets, l.vaultSupply, l.decimalsOffset).value;
       var i := ToSharesDown(a, l.idleMarketAssets, l.idleMarketShares).value;
       && m > 0 && i > 0
       && l.vaultAssets + a <= MAX_U256 && l.vaultSupply + m <= MAX_U256 && l.shareBalance + m <= MAX_U256
       && l.idleMarketAssets + a <= MAX_U256 && l.idleMarketShares + i <= MAX_U256 && l.idleMarketOwned + i <= MAX_U256
       && V1.PreviewRedeem(l.shareBalance + m, l.vaultAssets + a, l.vaultSupply + m, l.decimalsOffset).Ok?
       && V1.PreviewRedeem(l.shareBalance + m, l.vaultAssets + a, l.vaultSupply + m, l.decimalsOffset).value <= MAX_I256
       && l.recordedAllocation <= MAX_I256
  }

  lemma AdapterUnfolds(l: V1.LiquidityState, a: U256)
    ensures V1.Allocate(l, a).Ok? <==> Depositable(l, a)
    ensures V1.Allocate(l, a).Ok? ==>
              var t := V1.Allocate(l, a).value;
              && t.allocationChange == t.realAssets - l.recordedAllocation
              && var m := V1.PreviewDeposit(a, l.vaultAssets, l.vaultSupply, l.decimalsOffset).value;
                 Ok(t.realAssets) == V1.PreviewRedeem(l.shareBalance + m, l.vaultAssets + a, l.vaultSupply + m, l.decimalsOffset)
  {
    hide V1.PreviewDeposit, V1.PreviewRedeem, ToSharesDown;
  }

  /** Exactly when a redemption can be previewed, and its value. */
  lemma RedeemExactly(shares: U256, assets: U256, supply: U256, offset: V1.U8)
    ensures V1.PreviewRedeem(shares, assets, supply, offset).Ok? <==>
            assets + 1 <= MAX_U256 && supply + V1.Pow10(offset) <= MAX_U256 && shares * (assets + 1) <= MAX_U256
    ensures V1.PreviewRedeem(shares, assets, supply, offset).Ok? ==>
              V1.PreviewRedeem(shares, assets, supply, offset).value == shares * (assets + 1) / (supply + V1.Pow10(offset))
  {
    hide MulDivDown;
    if assets + 1 <= MAX_U256 && supply + V1.Pow10(offset) <= MAX_U256 {
      MulDivDownIsFloor(shares, assets + 1, supply + V1.Pow10(offset));
      MulDivDownIsQuotient(shares, assets + 1, supply + V1.Pow10(offset));
    }
  }

  lemma PreviewMonotone(l: V1.LiquidityState, a: U256, b: U256)
    requires a <= b && V1.PreviewDeposit(b, l.vaultAssets, l.vaultSupply, l.decimalsOffset).Ok?
    ensures V1.PreviewDeposit(a, l.vaultAssets, l.vaultSupply, l.decimalsOffset).Ok?
    ensures var p, q := V1.P(l), V1.Q(l);
            var ma := V1.PreviewDeposit(a, l.vaultAssets, l.vaultSupply, l.decimalsOffset).value;
            var mb := V1.PreviewDeposit(b, l.vaultAssets, l.vaultSupply, l.decimalsOffset).value;
            ma <= mb && ma * p <= a * q < (ma + 1) * p && mb * p <= b * q < (mb + 1) * p
  {
    hide MulDivDown;
    QuotientRises(a, b, V1.Q(l), V1.P(l));
  }

  lemma FloorPositive(n: nat, d: nat, x: nat)
    requires x * d <= n < (x + 1) * d
    ensures x > 0 <==> d <= n
  {
    if x > 0 { MulMonotone(1, x, d); }
  }

  /** The shares that a deposit mints in the wrapped vault. */
  function VaultShares(l: V1.LiquidityState, a: U256): U256
    requires Depositable(l, a)
  {
    V1.PreviewDeposit(a, l.vaultAssets, l.vaultSupply, l.decimalsOffset).value
  }

  lemma SharesFloor(l: V1.LiquidityState, a: U256, b: U256)
    requires a <= b && Depositable(l, a) && Depositable(l, b)
    ensures var p, q, ma, mb := V1.P(l), V1.Q(l), VaultShares(l, a), VaultShares(l, b);
            0 < p && 0 < q && ma <= mb && ma * p <= a * q < (ma + 1) * p && mb * p <= b * q < (mb + 1) * p
  {
    hide V1.PreviewDeposit, V1.PreviewRedeem, ToSharesDown;
    PreviewMonotone(l, a, b);
  }

  /** A successful deposit values the adapter at its share of the grown vault. */
  lemma AdapterValue(l: V1.LiquidityState, a: U256)
    requires V1.Allocate(l, a).Ok?
    ensures Depositable(l, a)
    ensures var t, m := V1.Allocate(l, a).value, VaultShares(l, a);
            && t.realAssets == (l.shareBalance + m) * (V1.P(l) + a) / (V1.Q(l) + m)
            && t.allocationChange == t.realAssets - l.recordedAllocation
  {
    hide V1.Allocate, V1.PreviewDeposit, V1.PreviewRedeem, ToSharesDown;
    AdapterUnfolds(l, a);
    var m := VaultShares(l, a);
    RedeemExactly(l.shareBalance + m, l.vaultAssets + a, l.vaultSupply + m, l.decimalsOffset);
  }

  /** Below a deposit that succeeds, exactly those succeed that mint shares. */
  lemma AdapterSucceeds(l: V1.LiquidityState, a: U256, b: U256)
    requires l.shareBalance <= V1.Q(l) && 0 < a <= b && V1.Allocate(l, b).Ok?
    ensures V1.Allocate(l, a).Ok? <==> Mints(l, a)
  {
    hide V1.Allocate, V1.PreviewDeposit, V1.PreviewRedeem, ToSharesDown;
    AdapterUnfolds(l, a);
    AdapterUnfolds(l, b);
    PreviewMonotone(l, a, b);
    MintMonotone(a, b, l.idleMarketAssets, l.idleMarketShares);
    var p, q := V1.P(l), V1.Q(l);
    var ma := V1.PreviewDeposit(a, l.vaultAssets, l.vaultSupply, l.decimalsOffset).value;
    var mb := VaultShares(l, b);
    var ia := ToSharesDown(a, l.idleMarketAssets, l.idleMarketShares).value;
    FloorPositive(a * q, p, ma);
    FloorPositive(a * (l.idleMarketShares + VIRTUAL_SHARES), l.idleMarketAssets + VIRTUAL_ASSETS, ia);
    RedeemExactly(l.shareBalance + ma, l.vaultAssets + a, l.vaultSupply + ma, l.decimalsOffset);
    RedeemExactly(l.shareBalance + mb, l.vaultAssets + b, l.vaultSupply + mb, l.decimalsOffset);
    ProductMonotone(l.shareBalance + ma, l.shareBalance + mb, p + a, p + b);
    ValueRises(l.shareBalance, p, q, a, ma, b, mb);
  }

  /** Valuations rise with the deposit, and unit by unit when the wrapped vault is priced at or below one. */
  lemma AdapterSmaller(l: V1.LiquidityState, a: U256, b: U256)
    requires l.shareBalance <= V1.Q(l) && 0 < a <= b && V1.Allocate(l, a).Ok? && V1.Allocate(l, b).Ok?
    ensures var x, y := V1.Allocate(l, a).value, V1.Allocate(l, b).value;
            && x.realAssets <= y.realAssets && (V1.P(l) <= V1.Q(l) ==> UnitByUnit(x.realAssets, a, y.realAssets, b))
            && x.allocationChange == x.realAssets - l.recordedAllocation
            && y.allocationChange == y.realAssets - l.recordedAllocation
  {
    hide V1.Allocate, V1.P, V1.Q, Depositable, VaultShares, UnitByUnit;
    AdapterValue(l, a);
    AdapterValue(l, b);
    SharesFloor(l, a, b);
    var p, q, ma, mb := V1.P(l), V1.Q(l), VaultShares(l, a), VaultShares(l, b);
    ValueRises(l.shareBalance, p, q, a, ma, b, mb);
    if p <= q { ValueUnitByUnit(l.shareBalance, p, q, a, ma, b, mb); }
  }

  /** Whether a deposit of `a` can be allocated through the liquidity adapter at once. */
  function AdapterPasses(l: V1.LiquidityState, cap: CapState, held: U256, total: U256, a: U256): Result<bool> {
    if total + a > MAX_U128 then Ok(false)
    else
      var t := V1.Allocate(l, a);
      if t.Err? then Ok(false)
      else
        var allocation :- ApplyDelta(held, t.value.allocationChange);
        Ok(Admitted(cap, total + a, allocation))
  }

  /** Below a passing deposit, one that is spaced from it passes if and only if it mints shares.  With a moving limit
      this is stated for vaults priced at or below one. */
  lemma AdapterNearlyClosed(l: V1.LiquidityState, cap: CapState, held: U256, total: U256, a: U256, b: U256)
    requires l.shareBalance <= V1.Q(l) && l.recordedAllocation <= held && 0 < a <= b
    requires FixedLimit(cap) || (V1.P(l) <= V1.Q(l) && Spaced(cap, a, b))
    requires AdapterPasses(l, cap, held, total, b) == Ok(true)
    ensures AdapterPasses(l, cap, held, total, a) == Ok(Mints(l, a))
  {
    hide V1.Allocate, Mints, Admitted, Spaced, FixedLimit;
    AdapterSucceeds(l, a, b);
    if Mints(l, a) {
      AdapterSmaller(l, a, b);
      var x, y := V1.Allocate(l, a).value, V1.Allocate(l, b).value;
      var da, db := held + x.allocationChange, held + y.allocationChange;
      if FixedLimit(cap) {
        AdmittedAbsolutely(cap, total + a, da, total + b, db);
      } else {
        AdmittedSmaller(cap, total, a, da, b, db);
      }
    }
  }

  lemma MintsMore(l: V1.LiquidityState, a: U256, b: U256)
    requires a <= b && Mints(l, a)
    ensures Mints(l, b)
  {
    hide V1.P, V1.Q;
    MulMonotone(a, b, V1.Q(l));
    MulMonotone(a, b, l.idleMarketShares + VIRTUAL_SHARES);
  }

  /** The exact condition under a fixed limit: everything below a passing deposit passes if and only if a single
      unit mints shares. */
  lemma AdapterClosedExactly(l: V1.LiquidityState, cap: CapState, held: U256, total: U256, b: U256)
    requires l.shareBalance <= V1.Q(l) && l.recordedAllocation <= held && 0 < b
    requires FixedLimit(cap) && AdapterPasses(l, cap, held, total, b) == Ok(true)
    ensures (forall a: U256 | 0 < a <= b :: AdapterPasses(l, cap, held, total, a) == Ok(true)) <==> Mints(l, 1)
  {
    hide AdapterPasses, Mints, FixedLimit;
    forall a: U256 | 0 < a <= b
      ensures AdapterPasses(l, cap, held, total, a) == Ok(Mints(l, a)) && (Mints(l, 1) ==> Mints(l, a))
    {
      AdapterNearlyClosed(l, cap, held, total, a, b);
      if Mints(l, 1) { MintsMore(l, 1, a); }
    }
    assert AdapterPasses(l, cap, held, total, 1) == Ok(Mints(l, 1));
  }

  /** In a vault priced above one the test is not downward closed even with a fixed limit: here a deposit of 3
      mints a share and passes, and one of 1 mints none. */
  lemma AdapterNotClosed()
    ensures exists l: V1.LiquidityState, cap: CapState ::
              && l.shareBalance <= V1.Q(l) && l.recordedAllocation == 0 && FixedLimit(cap)
              && AdapterPasses(l, cap, 0, 0, 1) == Ok(false) && AdapterPasses(l, cap, 0, 0, 3) == Ok(true)
  {
    hide V1.Allocate, V1.P, V1.Q, Mints, Admitted;
    var l := V1.LiquidityState(1, 1, 0, 0, 0, 2, 0, 0, 10, 10, 0, 0, 0);
    var cap := CapState(1_000, WAD, 0);
    WitnessPrice(l);
    WitnessMintsNothing(l);
    WitnessAllocates(l);
    assert Admitted(cap, 3, 3) by { WitnessAbsolute(cap); }
    AdapterNearlyClosed(l, cap, 0, 0, 1, 3);
  }

  predicate WitnessVault(l: V1.LiquidityState) { l == V1.LiquidityState(1, 1, 0, 0, 0, 2, 0, 0, 10, 10, 0, 0, 0) }

  lemma WitnessPrice(l: V1.LiquidityState)
    requires WitnessVault(l)
    ensures V1.P(l) == 3 && V1.Q(l) == 1
  {
    assert V1.Pow10(0) == 1;
  }

  lemma WitnessMintsNothing(l: V1.LiquidityState)
    requires V1.P(l) == 3 && V1.Q(l) == 1
    ensures !Mints(l, 1)
  {
    hide V1.P, V1.Q;
  }

  lemma WitnessAbsolute(cap: CapState)
    requires cap == CapState(1_000, WAD, 0)
    ensures Admitted(cap, 3, 3)
  {
  }

  lemma WitnessAllocates(l: V1.LiquidityState)
    requires WitnessVault(l)
    ensures V1.Allocate(l, 3).Ok? && V1.Allocate(l, 3).value.allocationChange == 3
  {
    hide V1.Allocate, V1.PreviewDeposit, V1.PreviewRedeem, ToSharesDown;
    WitnessShares(l);
    WitnessRedeems();
    AdapterUnfolds(l, 3);
  }

  lemma WitnessShares(l: V1.LiquidityState)
    requires WitnessVault(l)
    ensures V1.PreviewDeposit(3, l.vaultAssets, l.vaultSupply, l.decimalsOffset) == Ok(1)
    ensures ToSharesDown(3, l.idleMarketAssets, l.idleMarketShares) == Ok(3_000_000)
  {
    hide MulDivDown;
    MulDivDownIsFloor(3, 1, 3);
    MulDivDownIsFloor(3, 1_000_000, 1);
  }

  lemma WitnessRedeems()
    ensures V1.PreviewRedeem(1, 5, 1, 0) == Ok(3)
  {
    hide V1.PreviewRedeem;
    RedeemExactly(1, 5, 1, 0);
  }

  // ---------------------------------------------------------------- the search

  /** What the direct search finds: any larger deposit that still passes is too close to the next one to be spaced
      from it, and with steady caps there is none. */
  ghost predicate LargestDeposit(env: Env, s: State, t: Target, total: U256, upper: U256, amount: U256) {
    && (forall b: U256 | amount < b <= upper && DepositPasses(env, s, t, total, b) == Ok(true) ::
          !AllSpaced(env, t.position.caps, amount + 1, b))
    && (AllSteady(env, t.position.caps) ==>
          forall a: U256 | 0 < a <= upper :: DepositPasses(env, s, t, total, a) == Ok(true) <==> a <= amount)
  }

  lemma BoundaryIsLargest(env: Env, s: State, t: Target, total: U256, upper: U256, test: U256 -> Result<bool>, amount: U256)
    requires Sound(t.market, t.position.shares) && Covered(s, t)
    requires forall a: U256 :: test(a) == DepositPasses(env, s, t, total, a)
    requires IsBoundary(test, upper, amount)
    ensures LargestDeposit(env, s, t, total, upper, amount)
  {
    hide DepositPasses, Sound, Covered, AllSpaced, AllSteady;
    forall b: U256 | amount < b <= upper && DepositPasses(env, s, t, total, b) == Ok(true)
      ensures !AllSpaced(env, t.position.caps, amount + 1, b)
    {
      assert test(amount + 1) == DepositPasses(env, s, t, total, amount + 1);
      if AllSpaced(env, t.position.caps, amount + 1, b) { DepositNearlyClosed(env, s, t, total, amount + 1, b); }
    }
    if AllSteady(env, t.position.caps) {
      forall a: U256, b: U256 | 0 < a <= b <= upper && test(b) == Ok(true)
        ensures test(a) == Ok(true)
      {
        assert test(a) == DepositPasses(env, s, t, total, a) && test(b) == DepositPasses(env, s, t, total, b);
        DepositDownwardClosed(env, s, t, total, a, b);
      }
      BoundaryIsMaximum(test, upper, amount);
      forall a: U256 | 0 < a <= upper
        ensures DepositPasses(env, s, t, total, a) == Ok(true) <==> a <= amount
      {
        assert test(a) == DepositPasses(env, s, t, total, a);
      }
    }
  }

  /** The same for the liquidity adapter: a larger deposit that still passes means that the next one mints no share
      or is not spaced from it.  Under a fixed limit only a search that finds nothing can have missed one. */
  ghost predicate LargestThroughAdapter(l: V1.LiquidityState, cap: CapState, held: U256, total: U256, upper: U256, amount: U256) {
    forall b: U256 | amount < b <= upper && AdapterPasses(l, cap, held, total, b) == Ok(true) ::
      && (!Mints(l, amount + 1) || (!FixedLimit(cap) && (V1.P(l) > V1.Q(l) || !Spaced(cap, amount + 1, b))))
      && (FixedLimit(cap) ==> amount == 0 && !Mints(l, 1))
  }

  lemma BoundaryIsLargestThroughAdapter(l: V1.LiquidityState, cap: CapState, held: U256, total: U256, upper: U256,
                                        test: U256 -> Result<bool>, amount: U256)
    requires l.shareBalance <= V1.Q(l) && l.recordedAllocation <= held
    requires forall a: U256 :: test(a) == AdapterPasses(l, cap, held, total, a)
    requires IsBoundary(test, upper, amount)
    ensures LargestThroughAdapter(l, cap, held, total, upper, amount)
  {
    hide AdapterPasses, Mints, Spaced, FixedLimit, V1.P, V1.Q;
    forall b: U256 | amount < b <= upper && AdapterPasses(l, cap, held, total, b) == Ok(true)
      ensures !Mints(l, amount + 1) || (!FixedLimit(cap) && (V1.P(l) > V1.Q(l) || !Spaced(cap, amount + 1, b)))
      ensures FixedLimit(cap) ==> amount == 0 && !Mints(l, 1)
    {
      assert test(amount + 1) == AdapterPasses(l, cap, held, total, amount + 1);
      if FixedLimit(cap) || (V1.P(l) <= V1.Q(l) && Spaced(cap, amount + 1, b)) {
        AdapterNearlyClosed(l, cap, held, total, amount + 1, b);
      }
      if FixedLimit(cap) && amount > 0 {
        assert test(amount) == AdapterPasses(l, cap, held, total, amount);
        AdapterNearlyClosed(l, cap, held, total, amount, amount);
        MintsMore(l, amount, amount + 1);
      }
    }
  }

  /** What a bisection returns: a boundary of its test whenever no evaluation fails, an error at the full range. */
  ghost predicate Bisected(test: U256 -> Result<bool>, upper: U256, r: Result<U256>) {
    && (r.Ok? ==> IsBoundary(test, upper, r.value))
    && (upper == MAX_U256 ==> r == Err(Arithmetic))
    && (upper < MAX_U256 && (forall a: U256 | 0 < a <= upper :: test(a).Ok?) ==> r.Ok?)
  }

  /** `maximum_executable_deposit`: closed gates and a zero bound allow nothing, a missing liquidity adapter leaves
      only the width of the total, and otherwise the bisection ends at a boundary of the deposit test. */
  method MaximumExecutableDeposit(env: Env, s: State, gated: bool, upper: U256, adapter: Address, data: Bytes, total: U256)
    returns (r: Result<U256>)
    ensures upper == 0 || gated ==> r == Ok(0)
    ensures upper != 0 && !gated && adapter == 0 ==> r == Ok(Min(upper, SaturatingSub(MAX_U128, total)))
    ensures upper != 0 && !gated && adapter != 0 && s.liquidity.Some? ==>
              var l := s.liquidity.value;
              var c, bound := LiquidityCap(env, l), Min(upper, l.maxDeposit);
              if c !in s.ledger || c !in env.caps then r == Err(IncompleteState)
              else
                && Bisected((a: U256) => AdapterPasses(l, env.caps[c], s.ledger[c], total, a), bound, r)
                && (r.Ok? && l.shareBalance <= V1.Q(l) && l.recordedAllocation <= s.ledger[c] ==>
                      LargestThroughAdapter(l, env.caps[c], s.ledger[c], total, bound, r.value))
    ensures upper != 0 && !gated && adapter != 0 && s.liquidity.None? ==>
              match ExitTarget(env, s, adapter, data)
              case Err(e) => r == Err(e)
              case Ok(t) =>
                && Bisected((a: U256) => DepositPasses(env, s, t, total, a), upper, r)
                && (r.Ok? && Sound(t.market, t.position.shares) && Covered(s, t) ==>
                      LargestDeposit(env, s, t, total, upper, r.value))
  {
    hide DepositPasses, AdapterPasses, Sound, Covered, LargestDeposit, LargestThroughAdapter, V1.Q;
    if upper == 0 || gated { return Ok(0); }
    if adapter == 0 { return Ok(Min(upper, SaturatingSub(MAX_U128, total))); }
    if s.liquidity.Some? {
      var l := s.liquidity.value;
      var reference := LiquidityCap(env, l);
      if reference !in s.ledger || reference !in env.caps { return Err(IncompleteState); }
      var held, cap := s.ledger[reference], env.caps[reference];
      var test := (a: U256) => AdapterPasses(l, cap, held, total, a);
      r := MonotoneMaximum(Min(upper, l.maxDeposit), test);
      if r.Ok? && l.shareBalance <= V1.Q(l) && l.recordedAllocation <= held {
        BoundaryIsLargestThroughAdapter(l, cap, held, total, Min(upper, l.maxDeposit), test, r.value);
      }
      return;
    }
    var target := ExitTarget(env, s, adapter, data);
    if target.Err? { return Err(target.error); }
    var t := target.value;
    var test := (a: U256) => DepositPasses(env, s, t, total, a);
    r := MonotoneMaximum(upper, test);
    if r.Ok? && Sound(t.market, t.position.shares) && Covered(s, t) {
      BoundaryIsLargest(env, s, t, total, upper, test, r.value);
    }
  }
}
