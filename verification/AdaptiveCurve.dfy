/** The Adaptive Curve interest-rate model: range-reduced exponential, curve, and borrow-rate update. */
module AdaptiveCurve {
  import opened Checked
  import opened SharePool
  import opened BlueMath

  const TARGET_UTILIZATION: U256 := 900_000_000_000_000_000
  const INITIAL_RATE_AT_TARGET: U256 := 1_268_391_679
  const MIN_RATE_AT_TARGET: U256 := 31_709_791
  const MAX_RATE_AT_TARGET: U256 := 63_419_583_967
  const CURVE_STEEPNESS: I256 := 4_000_000_000_000_000_000
  const ADJUSTMENT_SPEED: I256 := 1_585_489_599_188
  const LN_2: I256 := 693_147_180_559_945_309
  const HALF_LN_2: I256 := 346_573_590_279_972_654
  const LN_WEI: I256 := -41_446_531_673_892_822_312
  const WEXP_UPPER: I256 := 93_859_467_695_000_404_319
  const WEXP_UPPER_VALUE: I256 := 57_716_089_161_558_943_949_701_069_502_944_508_345_128_422_502_756_744_429_568

  datatype Projection = Projection(averageRate: U256, endingRateAtTarget: U256)

  // ---------------------------------------------------------------- signed fixed point

  function WMulToZero(x: I256, y: I256): Result<I256> {
    var product :- Signed(x * y, Invariant);
    Signed(TruncDiv(product, WAD), Invariant)
  }

  function WDivToZero(x: I256, y: I256): Result<I256>
    requires y > 0
  {
    var product :- Signed(x * WAD, Invariant);
    Signed(TruncDiv(product, y), Invariant)
  }

  function Pow2(k: nat): (p: nat)
    ensures p >= 1
  {
    if k == 0 then 1 else 2 * Pow2(k - 1)
  }

  /** Reinterprets the low 256 bits as a signed value. */
  function Wrap(v: int): I256 {
    var low := v % (MAX_U256 + 1);
    if low <= MAX_I256 then low else low - MAX_U256 - 1
  }

  /** Shifts fail only for a shift count of at least the width; bits shifted out are lost. */
  function Shl(v: I256, k: nat): Result<I256> {
    if k < 256 then Ok(Wrap(v * Pow2(k))) else Err(Invariant)
  }

  function Shr(v: I256, k: nat): Result<I256> {
    if k < 256 then Ok(Wrap((v % (MAX_U256 + 1)) / Pow2(k))) else Err(Invariant)
  }

  function WExp(x: I256): Result<I256> {
    if x < LN_WEI then Ok(0)
    else if x >= WEXP_UPPER then Ok(WEXP_UPPER_VALUE)
    else
      var adjusted :- Signed(x + if x < 0 then -HALF_LN_2 else HALF_LN_2, Invariant);
      var q := TruncDiv(adjusted, LN_2);
      var whole :- Signed(q * LN_2, Invariant);
      var r :- Signed(x - whole, Invariant);
      var square :- Signed(r * r, Invariant);
      var linear :- Signed(WAD + r, Invariant);
      var expR :- Signed(linear + TruncDiv(TruncDiv(square, WAD), 2), Invariant);
      if q < 0 then Shr(expR, -q) else Shl(expR, q)
  }

  // ---------------------------------------------------------------- the rate model

  function NormalizedError(utilization: U256): Result<I256> {
    if utilization > WAD then Err(Invariant)
    else
      var denominator :=
        if utilization > TARGET_UTILIZATION then WAD - TARGET_UTILIZATION else TARGET_UTILIZATION;
      WDivToZero(utilization - TARGET_UTILIZATION, denominator)
  }

  function Curve(rateAtTarget: I256, error: I256): Result<I256> {
    var quarter :- WDivToZero(WAD, CURVE_STEEPNESS);
    var coefficient := if error < 0 then WAD - quarter else CURVE_STEEPNESS - WAD;
    var scaled :- WMulToZero(coefficient, error);
    var factor :- Signed(scaled + WAD, Invariant);
    WMulToZero(factor, rateAtTarget)
  }

  function NewRate(start: I256, linearAdaptation: I256): Result<I256> {
    var exponential :- WExp(linearAdaptation);
    ScaledRate(start, exponential)
  }

  /** The stored rate after growth by `exponential`, clamped to its band. */
  function ScaledRate(start: I256, exponential: I256): Result<I256> {
    var candidate :- WMulToZero(start, exponential);
    Ok(if candidate < MIN_RATE_AT_TARGET then MIN_RATE_AT_TARGET
       else if candidate > MAX_RATE_AT_TARGET then MAX_RATE_AT_TARGET
       else candidate)
  }

  /** The rate update of `adaptive_curve_borrow_rate` once the utilization is known. */
  function BorrowRateAt(utilization: U256, storedRateAtTarget: U256, elapsed: U64): Result<Projection> {
    var error :- NormalizedError(utilization);
    var start :- Positive(storedRateAtTarget);
    var targets :- AdaptTarget(start, error, elapsed);
    var curved :- Curve(targets.0, error);
    var average :- Unsigned(curved);
    var ending :- Unsigned(targets.1);
    Ok(Projection(average, ending))
  }

  /** Average and ending target rates. */
  function AdaptTarget(start: I256, error: I256, elapsed: U64): Result<(I256, I256)> {
    if start == 0 then Ok((INITIAL_RATE_AT_TARGET, INITIAL_RATE_AT_TARGET))
    else
      var speed :- WMulToZero(ADJUSTMENT_SPEED, error);
      var linear :- Signed(speed * elapsed, Invariant);
      if linear == 0 then Ok((start, start)) else AdaptBy(start, linear)
  }

  function AdaptBy(start: I256, linear: I256): Result<(I256, I256)> {
    var ending :- NewRate(start, linear);
    var midpoint :- NewRate(start, TruncDiv(linear, 2));
    var average :- TrapezoidAverage(start, ending, midpoint);
    Ok((average, ending))
  }

  /** Average of the start, the end and twice the midpoint. */
  function TrapezoidAverage(start: I256, ending: I256, midpoint: I256): Result<I256> {
    var ends :- Signed(start + ending, Invariant);
    var twice :- Signed(midpoint * 2, Invariant);
    var total :- Signed(ends + twice, Invariant);
    Signed(TruncDiv(total, 4), Invariant)
  }

  /** Utilization of a market, zero when nothing is supplied. */
  function Utilization(borrow: U256, supply: U256): Result<U256> {
    if supply == 0 then Ok(0) else WDivDown(borrow, supply)
  }

  function BorrowRate(borrow: U256, supply: U256, storedRateAtTarget: U256, elapsed: U64): Result<Projection> {
    var utilization :- Utilization(borrow, supply);
    BorrowRateAt(utilization, storedRateAtTarget, elapsed)
  }

  function SpotRate(utilization: U256, rateAtTarget: U256): Result<U256> {
    var rate :- Positive(rateAtTarget);
    var error :- NormalizedError(utilization);
    var curved :- Curve(rate, error);
    Unsigned(curved)
  }

  // ---------------------------------------------------------------- the exponential

  /** Quotient to the nearest integer: LN_2 is odd, so there are no ties and no cases on the sign. */
  function Nearest(x: int): int { (x + HALF_LN_2) / LN_2 }

  /** Second-order expansion of the exponential around zero. */
  function Poly(r: int): int { WAD + r + r * r / (2 * WAD) }

  function Scale(e: int, q: int): int {
    if q >= 0 then e * Pow2(q) else e / Pow2(-q)
  }

  /** The exponential without its two cut-offs. */
  function RawExp(x: int): int {
    Scale(Poly(x - Nearest(x) * LN_2), Nearest(x))
  }

  lemma SquareBound(r: int, h: int)
    requires -h <= r <= h
    ensures 0 <= r * r <= h * h
  {
    if r >= 0 { MulMonotone(r, h, r); MulMonotone(r, h, h); }
    else { MulMonotone(-r, h, -r); MulMonotone(-r, h, h); }
  }

  lemma PolyBounds(r: int)
    requires -HALF_LN_2 <= r <= HALF_LN_2
    ensures 0 < WAD + r <= Poly(r) <= 2 * WAD
  {
    SquareBound(r, HALF_LN_2);
  }

  lemma PolyMonotone(r1: int, r2: int)
    requires -HALF_LN_2 <= r1 <= r2 <= HALF_LN_2
    ensures Poly(r1) <= Poly(r2)
  {
    var d := r2 - r1;
    // The square can fall by at most d * LN_2, less than one unit of the linear term per unit.
    assert r1 * r1 <= r2 * r2 + d * (2 * WAD) by {
      assert r1 * r1 - r2 * r2 == d * (-(r1 + r2));
      MulMonotone(-(r1 + r2), 2 * WAD, d);
      assert d * (-(r1 + r2)) == (-(r1 + r2)) * d;
    }
    DivMonotone(r1 * r1, r2 * r2 + d * (2 * WAD), 2 * WAD);
  }

  /** One octave up never lowers the value when the mantissa at least halves. */
  lemma ScaleOctave(e: int, e': int, q: int)
    requires 0 <= e <= 2 * e'
    ensures Scale(e, q) <= Scale(e', q + 1)
  {
    if q >= 0 {
      MulMonotone(e, 2 * e', Pow2(q));
    } else {
      var d := Pow2(-q - 1);
      assert Pow2(-q) == 2 * d;
      DivBounds(e, 2 * d);
      DivAtLeast(e', d, e / (2 * d)) by {
        assert e / (2 * d) * (2 * d) == 2 * (e / (2 * d) * d);
      }
    }
  }

  lemma ScaleMonotone(e: int, e': int, q: int)
    requires 0 <= e <= e'
    ensures 0 <= Scale(e, q) <= Scale(e', q)
  {
    if q >= 0 {
      MulMonotone(e, e', Pow2(q));
      MulMonotone(0, e, Pow2(q));
    } else {
      DivMonotone(e, e', Pow2(-q));
      DivAtLeast(e, Pow2(-q), 0);
    }
  }

  /** The bottom of every octave is at or above the top of the octaves below it. */
  lemma {:induction false} OctavesAscend(q1: int, q2: int)
    requires q1 < q2
    ensures Scale(Poly(HALF_LN_2), q1) <= Scale(Poly(-HALF_LN_2), q2)
    decreases q2 - q1
  {
    if q1 + 1 == q2 {
      ScaleOctave(Poly(HALF_LN_2), Poly(-HALF_LN_2), q1);
    } else {
      OctavesAscend(q1, q2 - 1);
      PolyMonotone(-HALF_LN_2, HALF_LN_2);
      ScaleMonotone(Poly(-HALF_LN_2), Poly(HALF_LN_2), q2 - 1);
      OctavesAscend(q2 - 1, q2);
    }
  }

  lemma RawExpMonotone(x: int, y: int)
    requires x <= y
    ensures 0 <= RawExp(x) <= RawExp(y)
  {
    var q1, q2 := Nearest(x), Nearest(y);
    var r1, r2 := x - q1 * LN_2, y - q2 * LN_2;
    PolyBounds(r1);
    PolyBounds(r2);
    if q1 == q2 {
      PolyMonotone(r1, r2);
      ScaleMonotone(Poly(r1), Poly(r2), q1);
    } else {
      PolyMonotone(r1, HALF_LN_2);
      ScaleMonotone(Poly(r1), Poly(HALF_LN_2), q1);
      OctavesAscend(q1, q2);
      PolyMonotone(-HALF_LN_2, r2);
      PolyBounds(-HALF_LN_2);
      ScaleMonotone(Poly(-HALF_LN_2), Poly(r2), q2);
    }
  }

  lemma {:induction false} Pow2Monotone(j: nat, k: nat)
    requires j <= k
    ensures Pow2(j) <= Pow2(k)
    decreases k
  {
    if j < k { Pow2Monotone(j, k - 1); }
  }

  lemma Pow2Plus9(k: nat)
    ensures Pow2(k + 9) == 0x200 * Pow2(k)
  {
    assert Pow2(k + 2) == 4 * Pow2(k);
    assert Pow2(k + 4) == 4 * Pow2(k + 2);
    assert Pow2(k + 6) == 4 * Pow2(k + 4);
    assert Pow2(k + 8) == 4 * Pow2(k + 6);
  }

  lemma Pow2Plus45(k: nat)
    ensures Pow2(k + 45) == 0x2000_0000_0000 * Pow2(k)
  {
    Pow2Plus9(k);
    Pow2Plus9(k + 9);
    Pow2Plus9(k + 18);
    Pow2Plus9(k + 27);
    Pow2Plus9(k + 36);
  }

  lemma Pow2Plus135(k: nat)
    ensures Pow2(k + 135) == 0x80_0000_0000_0000_0000_0000_0000_0000_0000 * Pow2(k)
  {
    Pow2Plus45(k);
    Pow2Plus45(k + 45);
    Pow2Plus45(k + 90);
  }

  const POW2_135: int := 0x80_0000_0000_0000_0000_0000_0000_0000_0000

  lemma ShiftFits(e: int, q: nat)
    requires 0 <= e <= 2 * WAD && q <= 135
    ensures 0 <= e * Pow2(q) <= MAX_I256
  {
    var top := q + (135 - q);
    Pow2Monotone(q, top);
    Pow2Plus135(0);
    assert Pow2(q) <= POW2_135;
    MulMonotone(Pow2(q), POW2_135, e);
    MulMonotone(0, e, Pow2(q));
  }

  lemma ShiftsAreExact(e: I256, q: int)
    requires 0 <= e <= 2 * WAD && -60 <= q <= 135
    ensures (if q < 0 then Shr(e, -q) else Shl(e, q)) == Ok(Scale(e, q))
  {
    if q >= 0 {
      ShiftFits(e, q);
    } else {
      DivAtLeast(e, Pow2(-q), 0);
      MulMonotone(1, Pow2(-q), e + 1);
      DivAtMost(e, Pow2(-q), e);
    }
  }

  /** The truncating, sign-adjusted quotient of the code is the nearest integer, and its remainder is small. */
  lemma RangeReduction(x: I256)
    requires LN_WEI <= x < WEXP_UPPER
    ensures TruncDiv(x + if x < 0 then -HALF_LN_2 else HALF_LN_2, LN_2) == Nearest(x)
    ensures -60 <= Nearest(x) <= 135
    ensures -HALF_LN_2 <= x - Nearest(x) * LN_2 <= HALF_LN_2
  {
  }

  lemma HalvedSquare(n: nat)
    ensures TruncDiv(TruncDiv(n, WAD), 2) == n / (2 * WAD)
  {
  }

  /** Between the cut-offs no step overflows and no bit is shifted out. */
  lemma WExpIsRaw(x: I256)
    requires LN_WEI <= x < WEXP_UPPER
    ensures WExp(x) == Ok(RawExp(x))
  {
    RangeReduction(x);
    var q := Nearest(x);
    var r := x - q * LN_2;
    SquareBound(r, HALF_LN_2);
    PolyBounds(r);
    HalvedSquare(r * r);
    ShiftsAreExact(Poly(r), q);
    hide Shl, Shr, Scale, Nearest;
  }

  lemma RawAtUpperCutOff()
    ensures RawExp(WEXP_UPPER) == WEXP_UPPER_VALUE
  {
    Pow2Plus135(0);
    assert Nearest(WEXP_UPPER) == 135;
  }

  /** The exponential never fails, is non-negative, bounded by its upper cut-off value and monotone
      across every octave and both cut-offs. */
  lemma WExpMonotone(x: I256, y: I256)
    requires x <= y
    ensures WExp(x).Ok? && WExp(y).Ok?
    ensures 0 <= WExp(x).value <= WExp(y).value <= WEXP_UPPER_VALUE
  {
    RawAtUpperCutOff();
    if LN_WEI <= x < WEXP_UPPER {
      WExpIsRaw(x);
      RawExpMonotone(x, WEXP_UPPER);
    }
    if LN_WEI <= y < WEXP_UPPER {
      WExpIsRaw(y);
      RawExpMonotone(y, WEXP_UPPER);
      if LN_WEI <= x { RawExpMonotone(x, y); }
    }
  }

  lemma WExpAtZero()
    ensures WExp(0) == Ok(WAD)
  {
    WExpIsRaw(0);
  }

  // ---------------------------------------------------------------- the curve

  lemma TruncDivMonotone(x: int, y: int, d: int)
    requires d > 0 && x <= y
    ensures TruncDiv(x, d) <= TruncDiv(y, d)
  {
    if 0 <= x {
      DivMonotone(x, y, d);
    } else {
      DivAtLeast(-x, d, 0);
      if y < 0 { DivMonotone(-y, -x, d); } else { DivAtLeast(y, d, 0); }
    }
  }

  /** Utilization relative to target, from -WAD at zero to WAD at full. */
  lemma ErrorMonotone(u1: U256, u2: U256)
    requires u1 <= u2 <= WAD
    ensures NormalizedError(u1).Ok? && NormalizedError(u2).Ok?
    ensures -WAD <= NormalizedError(u1).value <= NormalizedError(u2).value <= WAD
  {
  }

  /** The multiplier that the curve applies to the target rate. */
  function Factor(error: int): int {
    TruncDiv((if error < 0 then WAD - WAD / 4 else CURVE_STEEPNESS - WAD) * error, WAD) + WAD
  }

  lemma FactorMonotone(e1: int, e2: int)
    requires -WAD <= e1 <= e2 <= WAD
    ensures WAD / 4 <= Factor(e1) <= Factor(e2) <= 4 * WAD
  {
  }

  lemma CurveIsFactor(rate: I256, error: I256)
    requires 0 <= rate && -WAD <= error <= WAD
    ensures Curve(rate, error) == if Factor(error) * rate <= MAX_I256 then Ok(Factor(error) * rate / WAD) else Err(Invariant)
  {
    FactorMonotone(error, error);
    assert WDivToZero(WAD, CURVE_STEEPNESS) == Ok(WAD / 4);
    MulMonotone(0, Factor(error), rate);
  }

  /** The curve rises with the error and with the target rate, and scales it by a quarter to four times. */
  lemma CurveMonotone(r1: I256, e1: I256, r2: I256, e2: I256)
    requires 0 <= r1 <= r2 && -WAD <= e1 <= e2 <= WAD
    requires Curve(r2, e2).Ok?
    ensures Curve(r1, e1).Ok?
    ensures r1 / 4 <= Curve(r1, e1).value <= Curve(r2, e2).value <= 4 * r2
  {
    CurveIsFactor(r1, e1);
    CurveIsFactor(r2, e2);
    FactorMonotone(e1, e2);
    hide Curve, Factor;
    ScaleMonotoneInBoth(Factor(e1), r1, Factor(e2), r2);
    ScaleWithinFourfold(Factor(e1), r1);
    ScaleWithinFourfold(Factor(e2), r2);
  }

  lemma ScaleMonotoneInBoth(f1: nat, r1: nat, f2: nat, r2: nat)
    requires f1 <= f2 && r1 <= r2
    ensures f1 * r1 <= f2 * r2 && f1 * r1 / WAD <= f2 * r2 / WAD
  {
    MulMonotone(f1, f2, r1);
    MulMonotone(r1, r2, f2);
    DivMonotone(f1 * r1, f2 * r2, WAD);
  }

  lemma ScaleWithinFourfold(f: nat, r: nat)
    requires WAD / 4 <= f <= 4 * WAD
    ensures r / 4 <= f * r / WAD <= 4 * r
  {
    MulMonotone(WAD / 4, f, r);
    DivMonotone(WAD / 4 * r, f * r, WAD);
    QuarterOf(r);
    MulMonotone(f, 4 * WAD, r);
    DivMonotone(f * r, 4 * WAD * r, WAD);
    FourTimes(r);
  }

  lemma QuarterOf(r: nat)
    ensures WAD / 4 * r / WAD == r / 4
  {
    DivCancel(r, 4, WAD / 4);
  }

  lemma FourTimes(r: nat)
    ensures 4 * WAD * r / WAD == 4 * r
  {
    DivCancel(4 * r, 1, WAD);
  }

  /** The spot rate rises with utilization and lies between a quarter and four times the target rate;
      a spot rate that fits at some utilization fits at every lower one. */
  lemma SpotRateMonotone(u1: U256, u2: U256, rateAtTarget: U256)
    requires u1 <= u2
    requires SpotRate(u2, rateAtTarget).Ok?
    ensures SpotRate(u1, rateAtTarget).Ok?
    ensures rateAtTarget / 4 <= SpotRate(u1, rateAtTarget).value <= SpotRate(u2, rateAtTarget).value <= 4 * rateAtTarget
  {
    ErrorMonotone(u1, u2);
    CurveMonotone(rateAtTarget, NormalizedError(u1).value, rateAtTarget, NormalizedError(u2).value);
  }

  // ---------------------------------------------------------------- the borrow rate

  predicate InRateBand(rate: int) { MIN_RATE_AT_TARGET <= rate <= MAX_RATE_AT_TARGET }

  /** The rate update never fails inside the band, stays in it and rises with the adaptation; it leaves
      the rate alone at zero adaptation. */
  lemma NewRateMonotone(start: I256, l1: I256, l2: I256)
    requires InRateBand(start) && l1 <= l2
    ensures NewRate(start, l1).Ok? && NewRate(start, l2).Ok?
    ensures InRateBand(NewRate(start, l1).value) && InRateBand(NewRate(start, l2).value)
    ensures NewRate(start, l1).value <= NewRate(start, l2).value
    ensures l1 == 0 ==> NewRate(start, l1).value == start
    ensures l2 == 0 ==> NewRate(start, l2).value == start
  {
    WExpMonotone(l1, l2);
    WExpAtZero();
    ScaledRateMonotone(start, WExp(l1).value, WExp(l2).value);
  }

  lemma ScaledRateMonotone(start: I256, x1: I256, x2: I256)
    requires InRateBand(start) && 0 <= x1 <= x2 <= WEXP_UPPER_VALUE
    ensures ScaledRate(start, x1).Ok? && ScaledRate(start, x2).Ok?
    ensures InRateBand(ScaledRate(start, x1).value) && InRateBand(ScaledRate(start, x2).value)
    ensures ScaledRate(start, x1).value <= ScaledRate(start, x2).value
    ensures ScaledRate(start, WAD) == Ok(start)
  {
    MulMonotone(x1, x2, start);
    MulMonotone(x2, WEXP_UPPER_VALUE, start);
    MulMonotone(0, x1, start);
    MulMonotone(start, MAX_RATE_AT_TARGET, WEXP_UPPER_VALUE);
    DivMonotone(start * x1, start * x2, WAD);
    DivMonotone(start * x2, MAX_I256, WAD);
    DivAtLeast(start * x1, WAD, 0);
  }

  predicate ValidStoredRate(rate: int) { rate == 0 || InRateBand(rate) }

  lemma AdaptByMonotone(start: I256, l1: I256, l2: I256)
    requires InRateBand(start) && l1 <= l2
    ensures AdaptBy(start, l1).Ok? && AdaptBy(start, l2).Ok?
    ensures var t1, t2 := AdaptBy(start, l1).value, AdaptBy(start, l2).value;
            InRateBand(t1.0) && InRateBand(t1.1) && InRateBand(t2.0) && InRateBand(t2.1)
            && t1.0 <= t2.0 && t1.1 <= t2.1
  {
    hide NewRate;
    TruncDivMonotone(l1, l2, 2);
    NewRateMonotone(start, l1, l2);
    NewRateMonotone(start, TruncDiv(l1, 2), TruncDiv(l2, 2));
  }

  /** Zero adaptation needs no case of its own: it averages four times the start. */
  lemma AdaptByZero(start: I256)
    requires InRateBand(start)
    ensures AdaptBy(start, 0) == Ok((start, start))
  {
    NewRateMonotone(start, 0, 0);
  }

  /** The adapted target never fails, stays in the band, and rises with the error. */
  lemma AdaptTargetMonotone(start: I256, e1: I256, e2: I256, elapsed: U64)
    requires ValidStoredRate(start) && -WAD <= e1 <= e2 <= WAD
    ensures AdaptTarget(start, e1, elapsed).Ok? && AdaptTarget(start, e2, elapsed).Ok?
    ensures var t1, t2 := AdaptTarget(start, e1, elapsed).value, AdaptTarget(start, e2, elapsed).value;
            InRateBand(t1.0) && InRateBand(t1.1) && InRateBand(t2.0) && InRateBand(t2.1)
            && t1.0 <= t2.0 && t1.1 <= t2.1
  {
    if start != 0 {
      LinearMonotone(e1, e2, elapsed);
      AdaptTargetIsAdaptBy(start, e1, elapsed);
      AdaptTargetIsAdaptBy(start, e2, elapsed);
      hide AdaptTarget, AdaptBy, Linear;
      AdaptByMonotone(start, Linear(e1, elapsed), Linear(e2, elapsed));
    }
  }

  /** The exponent of the adaptation: adjustment speed times error times elapsed time. */
  function Linear(error: int, elapsed: nat): int { TruncDiv(ADJUSTMENT_SPEED * error, WAD) * elapsed }

  lemma SpeedBounds(error: int)
    requires -WAD <= error <= WAD
    ensures -ADJUSTMENT_SPEED <= TruncDiv(ADJUSTMENT_SPEED * error, WAD) <= ADJUSTMENT_SPEED
  {
  }

  lemma LinearMonotone(e1: int, e2: int, elapsed: U64)
    requires -WAD <= e1 <= e2 <= WAD
    ensures -MAX_I256 <= Linear(e1, elapsed) <= Linear(e2, elapsed) <= MAX_I256
  {
    var s1, s2 := TruncDiv(ADJUSTMENT_SPEED * e1, WAD), TruncDiv(ADJUSTMENT_SPEED * e2, WAD);
    TruncDivMonotone(ADJUSTMENT_SPEED * e1, ADJUSTMENT_SPEED * e2, WAD);
    SpeedBounds(e1);
    SpeedBounds(e2);
    hide TruncDiv;
    MulMonotone(s1, s2, elapsed);
    LinearFits(s1, elapsed);
    LinearFits(s2, elapsed);
  }

  lemma AdaptTargetIsAdaptBy(start: I256, error: I256, elapsed: U64)
    requires InRateBand(start) && -WAD <= error <= WAD
    ensures -MAX_I256 <= Linear(error, elapsed) <= MAX_I256
    ensures AdaptTarget(start, error, elapsed) == AdaptBy(start, Linear(error, elapsed))
  {
    hide AdaptBy;
    LinearMonotone(error, error, elapsed);
    SpeedBounds(error);
    AdaptByZero(start);
  }

  lemma LinearFits(speed: int, elapsed: U64)
    requires -ADJUSTMENT_SPEED <= speed <= ADJUSTMENT_SPEED
    ensures -MAX_I256 <= speed * elapsed <= MAX_I256
  {
    MulMonotone(speed, ADJUSTMENT_SPEED, elapsed);
    MulMonotone(-ADJUSTMENT_SPEED, speed, elapsed);
  }

  lemma UtilizationBounds(borrow: U256, supply: U256)
    requires borrow <= supply && borrow <= MAX_U128
    ensures Utilization(borrow, supply).Ok? && Utilization(borrow, supply).value <= WAD
  {
    hide MulDivDown;
    if supply > 0 {
      MulDivDownIsFloor(borrow, WAD, supply);
      MulDivDownIsQuotient(borrow, WAD, supply);
      MulMonotone(borrow, supply, WAD);
      assert borrow * WAD < (WAD + 1) * supply by { assert (WAD + 1) * supply == supply * WAD + supply; }
      DivAtMost(borrow * WAD, supply, WAD);
    }
  }

  /** For every solvent uint128 market, stored rate and elapsed time the model succeeds, and it keeps
      the stored rate in its band. */
  lemma BorrowRateTotal(borrow: U256, supply: U256, storedRateAtTarget: U256, elapsed: U64)
    requires borrow <= supply <= MAX_U128 && ValidStoredRate(storedRateAtTarget)
    ensures BorrowRate(borrow, supply, storedRateAtTarget, elapsed).Ok?
    ensures InRateBand(BorrowRate(borrow, supply, storedRateAtTarget, elapsed).value.endingRateAtTarget)
  {
    UtilizationBounds(borrow, supply);
    BorrowRateMonotone(Utilization(borrow, supply).value, Utilization(borrow, supply).value, storedRateAtTarget, elapsed);
  }

  /** At the same stored rate and elapsed time, higher utilization never gives a lower average or
      ending rate. */
  lemma BorrowRateMonotone(u1: U256, u2: U256, storedRateAtTarget: U256, elapsed: U64)
    requires u1 <= u2 <= WAD && ValidStoredRate(storedRateAtTarget)
    ensures BorrowRateAt(u1, storedRateAtTarget, elapsed).Ok? && BorrowRateAt(u2, storedRateAtTarget, elapsed).Ok?
    ensures var p1, p2 := BorrowRateAt(u1, storedRateAtTarget, elapsed).value, BorrowRateAt(u2, storedRateAtTarget, elapsed).value;
            InRateBand(p1.endingRateAtTarget) && InRateBand(p2.endingRateAtTarget)
            && p1.endingRateAtTarget <= p2.endingRateAtTarget && p1.averageRate <= p2.averageRate
  {
    ErrorMonotone(u1, u2);
    var e1, e2 := NormalizedError(u1).value, NormalizedError(u2).value;
    AdaptTargetMonotone(storedRateAtTarget, e1, e2, elapsed);
    var t1 := AdaptTarget(storedRateAtTarget, e1, elapsed).value.0;
    var t2 := AdaptTarget(storedRateAtTarget, e2, elapsed).value.0;
    CurveInBand(t2, e2);
    CurveMonotone(t1, e1, t2, e2);
  }

  lemma CurveInBand(rate: I256, error: I256)
    requires InRateBand(rate) && -WAD <= error <= WAD
    ensures Curve(rate, error).Ok?
  {
    CurveIsFactor(rate, error);
    FactorMonotone(error, error);
    MulMonotone(Factor(error), 4 * WAD, rate);
  }
}
