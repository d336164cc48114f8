/** Fixed-width integers and checked results, as every arithmetic module of the planner uses them. */
module Checked {

  const MAX_U64: int := 0xFFFF_FFFF_FFFF_FFFF
  const MAX_U128: int := 0xFFFF_FFFF_FFFF_FFFF_FFFF_FFFF_FFFF_FFFF
  const MAX_I256: int := 0x7FFF_FFFF_FFFF_FFFF_FFFF_FFFF_FFFF_FFFF_FFFF_FFFF_FFFF_FFFF_FFFF_FFFF_FFFF_FFFF
  const MAX_U256: int := 0xFFFF_FFFF_FFFF_FFFF_FFFF_FFFF_FFFF_FFFF_FFFF_FFFF_FFFF_FFFF_FFFF_FFFF_FFFF_FFFF

  type U64 = x: int | 0 <= x <= MAX_U64
  type U256 = x: int | 0 <= x <= MAX_U256
  type I256 = x: int | -MAX_I256 - 1 <= x <= MAX_I256

  /** The failures of the arithmetic, simulation, liquidity and planning layers; a wrapped error keeps its name. */
  datatype Error =
    | Overflow | Underflow | DivisionByZero
    | TimestampRegression | Invariant | SignedConversion
    | SharePriceAboveOne | InsufficientShares | InsufficientLiquidity
    | InvalidAction | IncompleteState | PositionMode | InsufficientIdle
    | InvalidDeallocationCap | AllocationCap | Arithmetic
    | InconsistentBalance | MissingToken | Exhausted
    | MissingEpisode | MissingProjection

  datatype Option<+T> = None | Some(value: T)

  datatype Result<+T> = Ok(value: T) | Err(error: Error) {
    predicate IsFailure() { Err? }
    function PropagateFailure<U>(): Result<U>
      requires Err?
    {
      Err(error)
    }
    function Extract(): T
      requires Ok?
    {
      value
    }
  }

  function Add(x: U256, y: U256, e: Error): Result<U256> {
    if x + y <= MAX_U256 then Ok(x + y) else Err(e)
  }

  function Sub(x: U256, y: U256, e: Error): Result<U256> {
    if y <= x then Ok(x - y) else Err(e)
  }

  function SaturatingSub(x: U256, y: U256): U256 {
    if y <= x then x - y else 0
  }

  function Min(x: int, y: int): int { if x <= y then x else y }

  function Max(x: int, y: int): int { if x <= y then y else x }

  /** `I256::try_from` of an unsigned value. */
  function Positive(x: U256): Result<I256> {
    if x <= MAX_I256 then Ok(x) else Err(SignedConversion)
  }

  /** `U256::try_from` of a signed value. */
  function Unsigned(x: I256): Result<U256> {
    if 0 <= x then Ok(x) else Err(SignedConversion)
  }

  /** A signed intermediate result that must fit 256 bits. */
  function Signed(x: int, e: Error): Result<I256> {
    if -MAX_I256 - 1 <= x <= MAX_I256 then Ok(x) else Err(e)
  }

  /** Signed difference of two unsigned values, as the cap ledger records it. */
  function SignedDifference(after: U256, before: U256): Result<I256> {
    var a :- Positive(after);
    var b :- Positive(before);
    Signed(a - b, Invariant)
  }

  /** Signed division rounding toward zero. */
  function TruncDiv(x: int, d: int): int
    requires d > 0
  {
    if 0 <= x then x / d else -((-x) / d)
  }
}
