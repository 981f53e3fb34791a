/** Machine integer widths, the program's error codes and Rust's checked
    arithmetic, shared by the whole staking model.  Every integer of the
    program is an unbounded Dafny `int` restricted to the range of the Rust
    type it stands for; overflow is never implicit. */
module StakingTypes {

  const U8_LIMIT: int := 0x100
  const U64_LIMIT: int := 0x1_0000_0000_0000_0000
  const U128_LIMIT: int := 0x1_0000_0000_0000_0000_0000_0000_0000_0000
  const I64_MIN: int := -0x8000_0000_0000_0000
  const I64_LIMIT: int := 0x8000_0000_0000_0000

  type U8 = x: int | 0 <= x < U8_LIMIT
  type U64 = x: int | 0 <= x < U64_LIMIT
  type U128 = x: int | 0 <= x < U128_LIMIT
  type I64 = x: int | I64_MIN <= x < I64_LIMIT

  /** An account address: 32 bytes. */
  type Pubkey = k: seq<bv8> | |k| == 32 witness seq(32, _ => 0 as bv8)

  /** The program's own error codes, in declaration order. */
  datatype StakeError =
    | Unauthorized
    | InvalidAmount
    | Overflow
    | InsufficientStake
    | Underflow
    | InvalidTimeStamp

  /** Why an instruction fails: one of the program's own codes, or the
      system program refusing a lamport transfer (the error of that foreign
      call is passed on unchanged, so its own code is not modelled). */
  datatype ProgramError = Custom(code: StakeError) | TransferFailed

  datatype Option<T> = None | Some(value: T)

  /** The instruction result; failure-compatible, so `:-` plays the part of
      Rust's `?`. */
  datatype Result<T> = Ok(value: T) | Err(error: ProgramError) {
    predicate IsFailure() { Err? }

    function PropagateFailure<U>(): Result<U>
      requires Err?
    {
      Err(error)
    }

    function Extract(): T
      requires Ok?
    {
      value
    }
  }

  /** `option.ok_or(StakeError::e)` */
  function OkOr<T>(o: Option<T>, e: StakeError): Result<T> {
    match o
    case Some(v) => Ok(v)
    case None => Err(Custom(e))
  }

  /** `u64::checked_add` */
  function CheckedAddU64(a: U64, b: U64): Option<U64> {
    if a + b < U64_LIMIT then Some(a + b) else None
  }

  /** `u64::checked_sub`: fails when the difference would be negative. */
  function CheckedSubU64(a: U64, b: U64): Option<U64> {
    if b <= a then Some(a - b) else None
  }

  /** `i64::checked_sub`: fails when the difference leaves the i64 range. */
  function CheckedSubI64(a: I64, b: I64): Option<I64> {
    if I64_MIN <= a - b < I64_LIMIT then Some(a - b) else None
  }

  /** `u128::checked_mul` */
  function CheckedMulU128(a: U128, b: U128): Option<U128> {
    var p := a * b;
    assert 0 <= p by { MulNonNegative(a, b); }
    if p < U128_LIMIT then Some(p) else None
  }

  lemma MulNonNegative(a: nat, b: nat)
    ensures 0 <= a * b
  {
  }

  /** `u128::checked_div`: fails only on a zero divisor. */
  function CheckedDivU128(a: U128, b: U128): Option<U128> {
    if b == 0 then None else Some(a / b)
  }

  /** `x as u128` for an `i64`: sign extension, so a negative value becomes
      its two's-complement image 2^128 + x. */
  function I64AsU128(x: I64): U128 {
    if x >= 0 then x else U128_LIMIT + x
  }

  /** `x as u64` for a `u128`: keeps the low 64 bits. */
  function U128AsU64(x: U128): U64 {
    x % U64_LIMIT
  }
}
