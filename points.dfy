/** The reward formula: lamports staked times seconds elapsed, scaled to
    stored points (one real point per staked SOL per day, stored times
    10^6), computed in 128 bits with every step checked. */
module Points {
  import opened StakingTypes

  const LAMPORTS_PER_SOL: U64 := 1_000_000_000
  const SECONDS_PER_DAY: U64 := 86_400
  const POINTS_PER_SOL_PER_DAY: U64 := 1_000_000

  /** Lamport-seconds that earn one stored point:
      LAMPORTS_PER_SOL * SECONDS_PER_DAY / POINTS_PER_SOL_PER_DAY. */
  const LAMPORT_SECONDS_PER_POINT: int := 86_400_000

  /** `calculate_new_points`: widen both operands to u128 (the elapsed time
      by sign extension), multiply by the stake and the daily rate, divide by
      the lamports per SOL and then by the seconds per day (each step checked,
      each division flooring), and cast the quotient back to u64 with an
      unchecked `as`.  For a non-negative elapsed time it fails exactly when
      the scaled product does not fit in 128 bits; otherwise it returns the
      twice-floored quotient reduced modulo 2^64. */
  function CalculateNewPoints(stakedAmount: U64, timePassedInSec: I64): (r: Result<U64>)
    ensures r.Err? ==> r.error == Custom(Overflow)
    ensures timePassedInSec >= 0 ==>
      (r.Ok? <==> stakedAmount * timePassedInSec * POINTS_PER_SOL_PER_DAY < U128_LIMIT)
    ensures timePassedInSec >= 0 && r.Ok? ==>
      r.value == (stakedAmount * timePassedInSec * POINTS_PER_SOL_PER_DAY
                  / LAMPORTS_PER_SOL / SECONDS_PER_DAY) % U64_LIMIT
  {
    var product :- OkOr(CheckedMulU128(stakedAmount, I64AsU128(timePassedInSec)), Overflow);
    var scaled :- OkOr(CheckedMulU128(product, POINTS_PER_SOL_PER_DAY), Overflow);
    // The divisors are non-zero constants, so these two steps never fail.
    match OkOr(CheckedDivU128(scaled, LAMPORTS_PER_SOL), Overflow)
    case Err(e) => Err(e)
    case Ok(perSol) =>
      match OkOr(CheckedDivU128(perSol, SECONDS_PER_DAY), Overflow)
      case Err(e) => Err(e)
      case Ok(perDay) => Ok(U128AsU64(perDay))
  }

  /** Flooring by 10^9 and then by 86_400 is flooring by their product. */
  lemma {:induction false} NestedFloor(x: nat)
    ensures x / LAMPORTS_PER_SOL / SECONDS_PER_DAY == x / (LAMPORTS_PER_SOL * SECONDS_PER_DAY)
  {
    var q := x / (LAMPORTS_PER_SOL * SECONDS_PER_DAY);
    var rem := x % (LAMPORTS_PER_SOL * SECONDS_PER_DAY);
    assert x == q * 86_400 * 1_000_000_000 + rem;
    assert x / 1_000_000_000 == q * 86_400 + rem / 1_000_000_000;
  }

  /** Scaling by 10^6 and flooring by 10^9 * 86_400 is flooring by 86_400_000. */
  lemma {:induction false} ScaledFloor(x: nat)
    ensures x * POINTS_PER_SOL_PER_DAY / (LAMPORTS_PER_SOL * SECONDS_PER_DAY)
            == x / LAMPORT_SECONDS_PER_POINT
  {
    var q := x / LAMPORT_SECONDS_PER_POINT;
    var rem := x % LAMPORT_SECONDS_PER_POINT;
    assert x * 1_000_000 == q * 86_400_000_000_000 + rem * 1_000_000;
  }

  /** Closed form: a successful computation over a non-negative elapsed time
      is the stake-seconds floored by 86_400_000, modulo 2^64. */
  lemma PointsClosedForm(stakedAmount: U64, timePassedInSec: I64)
    requires timePassedInSec >= 0
    requires CalculateNewPoints(stakedAmount, timePassedInSec).Ok?
    ensures CalculateNewPoints(stakedAmount, timePassedInSec).value
            == (stakedAmount * timePassedInSec / LAMPORT_SECONDS_PER_POINT) % U64_LIMIT
  {
    var x: nat := stakedAmount * timePassedInSec;
    NestedFloor(x * POINTS_PER_SOL_PER_DAY);
    ScaledFloor(x);
  }

  /** One SOL staked for one day earns exactly one real point (10^6 stored). */
  lemma OneSolForOneDay()
    ensures CalculateNewPoints(LAMPORTS_PER_SOL, SECONDS_PER_DAY) == Ok(POINTS_PER_SOL_PER_DAY)
  {
  }

  /** Nothing staked or no time elapsed earns nothing. */
  lemma NothingEarnsNothing(stakedAmount: U64, timePassedInSec: I64)
    requires stakedAmount == 0 || timePassedInSec == 0
    ensures CalculateNewPoints(stakedAmount, timePassedInSec) == Ok(0)
  {
  }

  /** A negative elapsed time is sign-extended to a value near 2^128, so any
      non-zero stake overflows, and a zero stake yields zero points. */
  lemma NegativeTimeOverflows(stakedAmount: U64, timePassedInSec: I64)
    requires timePassedInSec < 0
    ensures CalculateNewPoints(stakedAmount, timePassedInSec)
            == if stakedAmount == 0 then Ok(0) else Err(Custom(Overflow))
  {
    var wide := I64AsU128(timePassedInSec);
    assert wide >= U128_LIMIT - I64_LIMIT;
    if stakedAmount > 0 {
      if stakedAmount * wide < U128_LIMIT {
        assert stakedAmount * wide >= wide;
        assert stakedAmount * wide * POINTS_PER_SOL_PER_DAY >= U128_LIMIT;
      }
    }
  }

  /** The final `as u64` is not harmless: u64::MAX lamports staked for 10^8
      seconds (about three years) pass every checked step, yet the quotient
      exceeds 2^64 and the reported points are its low 64 bits only. */
  lemma TruncationIsReachable()
    ensures var r := CalculateNewPoints(U64_LIMIT - 1, 100_000_000);
      r.Ok? && r.value < (U64_LIMIT - 1) * 100_000_000 / LAMPORT_SECONDS_PER_POINT
  {
    PointsClosedForm(U64_LIMIT - 1, 100_000_000);
  }
}
