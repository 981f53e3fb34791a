# Staking ledger model

A Dafny model of a small Solana staking program: each owner has one
program-derived stake account holding the lamports they staked, the reward
points accrued for them (stored times 10^6) and the time of the last
settlement. The program creates the account, stakes and unstakes lamports,
and claims points. A separate settlement routine turns elapsed time and stake
into points, one whole point per staked SOL per day.

Modules:

- `StakingTypes` (`types.dfy`): the Rust integer types as bounded `int`s, the
  `StakeError` codes, the instruction `Result`, and Rust's checked
  operations. It also models the two unchecked casts, `i64 as u128` (sign
  extension) and `u128 as u64` (keep the low 64 bits).
- `Points` (`points.dfy`): `calculate_new_points` as a pure function, with
  lemmas about its closed form and its edge cases.
- `Ledger` (`ledger.dfy`): the account as a value (`AccountState`), one
  function per instruction giving the new state or the error, and the
  mutable `StakeAccount` class. Its methods update the fields in place and
  are proved to follow those functions. A failed instruction changes nothing.
- `LedgerProperties` (`ledger_properties.dfy`): what each instruction
  promises: its rejections, its exact effect, the inverse pairs, and the
  fields it never touches.
- `Scenarios` (`scenarios.dfy`): sequences of instructions. It proves
  conservation of the stake against the lamports moved, and that points
  never accrue without settlement. It also states the settle-then-operate
  composition and a worked two-SOL example on the class.

The model follows the code where it departs from the program's stated
design:

- The three handlers never call `update_points`. They read the clock and
  ignore it, so `stake`, `unstake` and `claim_points` neither settle points
  nor move `last_updated_time`. Nothing in the program calls
  `update_points`, so an account's points stay zero and every claim reports
  0 (`Scenarios.ClaimsAlwaysReportZero`). Settling before an instruction is
  modelled only as an explicit composition (`Scenarios.TwoSolForOneDay`).
- The timestamp is not monotone. `checked_sub` fails only on i64 overflow,
  so an earlier `current_time` is accepted. It earns nothing and moves the
  clock backwards (`LedgerProperties.SettleRewindsClock`).
- The result of the points formula is cast with `as u64`. This silently keeps
  the low 64 bits, and such inputs exist (`Points.TruncationIsReachable`).
- The elapsed time is cast with `as u128`, which sign-extends. A negative
  elapsed time therefore overflows for any non-zero stake
  (`Points.NegativeTimeOverflows`). The settlement routine only passes
  positive elapsed times.

Inputs the program takes from its runtime are parameters:

- the clock reading is `now` / `currentTime`;
- the caller is `caller` / `payer`;
- the outcome of each system-program transfer is `transferOk`.

## Model

| member | source | states |
|---|---|---|
| `Points.CalculateNewPoints` | staking-program/programs/staking-program/src/lib.rs:140-154 | every error is `Overflow`; for a non-negative elapsed time it fails exactly when stake * seconds * 10^6 reaches 2^128, and otherwise returns that product floored by 10^9, then by 86_400, modulo 2^64 |
| `Points.PointsClosedForm` | staking-program/programs/staking-program/src/lib.rs:143-153 | a successful computation over a non-negative elapsed time equals stake * seconds floored by 86_400_000, modulo 2^64 |
| `Points.OneSolForOneDay` | staking-program/programs/staking-program/src/lib.rs:6-8 | 10^9 lamports for 86_400 seconds yield exactly 1_000_000 stored points |
| `Points.NothingEarnsNothing` | staking-program/programs/staking-program/src/lib.rs:143-153 | a zero stake or zero elapsed time yields `Ok(0)` |
| `Points.NegativeTimeOverflows` | staking-program/programs/staking-program/src/lib.rs:144 | a negative elapsed time, sign-extended to u128, gives `Overflow` for any non-zero stake and `Ok(0)` for a zero stake |
| `Points.TruncationIsReachable` | staking-program/programs/staking-program/src/lib.rs:153 | u64::MAX lamports for 10^8 seconds pass every checked step, but the returned points are smaller than the true quotient (the cast drops the high bits) |
| `Ledger.NewAccount` | staking-program/programs/staking-program/src/lib.rs:20-24 | the new account belongs to the payer and keeps the bump; settling it at its creation time changes nothing, and the owner's immediate claim reports 0 and changes nothing |
| `Ledger.Settle` | staking-program/programs/staking-program/src/lib.rs:121-138 | errors are only `InvalidTimeStamp` (checked i64 subtraction) or `Overflow` (formula or u64 sum); on success owner, stake and bump are kept, points never go down and the clock is set to the current time |
| `Ledger.ApplyStake` | staking-program/programs/staking-program/src/lib.rs:31-62 | checks in source order (owner, amount, transfer, checked add); succeeds if and only if caller is the owner, amount > 0, the transfer succeeds and the new stake fits in u64; success adds exactly the amount and changes no other field |
| `Ledger.ApplyUnstake` | staking-program/programs/staking-program/src/lib.rs:63-105 | checks in source order (owner, amount, balance, transfer, checked sub); succeeds if and only if caller is the owner, 0 < amount <= stake and the transfer succeeds; success removes exactly the amount and changes no other field; never `Underflow` |
| `Ledger.ApplyClaim` | staking-program/programs/staking-program/src/lib.rs:107-118 | fails if and only if the caller is not the owner; otherwise claimable * 10^6 <= points < (claimable + 1) * 10^6, the points become 0 and no other field changes |
| `Ledger.StakeAccount.constructor` | staking-program/programs/staking-program/src/lib.rs:16-29 | owner = payer, nothing staked, no points, clock = creation time, the given bump |
| `Ledger.StakeAccount.UpdatePoints` | staking-program/programs/staking-program/src/lib.rs:121-138 | result and new fields are those of `Settle` on the old fields; on any error no field changes |
| `Ledger.StakeAccount.Stake` | staking-program/programs/staking-program/src/lib.rs:31-62 | result and new fields are those of `ApplyStake` on the old fields; on any error no field changes |
| `Ledger.StakeAccount.Unstake` | staking-program/programs/staking-program/src/lib.rs:63-105 | result and new fields are those of `ApplyUnstake` on the old fields; on any error no field changes |
| `Ledger.StakeAccount.ClaimPoints` | staking-program/programs/staking-program/src/lib.rs:107-118 | returns the claimable whole points and leaves the fields of `ApplyClaim`; a non-owner gets `Unauthorized` and no field changes |
| `LedgerProperties.SettleRejectsOnlyTimeOverflow` | staking-program/programs/staking-program/src/lib.rs:122-124 | settlement fails with `InvalidTimeStamp` if and only if current time minus last update time leaves the i64 range |
| `LedgerProperties.SettleIdle` | staking-program/programs/staking-program/src/lib.rs:126-135 | with elapsed time <= 0 or nothing staked, settlement only sets the clock to the current time, earlier or not |
| `LedgerProperties.SettleRewindsClock` | staking-program/programs/staking-program/src/lib.rs:122-135 | an earlier current time is accepted, keeps the points and moves the clock backwards |
| `LedgerProperties.SettleAccrues` | staking-program/programs/staking-program/src/lib.rs:126-135 | with positive elapsed time and stake, settlement succeeds if and only if the formula succeeds and the sum fits in u64; it then adds exactly the formula's points, and otherwise fails with `Overflow` |
| `LedgerProperties.SettleFrame` | staking-program/programs/staking-program/src/lib.rs:121-138 | a successful settlement keeps owner, stake and bump, never lowers the points, and leaves the clock at the current time |
| `LedgerProperties.SettleIdempotent` | staking-program/programs/staking-program/src/lib.rs:121-138 | settling twice at the same instant is the same as settling once |
| `LedgerProperties.SettledTotal` | staking-program/programs/staking-program/src/lib.rs:126-132 | a forward, untruncated settlement adds exactly stake * elapsed seconds floored by 86_400_000 |
| `LedgerProperties.SplitSettlementNeverGains` | staking-program/programs/staking-program/src/lib.rs:121-153 | when the single settlement's points are below 2^64 (not truncated by the cast to u64), settling at an intermediate time never yields more points than one settlement over the whole interval |
| `LedgerProperties.SplitSettlementGainsWhenTruncated` | staking-program/programs/staking-program/src/lib.rs:143-153 | without that hypothesis the split can gain: with 2^63 lamports staked, one settlement over 172_800_000 s computes exactly 2^64 points and the cast leaves 0, while settling at 1 s and then at the end credits 2^64 - 1 |
| `LedgerProperties.StakeRejects` | staking-program/programs/staking-program/src/lib.rs:32-50 | non-owner gives `Unauthorized`; zero amount gives `InvalidAmount`; a refused transfer aborts; then `Overflow` if and only if the new stake reaches 2^64 |
| `LedgerProperties.StakeAddsAmount` | staking-program/programs/staking-program/src/lib.rs:47-50 | a successful stake adds exactly the amount and changes no other field |
| `LedgerProperties.UnstakeRejects` | staking-program/programs/staking-program/src/lib.rs:64-93 | non-owner gives `Unauthorized`; zero amount gives `InvalidAmount`; `InsufficientStake` if and only if amount > stake; past those checks it succeeds if and only if the transfer does; `Underflow` is never raised |
| `LedgerProperties.UnstakeRemovesAmount` | staking-program/programs/staking-program/src/lib.rs:90-93 | a successful unstake removes exactly the amount, which was at most the stake, and changes no other field |
| `LedgerProperties.UnstakeUndoesStake` | staking-program/programs/staking-program/src/lib.rs:31-105 | unstaking what was just staked restores the account exactly |
| `LedgerProperties.StakeUndoesUnstake` | staking-program/programs/staking-program/src/lib.rs:31-105 | staking what was just unstaked restores the account exactly |
| `LedgerProperties.ClaimReportsWholePoints` | staking-program/programs/staking-program/src/lib.rs:111-115 | a claim fails if and only if the caller is not the owner (`Unauthorized`); otherwise claimable * 10^6 <= points < (claimable + 1) * 10^6, the points become 0 and nothing else changes |
| `LedgerProperties.SecondClaimIsZero` | staking-program/programs/staking-program/src/lib.rs:111-115 | a claim right after a claim reports 0 and changes nothing |
| `LedgerProperties.HandlersDoNotSettle` | staking-program/programs/staking-program/src/lib.rs:31-118 | stake, unstake and claim never move the clock; stake and unstake never change the points |
| `LedgerProperties.OwnerIsImmutable` | staking-program/programs/staking-program/src/lib.rs:186-188 | only the owner's instructions succeed, and no instruction changes owner or bump |
| `LedgerProperties.NewAccountIsEmpty` | staking-program/programs/staking-program/src/lib.rs:20-24 | a new account belongs to the payer, holds nothing and starts its clock at creation time |
| `Scenarios.StakeIsConserved` | staking-program/programs/staking-program/src/lib.rs:44-50 | after any sequence of instructions, stake = initial stake + lamports moved in - lamports moved out |
| `Scenarios.HandlersKeepClockAndPoints` | staking-program/programs/staking-program/src/lib.rs:31-118 | no sequence of handler instructions moves the clock, raises the points, or changes owner or bump |
| `Scenarios.ClaimsAlwaysReportZero` | staking-program/programs/staking-program/src/lib.rs:107-118 | from a new account, every reachable state has zero points and every claim reports 0 |
| `Scenarios.StakeThenUnstakeIsNeutral` | staking-program/programs/staking-program/src/lib.rs:44-93 | stake(x) then unstake(x) leaves the account as it was, with a net lamport movement of zero |
| `Scenarios.TwoSolForOneDay` | staking-program/programs/staking-program/src/lib.rs:121-153 | create at 0, stake 2 SOL, settle at one day (2_000_000 points), unstake 1 SOL (1 SOL left), claim: reports 2 and clears the points |
| `Scenarios.StakeWithoutSettlementAccruesRetroactively` | staking-program/programs/staking-program/src/lib.rs:44-50 | a stake made a day after creation, settled at that same instant, is credited a full day's point |
| `Scenarios.TwoSolForOneDayOnAccount` | staking-program/programs/staking-program/src/lib.rs:16-138 | the same two-SOL day through the account object's methods claims 2 and leaves 1 SOL staked |

## Left out

- The system-program transfers (lib.rs:37-44 and 75-88) are foreign calls.
  Each is a boolean outcome that precedes the balance update. A refused
  transfer is `TransferFailed`, which stands in for the system program's own
  error code. The lamport balances of the user and the account are not
  tracked; `Scenarios.NetDeposited` counts only the net movement.
- The signer seeds, the bump derivation and the other account validation
  (`init`, `payer`, `space`, `seeds`, `Signer`) are left out. The runtime does
  these checks. What remains is the `owner == caller` constraint, checked
  before the handler body and failing with `Unauthorized`.
- The clock is an input. The possible failure of `Clock::get()` is not
  modelled, and the handlers ignore the time they read.
- Transaction atomicity is provided by the runtime. It is modelled as "a
  failed instruction changes nothing" (the method postconditions and
  `Ledger.Commit`).
- `msg!` logging and `declare_id!` carry no behaviour. `claim_points` only
  logs its claimable points; the model returns that value.
- The serialized byte layout of the account is out of scope. The 8-byte
  discriminator and the 57 bytes of fields are not modelled.
- Creating an account that already exists is rejected by the runtime's `init`
  check, which is not modelled.
- Which error a non-owner sees is not modelled faithfully. Every account
  this program creates lives at the address derived from the payer's key
  (lib.rs:173) and records that payer as owner (lib.rs:20). The handlers
  derive the expected address from the signer's key (lib.rs:186, 201, 216),
  so an account that passes that seeds check always has owner == signer,
  and the `Unauthorized` constraint (lib.rs:188, 203, 218) is redundant. A
  non-owner is refused by whichever constraint the runtime checks first,
  possibly with the seeds error rather than `Unauthorized`.
  `LedgerProperties.StakeRejects`, `LedgerProperties.UnstakeRejects` and
  `LedgerProperties.ClaimReportsWholePoints` state the `Unauthorized` code of
  the owner constraint alone.
- Whether the runtime accepts the unstake transfer is not modelled. That
  transfer debits the stake account itself (lib.rs:79-88), which is a
  program-owned account holding data. The system program's transfer refuses
  such a source, so on the deployed program `transferOk` would be false for
  every unstake. This follows from the runtime's rules, not from the source,
  and was not executed. `LedgerProperties.UnstakeUndoesStake`,
  `LedgerProperties.StakeUndoesUnstake`, `Scenarios.StakeThenUnstakeIsNeutral`,
  `Scenarios.TwoSolForOneDay` and `Scenarios.TwoSolForOneDayOnAccount` assume a
  successful unstake transfer, which the deployed program would not get.
