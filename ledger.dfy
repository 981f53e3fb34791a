/** The per-owner stake account and the instructions that change it.

    `AccountState` is the value of an account; the functions below say, for
    each instruction, what the account becomes (or which error is raised).
    `StakeAccount` is the mutable account itself, whose methods update its
    fields in place and are proved to follow those functions: on success the
    new state is the function's value, on failure nothing changes. */
module Ledger {
  import opened StakingTypes
  import opened Points

  /** Divisor turning stored points into whole points when they are claimed. */
  const POINT_SCALE: U64 := 1_000_000

  /** The fields of a stake account. */
  datatype AccountState = AccountState(
    owner: Pubkey,
    stakedAmount: U64,
    totalPoint: U64,
    lastUpdatedTime: I64,
    bump: U8)

  /** Outcome of a successful claim: the whole points reported and the new state. */
  datatype Claim = Claim(claimable: U64, state: AccountState)

  /** `create_stake_account`: the payer owns the account, nothing is staked
      or accrued, and the clock starts at `now`. */
  function NewAccount(payer: Pubkey, now: I64, bump: U8): (r: AccountState)
    ensures r.owner == payer && r.bump == bump
    ensures Settle(r, now) == Ok(r)
    ensures ApplyClaim(r, payer) == Ok(Claim(0, r))
  {
    AccountState(payer, 0, 0, now, bump)
  }

  /** `update_points`: elapsed time by checked i64 subtraction; points accrue
      only for a positive elapsed time and a positive stake; the timestamp is
      overwritten with `currentTime` in every successful case. */
  function Settle(s: AccountState, currentTime: I64): (r: Result<AccountState>)
    ensures r.Err? ==> r.error == Custom(InvalidTimeStamp) || r.error == Custom(Overflow)
    ensures r.Ok? ==>
      r.value.owner == s.owner && r.value.stakedAmount == s.stakedAmount &&
      r.value.bump == s.bump && r.value.totalPoint >= s.totalPoint &&
      r.value.lastUpdatedTime == currentTime
  {
    var timePassed :- OkOr(CheckedSubI64(currentTime, s.lastUpdatedTime), InvalidTimeStamp);
    if timePassed > 0 && s.stakedAmount > 0 then
      var newPoints :- CalculateNewPoints(s.stakedAmount, timePassed);
      var total :- OkOr(CheckedAddU64(s.totalPoint, newPoints), Overflow);
      Ok(s.(totalPoint := total, lastUpdatedTime := currentTime))
    else
      Ok(s.(lastUpdatedTime := currentTime))
  }

  /** `stake`: the owner check of the account constraints, then the amount
      check, then the transfer from the caller, then the checked addition.
      The handler does not settle points. */
  function ApplyStake(s: AccountState, caller: Pubkey, amount: U64, transferOk: bool): (r: Result<AccountState>)
    ensures r.Ok? <==>
      s.owner == caller && amount > 0 && transferOk && s.stakedAmount + amount < U64_LIMIT
    ensures r.Ok? ==>
      r.value.stakedAmount == s.stakedAmount + amount &&
      r.value.(stakedAmount := s.stakedAmount) == s
  {
    if s.owner != caller then Err(Custom(Unauthorized))
    else if amount == 0 then Err(Custom(InvalidAmount))
    else if !transferOk then Err(TransferFailed)
    else
      var staked :- OkOr(CheckedAddU64(s.stakedAmount, amount), Overflow);
      Ok(s.(stakedAmount := staked))
  }

  /** `unstake`: the owner check, the amount check, the balance check, then
      the transfer back to the caller signed by the account, then the
      checked subtraction.  The handler does not settle points. */
  function ApplyUnstake(s: AccountState, caller: Pubkey, amount: U64, transferOk: bool): (r: Result<AccountState>)
    ensures r.Ok? <==>
      s.owner == caller && 0 < amount <= s.stakedAmount && transferOk
    ensures r.Ok? ==>
      r.value.stakedAmount + amount == s.stakedAmount &&
      r.value.(stakedAmount := s.stakedAmount) == s
    ensures r != Err(Custom(Underflow))
  {
    if s.owner != caller then Err(Custom(Unauthorized))
    else if amount == 0 then Err(Custom(InvalidAmount))
    else if s.stakedAmount < amount then Err(Custom(InsufficientStake))
    else if !transferOk then Err(TransferFailed)
    else
      match OkOr(CheckedSubU64(s.stakedAmount, amount), Underflow)
      case Err(e) => Err(e)
      case Ok(staked) => Ok(s.(stakedAmount := staked))
  }

  /** `claim_points`: the owner check, then report the whole points (floor
      of the stored points by 10^6) and reset the stored points to zero.
      The handler does not settle points. */
  function ApplyClaim(s: AccountState, caller: Pubkey): (r: Result<Claim>)
    ensures r.Err? <==> s.owner != caller
    ensures r.Ok? ==>
      r.value.claimable * POINT_SCALE <= s.totalPoint < (r.value.claimable + 1) * POINT_SCALE &&
      r.value.state.totalPoint == 0 &&
      r.value.state.(totalPoint := s.totalPoint) == s
  {
    if s.owner != caller then Err(Custom(Unauthorized))
    else Ok(Claim(s.totalPoint / POINT_SCALE, s.(totalPoint := 0)))
  }

  /** The state an instruction leaves behind: its new state on success, the
      old state on failure (the runtime discards a failed instruction's
      writes). */
  function Commit(s: AccountState, r: Result<AccountState>): AccountState {
    if r.Ok? then r.value else s
  }

  /** A program-derived stake account, updated in place. */
  class StakeAccount {
    var owner: Pubkey
    var stakedAmount: U64
    var totalPoint: U64
    var lastUpdatedTime: I64
    var bump: U8

    function State(): AccountState
      reads this
    {
      AccountState(owner, stakedAmount, totalPoint, lastUpdatedTime, bump)
    }

    /** `create_stake_account` with the clock reading `now`. */
    constructor (payer: Pubkey, now: I64, pdaBump: U8)
      ensures State() == NewAccount(payer, now, pdaBump)
      ensures owner == payer && stakedAmount == 0 && totalPoint == 0
      ensures lastUpdatedTime == now && bump == pdaBump
    {
      owner := payer;
      stakedAmount := 0;
      totalPoint := 0;
      lastUpdatedTime := now;
      bump := pdaBump;
    }

    /** `update_points` */
    method UpdatePoints(currentTime: I64) returns (res: Result<()>)
      modifies this
      ensures var next := Settle(old(State()), currentTime);
        res.Ok? == next.Ok? && (next.Err? ==> res.error == next.error)
      ensures State() == Commit(old(State()), Settle(old(State()), currentTime))
    {
      var elapsed := CheckedSubI64(currentTime, lastUpdatedTime);
      if elapsed.None? {
        return Err(Custom(InvalidTimeStamp));
      }
      var timePassed := elapsed.value;
      if timePassed > 0 && stakedAmount > 0 {
        var newPoints := CalculateNewPoints(stakedAmount, timePassed);
        if newPoints.Err? {
          return Err(newPoints.error);
        }
        var total := CheckedAddU64(totalPoint, newPoints.value);
        if total.None? {
          return Err(Custom(Overflow));
        }
        totalPoint := total.value;
      }
      lastUpdatedTime := currentTime;
      res := Ok(());
    }

    /** `stake`; `transferOk` is the outcome of the system-program transfer
        of `amount` lamports from the caller to this account. */
    method Stake(caller: Pubkey, amount: U64, transferOk: bool) returns (res: Result<()>)
      modifies this
      ensures var next := ApplyStake(old(State()), caller, amount, transferOk);
        res.Ok? == next.Ok? && (next.Err? ==> res.error == next.error)
      ensures State() == Commit(old(State()), ApplyStake(old(State()), caller, amount, transferOk))
    {
      if owner != caller {
        return Err(Custom(Unauthorized));
      }
      if amount == 0 {
        return Err(Custom(InvalidAmount));
      }
      if !transferOk {
        return Err(TransferFailed);
      }
      var staked := CheckedAddU64(stakedAmount, amount);
      if staked.None? {
        return Err(Custom(Overflow));
      }
      stakedAmount := staked.value;
      res := Ok(());
    }

    /** `unstake`; `transferOk` is the outcome of the system-program transfer
        of `amount` lamports from this account back to the caller. */
    method Unstake(caller: Pubkey, amount: U64, transferOk: bool) returns (res: Result<()>)
      modifies this
      ensures var next := ApplyUnstake(old(State()), caller, amount, transferOk);
        res.Ok? == next.Ok? && (next.Err? ==> res.error == next.error)
      ensures State() == Commit(old(State()), ApplyUnstake(old(State()), caller, amount, transferOk))
    {
      if owner != caller {
        return Err(Custom(Unauthorized));
      }
      if amount == 0 {
        return Err(Custom(InvalidAmount));
      }
      if stakedAmount < amount {
        return Err(Custom(InsufficientStake));
      }
      if !transferOk {
        return Err(TransferFailed);
      }
      match CheckedSubU64(stakedAmount, amount)
      case None =>
        res := Err(Custom(Underflow));
      case Some(staked) =>
        stakedAmount := staked;
        res := Ok(());
    }

    /** `claim_points`; returns the whole points that the handler logs as
        claimable. */
    method ClaimPoints(caller: Pubkey) returns (res: Result<U64>)
      modifies this
      ensures var next := ApplyClaim(old(State()), caller);
        res.Ok? == next.Ok? &&
        (next.Ok? ==> res.value == next.value.claimable && State() == next.value.state) &&
        (next.Err? ==> res.error == next.error && State() == old(State()))
    {
      if owner != caller {
        return Err(Custom(Unauthorized));
      }
      var claimable := totalPoint / POINT_SCALE;
      totalPoint := 0;
      res := Ok(claimable);
    }
  }
}
