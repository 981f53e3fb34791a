/** Sequences of instructions on one account.

    The three handlers never call `update_points`, so within the program as
    written an account's points can only be reset, never raised, and its
    clock never moves after creation.  Settlement followed by an instruction
    is stated here as an explicit composition, and only here. */
module Scenarios {
  import opened StakingTypes
  import opened Points
  import opened Ledger

  /** An instruction sent to the program for one stake account. */
  datatype Instruction =
    | StakeIx(caller: Pubkey, amount: U64, transferOk: bool)
    | UnstakeIx(caller: Pubkey, amount: U64, transferOk: bool)
    | ClaimIx(caller: Pubkey)

  /** The account an instruction would produce, or its error. */
  function Execute(s: AccountState, ix: Instruction): Result<AccountState> {
    match ix
    case StakeIx(caller, amount, transferOk) => ApplyStake(s, caller, amount, transferOk)
    case UnstakeIx(caller, amount, transferOk) => ApplyUnstake(s, caller, amount, transferOk)
    case ClaimIx(caller) =>
      match ApplyClaim(s, caller)
      case Ok(claim) => Ok(claim.state)
      case Err(e) => Err(e)
  }

  /** The account after the instructions are processed one after the other;
      a failed instruction leaves it as it was. */
  function Run(s: AccountState, ixs: seq<Instruction>): AccountState
    decreases |ixs|
  {
    if ixs == [] then s else Run(Commit(s, Execute(s, ixs[0])), ixs[1..])
  }

  /** Lamports an instruction moves into the account's custody (negative when
      it pays out); a failed instruction moves nothing. */
  function Moved(s: AccountState, ix: Instruction): int {
    if Execute(s, ix).Err? then 0
    else match ix
      case StakeIx(_, amount, _) => amount
      case UnstakeIx(_, amount, _) => -(amount as int)
      case ClaimIx(_) => 0
  }

  /** Net lamports moved into custody by the instructions. */
  function NetDeposited(s: AccountState, ixs: seq<Instruction>): int
    decreases |ixs|
  {
    if ixs == [] then 0
    else Moved(s, ixs[0]) + NetDeposited(Commit(s, Execute(s, ixs[0])), ixs[1..])
  }

  /** Conservation: the recorded stake changes by exactly the lamports the
      transfers moved in and out. */
  lemma {:induction false} StakeIsConserved(s: AccountState, ixs: seq<Instruction>)
    ensures Run(s, ixs).stakedAmount == s.stakedAmount + NetDeposited(s, ixs)
    decreases |ixs|
  {
    if ixs != [] {
      StakeIsConserved(Commit(s, Execute(s, ixs[0])), ixs[1..]);
    }
  }

  /** Without settlement, no sequence of handler instructions moves the
      clock, raises the points, or changes the owner or the bump. */
  lemma {:induction false} HandlersKeepClockAndPoints(s: AccountState, ixs: seq<Instruction>)
    ensures Run(s, ixs).lastUpdatedTime == s.lastUpdatedTime
    ensures Run(s, ixs).totalPoint <= s.totalPoint
    ensures Run(s, ixs).owner == s.owner && Run(s, ixs).bump == s.bump
    decreases |ixs|
  {
    if ixs != [] {
      HandlersKeepClockAndPoints(Commit(s, Execute(s, ixs[0])), ixs[1..]);
    }
  }

  /** In the program as written, an account's points stay zero forever and
      every claim reports zero whole points. */
  lemma ClaimsAlwaysReportZero(payer: Pubkey, now: I64, bump: U8, ixs: seq<Instruction>, caller: Pubkey)
    ensures Run(NewAccount(payer, now, bump), ixs).totalPoint == 0
    ensures var s := Run(NewAccount(payer, now, bump), ixs);
      ApplyClaim(s, caller).Ok? ==> ApplyClaim(s, caller).value.claimable == 0
  {
    HandlersKeepClockAndPoints(NewAccount(payer, now, bump), ixs);
  }

  /** `stake(x)` then `unstake(x)` with both transfers succeeding moves no
      lamports on balance and leaves the account as it was. */
  lemma StakeThenUnstakeIsNeutral(s: AccountState, caller: Pubkey, amount: U64)
    requires ApplyStake(s, caller, amount, true).Ok?
    ensures var ixs := [StakeIx(caller, amount, true), UnstakeIx(caller, amount, true)];
      Run(s, ixs) == s && NetDeposited(s, ixs) == 0
  {
    var s1 := ApplyStake(s, caller, amount, true).value;
    var ixs := [StakeIx(caller, amount, true), UnstakeIx(caller, amount, true)];
    assert Commit(s, Execute(s, ixs[0])) == s1;
    assert Commit(s1, Execute(s1, ixs[1])) == s;
    assert ixs[1..][1..] == [];
    assert Run(s, ixs) == Run(s1, ixs[1..]) == Run(s, []);
    assert NetDeposited(s, ixs) == amount + NetDeposited(s1, ixs[1..]) == amount - amount;
  }

  /** Two SOL staked for one day, settled before the unstake: settlement
      credits two whole points, the unstake leaves one SOL, and the claim
      reports 2 and clears the points. */
  lemma TwoSolForOneDay(payer: Pubkey, bump: U8)
    ensures var created := NewAccount(payer, 0, bump);
      var staked := ApplyStake(created, payer, 2 * LAMPORTS_PER_SOL, true);
      staked == Ok(created.(stakedAmount := 2 * LAMPORTS_PER_SOL)) &&
      var settled := Settle(staked.value, SECONDS_PER_DAY);
      settled.Ok? && settled.value.totalPoint == 2 * POINTS_PER_SOL_PER_DAY &&
      var unstaked := ApplyUnstake(settled.value, payer, LAMPORTS_PER_SOL, true);
      unstaked.Ok? && unstaked.value.stakedAmount == LAMPORTS_PER_SOL &&
      var claim := ApplyClaim(unstaked.value, payer);
      claim.Ok? && claim.value.claimable == 2 && claim.value.state.totalPoint == 0
  {
    assert CalculateNewPoints(2 * LAMPORTS_PER_SOL, SECONDS_PER_DAY) == Ok(2 * POINTS_PER_SOL_PER_DAY);
  }

  /** Because `stake` does not settle first, a later settlement credits the
      new stake for time when it was not yet staked: an account created at
      time 0 that stakes one SOL after a day and is settled at that same
      instant already holds a full day's point. */
  lemma StakeWithoutSettlementAccruesRetroactively(payer: Pubkey, bump: U8)
    ensures var created := NewAccount(payer, 0, bump);
      var staked := ApplyStake(created, payer, LAMPORTS_PER_SOL, true);
      staked.Ok? &&
      Settle(staked.value, SECONDS_PER_DAY)
        == Ok(staked.value.(totalPoint := POINTS_PER_SOL_PER_DAY, lastUpdatedTime := SECONDS_PER_DAY))
  {
    assert CalculateNewPoints(LAMPORTS_PER_SOL, SECONDS_PER_DAY) == Ok(POINTS_PER_SOL_PER_DAY);
  }

  /** The same two-SOL day on a live account object: create, stake, settle,
      unstake and claim, each through the account's own methods. */
  method TwoSolForOneDayOnAccount(payer: Pubkey, bump: U8) returns (claimed: Result<U64>, staked: U64)
    ensures claimed == Ok(2)
    ensures staked == LAMPORTS_PER_SOL
  {
    var account := new StakeAccount(payer, 0, bump);
    var r := account.Stake(payer, 2 * LAMPORTS_PER_SOL, true);
    assert CalculateNewPoints(2 * LAMPORTS_PER_SOL, SECONDS_PER_DAY) == Ok(2 * POINTS_PER_SOL_PER_DAY);
    r := account.UpdatePoints(SECONDS_PER_DAY);
    assert account.totalPoint == 2 * POINTS_PER_SOL_PER_DAY;
    r := account.Unstake(payer, LAMPORTS_PER_SOL, true);
    claimed := account.ClaimPoints(payer);
    staked := account.stakedAmount;
  }
}
