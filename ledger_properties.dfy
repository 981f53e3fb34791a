/** What the instructions of the stake account promise, stated over the
    functions that specify them. */
module LedgerProperties {
  import opened StakingTypes
  import opened Points
  import opened Ledger

  // ----- update_points -----

  /** Settlement rejects a timestamp exactly when the elapsed time does not
      fit in an i64, and then with `InvalidTimeStamp`. */
  lemma SettleRejectsOnlyTimeOverflow(s: AccountState, currentTime: I64)
    ensures Settle(s, currentTime) == Err(Custom(InvalidTimeStamp))
            <==> !(I64_MIN <= currentTime - s.lastUpdatedTime < I64_LIMIT)
  {
  }

  /** With no positive elapsed time or nothing staked, settlement adds no
      points and only moves the timestamp to `currentTime`, earlier or not. */
  lemma SettleIdle(s: AccountState, currentTime: I64)
    requires I64_MIN <= currentTime - s.lastUpdatedTime < I64_LIMIT
    requires currentTime <= s.lastUpdatedTime || s.stakedAmount == 0
    ensures Settle(s, currentTime) == Ok(s.(lastUpdatedTime := currentTime))
  {
  }

  /** Settlement is not monotone in time: an earlier timestamp is accepted
      and rewinds the account's clock, with the points kept. */
  lemma SettleRewindsClock(s: AccountState, currentTime: I64)
    requires I64_MIN <= currentTime - s.lastUpdatedTime
    requires currentTime < s.lastUpdatedTime
    ensures Settle(s, currentTime).Ok?
    ensures Settle(s, currentTime).value.lastUpdatedTime < s.lastUpdatedTime
    ensures Settle(s, currentTime).value.totalPoint == s.totalPoint
  {
  }

  /** With positive elapsed time and stake, settlement succeeds exactly when
      the points formula succeeds and the new total fits in a u64; it then
      adds exactly those points, and otherwise fails with `Overflow`. */
  lemma SettleAccrues(s: AccountState, currentTime: I64)
    requires I64_MIN <= currentTime - s.lastUpdatedTime < I64_LIMIT
    requires currentTime > s.lastUpdatedTime && s.stakedAmount > 0
    ensures var points := CalculateNewPoints(s.stakedAmount, currentTime - s.lastUpdatedTime);
      var r := Settle(s, currentTime);
      (r.Ok? <==> points.Ok? && s.totalPoint + points.value < U64_LIMIT) &&
      (r.Ok? ==> r.value == s.(totalPoint := s.totalPoint + points.value,
                               lastUpdatedTime := currentTime)) &&
      (r.Err? ==> r.error == Custom(Overflow))
  {
  }

  /** Settlement never touches the owner, the stake or the bump, never lowers
      the points, and always leaves the clock at `currentTime`. */
  lemma SettleFrame(s: AccountState, currentTime: I64)
    ensures Settle(s, currentTime).Ok? ==>
      var t := Settle(s, currentTime).value;
      t.owner == s.owner && t.stakedAmount == s.stakedAmount && t.bump == s.bump &&
      t.totalPoint >= s.totalPoint && t.lastUpdatedTime == currentTime
  {
  }

  /** Settling a second time at the same instant changes nothing. */
  lemma SettleIdempotent(s: AccountState, currentTime: I64)
    ensures Settle(s, currentTime).Ok? ==>
      Settle(Settle(s, currentTime).value, currentTime) == Settle(s, currentTime)
  {
  }

  /** Flooring by the points rate loses the remainders: x/k + y/k <= (x+y)/k. */
  lemma {:induction false} FloorSuperadditive(x: nat, y: nat)
    ensures x / LAMPORT_SECONDS_PER_POINT + y / LAMPORT_SECONDS_PER_POINT
            <= (x + y) / LAMPORT_SECONDS_PER_POINT
  {
    var k := LAMPORT_SECONDS_PER_POINT;
    assert x == (x / k) * k + x % k;
    assert y == (y / k) * k + y % k;
  }

  /** Flooring by the points rate is monotone. */
  lemma {:induction false} FloorMonotone(x: nat, y: nat)
    requires x <= y
    ensures x / LAMPORT_SECONDS_PER_POINT <= y / LAMPORT_SECONDS_PER_POINT
  {
    var k := LAMPORT_SECONDS_PER_POINT;
    assert x == (x / k) * k + x % k;
    assert y == (y / k) * k + y % k;
  }

  /** A forward settlement whose points are not truncated adds exactly the
      floored stake-seconds. */
  lemma SettledTotal(s: AccountState, currentTime: I64)
    requires s.lastUpdatedTime <= currentTime
    requires s.stakedAmount * (currentTime - s.lastUpdatedTime) / LAMPORT_SECONDS_PER_POINT < U64_LIMIT
    requires Settle(s, currentTime).Ok?
    ensures Settle(s, currentTime).value.totalPoint
            == s.totalPoint + s.stakedAmount * (currentTime - s.lastUpdatedTime) / LAMPORT_SECONDS_PER_POINT
  {
    var a, d := s.stakedAmount, currentTime - s.lastUpdatedTime;
    if d > 0 && a > 0 {
      SettleAccrues(s, currentTime);
      PointsClosedForm(a, d);
    } else {
      SettleIdle(s, currentTime);
      assert a * d == 0;
    }
  }

  /** Settling at an intermediate time never earns more than settling once
      over the whole interval (the rounding of each settlement is lost, it
      is never gained), as long as the single settlement is not truncated
      by the final cast to u64. */
  lemma SplitSettlementNeverGains(s: AccountState, mid: I64, end: I64)
    requires s.lastUpdatedTime <= mid <= end
    requires s.stakedAmount * (end - s.lastUpdatedTime) / LAMPORT_SECONDS_PER_POINT < U64_LIMIT
    ensures Settle(s, mid).Ok? && Settle(Settle(s, mid).value, end).Ok? && Settle(s, end).Ok? ==>
      Settle(Settle(s, mid).value, end).value.totalPoint <= Settle(s, end).value.totalPoint
  {
    if !(Settle(s, mid).Ok? && Settle(Settle(s, mid).value, end).Ok? && Settle(s, end).Ok?) {
      return;
    }
    var a: nat, d1: nat, d2: nat := s.stakedAmount, mid - s.lastUpdatedTime, end - mid;
    assert a * (d1 + d2) == a * d1 + a * d2;
    MulNonNegative(a, d1);
    MulNonNegative(a, d2);
    FloorMonotone(a * d1, a * (d1 + d2));
    FloorMonotone(a * d2, a * (d1 + d2));
    FloorSuperadditive(a * d1, a * d2);
    SettledTotal(s, mid);
    SettledTotal(Settle(s, mid).value, end);
    SettledTotal(s, end);
  }

  /** Without the no-truncation hypothesis the split settlement can gain:
      with 2^63 lamports staked, one settlement over 172_800_000 seconds
      computes exactly 2^64 points, which the cast to u64 turns into 0,
      while settling after one second and then at the end credits
      2^64 - 1 points in total. */
  lemma SplitSettlementGainsWhenTruncated(s: AccountState)
    requires s.stakedAmount == I64_LIMIT && s.totalPoint == 0 && s.lastUpdatedTime == 0
    ensures Settle(s, 172_800_000) == Ok(s.(totalPoint := 0, lastUpdatedTime := 172_800_000))
    ensures Settle(s, 1).Ok? && Settle(Settle(s, 1).value, 172_800_000).Ok?
    ensures Settle(Settle(s, 1).value, 172_800_000).value.totalPoint == U64_LIMIT - 1
  {
    PointsClosedForm(I64_LIMIT, 172_800_000);
    PointsClosedForm(I64_LIMIT, 1);
    PointsClosedForm(I64_LIMIT, 172_799_999);
  }

  // ----- stake -----

  /** Rejections of `stake`, in the order they are checked. */
  lemma StakeRejects(s: AccountState, caller: Pubkey, amount: U64, transferOk: bool)
    ensures s.owner != caller ==>
      ApplyStake(s, caller, amount, transferOk) == Err(Custom(Unauthorized))
    ensures s.owner == caller && amount == 0 ==>
      ApplyStake(s, caller, amount, transferOk) == Err(Custom(InvalidAmount))
    ensures s.owner == caller && amount > 0 && !transferOk ==>
      ApplyStake(s, caller, amount, transferOk) == Err(TransferFailed)
    ensures s.owner == caller && amount > 0 && transferOk ==>
      (ApplyStake(s, caller, amount, transferOk) == Err(Custom(Overflow))
       <==> s.stakedAmount + amount >= U64_LIMIT)
  {
  }

  /** A successful `stake` adds exactly `amount` to the stake and leaves the
      points, the clock, the owner and the bump as they were. */
  lemma StakeAddsAmount(s: AccountState, caller: Pubkey, amount: U64, transferOk: bool)
    requires ApplyStake(s, caller, amount, transferOk).Ok?
    ensures ApplyStake(s, caller, amount, transferOk).value
            == s.(stakedAmount := s.stakedAmount + amount)
  {
  }

  // ----- unstake -----

  /** Rejections of `unstake`, in the order they are checked; the defensive
      `Underflow` can never be raised. */
  lemma UnstakeRejects(s: AccountState, caller: Pubkey, amount: U64, transferOk: bool)
    ensures s.owner != caller ==>
      ApplyUnstake(s, caller, amount, transferOk) == Err(Custom(Unauthorized))
    ensures s.owner == caller && amount == 0 ==>
      ApplyUnstake(s, caller, amount, transferOk) == Err(Custom(InvalidAmount))
    ensures s.owner == caller && amount > 0 ==>
      (ApplyUnstake(s, caller, amount, transferOk) == Err(Custom(InsufficientStake))
       <==> amount > s.stakedAmount)
    ensures s.owner == caller && 0 < amount <= s.stakedAmount ==>
      (ApplyUnstake(s, caller, amount, transferOk).Ok? <==> transferOk)
    ensures ApplyUnstake(s, caller, amount, transferOk) != Err(Custom(Underflow))
  {
  }

  /** A successful `unstake` removes exactly `amount` from the stake and
      leaves everything else as it was. */
  lemma UnstakeRemovesAmount(s: AccountState, caller: Pubkey, amount: U64, transferOk: bool)
    requires ApplyUnstake(s, caller, amount, transferOk).Ok?
    ensures amount <= s.stakedAmount
    ensures ApplyUnstake(s, caller, amount, transferOk).value
            == s.(stakedAmount := s.stakedAmount - amount)
  {
  }

  /** `unstake(x)` undoes `stake(x)`, transfers permitting. */
  lemma UnstakeUndoesStake(s: AccountState, caller: Pubkey, amount: U64)
    requires ApplyStake(s, caller, amount, true).Ok?
    ensures ApplyUnstake(ApplyStake(s, caller, amount, true).value, caller, amount, true) == Ok(s)
  {
  }

  /** `stake(x)` undoes `unstake(x)`, transfers permitting. */
  lemma StakeUndoesUnstake(s: AccountState, caller: Pubkey, amount: U64)
    requires ApplyUnstake(s, caller, amount, true).Ok?
    ensures ApplyStake(ApplyUnstake(s, caller, amount, true).value, caller, amount, true) == Ok(s)
  {
  }

  // ----- claim_points -----

  /** A claim by the owner reports the stored points floored to whole
      points and resets the stored points to zero, and nothing else. */
  lemma ClaimReportsWholePoints(s: AccountState, caller: Pubkey)
    ensures ApplyClaim(s, caller).Err? <==> s.owner != caller
    ensures ApplyClaim(s, caller).Err? ==> ApplyClaim(s, caller).error == Custom(Unauthorized)
    ensures ApplyClaim(s, caller).Ok? ==>
      var c := ApplyClaim(s, caller).value;
      c.claimable * POINT_SCALE <= s.totalPoint < (c.claimable + 1) * POINT_SCALE &&
      c.state == s.(totalPoint := 0)
  {
  }

  /** A second claim right after the first reports nothing. */
  lemma SecondClaimIsZero(s: AccountState, caller: Pubkey)
    requires ApplyClaim(s, caller).Ok?
    ensures ApplyClaim(ApplyClaim(s, caller).value.state, caller)
            == Ok(Claim(0, ApplyClaim(s, caller).value.state))
  {
  }

  // ----- all instructions -----

  /** None of the three handlers settles points: they never move the clock,
      and `stake`/`unstake` never change the points. */
  lemma HandlersDoNotSettle(s: AccountState, caller: Pubkey, amount: U64, transferOk: bool)
    ensures ApplyStake(s, caller, amount, transferOk).Ok? ==>
      ApplyStake(s, caller, amount, transferOk).value.lastUpdatedTime == s.lastUpdatedTime &&
      ApplyStake(s, caller, amount, transferOk).value.totalPoint == s.totalPoint
    ensures ApplyUnstake(s, caller, amount, transferOk).Ok? ==>
      ApplyUnstake(s, caller, amount, transferOk).value.lastUpdatedTime == s.lastUpdatedTime &&
      ApplyUnstake(s, caller, amount, transferOk).value.totalPoint == s.totalPoint
    ensures ApplyClaim(s, caller).Ok? ==>
      ApplyClaim(s, caller).value.state.lastUpdatedTime == s.lastUpdatedTime
  {
  }

  /** The owner and the bump are fixed at creation: no instruction changes
      them, and every handler refuses a caller other than the owner. */
  lemma OwnerIsImmutable(s: AccountState, caller: Pubkey, amount: U64, transferOk: bool, now: I64)
    ensures Settle(s, now).Ok? ==>
      Settle(s, now).value.owner == s.owner && Settle(s, now).value.bump == s.bump
    ensures ApplyStake(s, caller, amount, transferOk).Ok? ==>
      caller == s.owner && ApplyStake(s, caller, amount, transferOk).value.owner == s.owner
    ensures ApplyUnstake(s, caller, amount, transferOk).Ok? ==>
      caller == s.owner && ApplyUnstake(s, caller, amount, transferOk).value.owner == s.owner
    ensures ApplyClaim(s, caller).Ok? ==>
      caller == s.owner && ApplyClaim(s, caller).value.state.owner == s.owner
  {
  }

  /** A new account belongs to the payer, holds nothing and starts its clock
      at the creation time. */
  lemma NewAccountIsEmpty(payer: Pubkey, now: I64, bump: U8)
    ensures var s := NewAccount(payer, now, bump);
      s.owner == payer && s.stakedAmount == 0 && s.totalPoint == 0 &&
      s.lastUpdatedTime == now && s.bump == bump
  {
  }
}
