/** Exactly when a call of the vesting token goes through. */
module VestingRefusals {
  import opened Prelude
  import opened MapSums
  import opened Curves
  import opened CurveLaws
  import opened Vesting
  import opened VestingLaws
  import opened VestingOutcomes

  /** The balance covers the amount and what remains, held or delegated, covers `locked`. */
  predicate CanPay(s: State, from: Addr, amount: nat, locked: nat) {
    amount <= Get(s.balances, from) && locked + amount <= s.Funds(from) < U128
  }

  /** The schedule, merged into the recipient's own if it is still running, stays within the limit. */
  predicate FitsSchedule(s: State, op: Op, now: nat)
    requires s.Readable() && op.OpTransferVesting? && Valid(op.schedule)
  {
    Value(op.schedule, now) != 0 ==>
      !TooComplex(if op.to in s.vesting then Combine(s.vesting[op.to], op.schedule) else op.schedule, s.maxComplexity)
  }

  predicate MaySpend(s: State, b: Block, owner: Addr, spender: Addr, amount: nat) {
    && (owner, spender) in s.allowances && !s.allowances[(owner, spender)].expires.IsExpired(b)
    && amount <= Allowed(s, owner, spender)
  }

  predicate IsMinter(s: State, a: Addr) { s.mint.Some? && s.mint.value.minter == a }

  /** What the caller can check beforehand, operation by operation. */
  ghost predicate Admissible(s: State, b: Block, op: Op)
    requires s.Readable()
  {
    match op
    case OpTransfer(from, _, amount) => 0 < amount && CanPay(s, from, amount, s.Locked(from, b.time))
    case OpTransferVesting(from, _, amount, schedule) =>
      && from in s.allowlist && 0 < amount && SchedulesAmount(schedule, amount) && FitsSchedule(s, op, b.time)
      && CanPay(s, from, amount, LockAfter(s, op, from, b.time, b.time))
    case OpBurn(from, amount) => 0 < amount && CanPay(s, from, amount, s.Locked(from, b.time))
    case OpMint(from, _, amount) =>
      && 0 < amount && IsMinter(s, from) && s.supply + amount < U128
      && (s.mint.value.cap.Some? ==> s.supply + amount <= Value(s.mint.value.cap.value, b.time))
    case OpUpdateMinter(from, _) => IsMinter(s, from)
    case OpUpdateStaking(from, _) => s.staking.None? && IsMinter(s, from)
    case OpDelegate(from, amount) =>
      0 < amount <= Get(s.balances, from) && s.staking.Some? && Get(s.delegated, from) + amount < U128
    case OpUndelegate(from, to, amount) =>
      && 0 < amount <= Get(s.delegated, to) && s.staking == Some(from)
      && CanPay(s.(delegated := s.delegated[to := Get(s.delegated, to) - amount]), from, amount, s.Locked(from, b.time))
    case OpIncreaseAllowance(from, spender, amount, _) => from != spender && Allowed(s, from, spender) + amount < U128
    case OpTransferFrom(spender, from, _, amount) =>
      MaySpend(s, b, from, spender, amount) && CanPay(s, from, amount, s.Locked(from, b.time))
    case OpBurnFrom(spender, from, amount) =>
      MaySpend(s, b, from, spender, amount) && CanPay(s, from, amount, s.Locked(from, b.time))
  }

  lemma DeductsExactly(s: State, now: nat, from: Addr, amount: nat)
    requires s.Readable()
    ensures DeductCoins(s, now, from, amount).Ok? <==> CanPay(s, from, amount, s.Locked(from, now))
  {
  }

  lemma CreditFits(balances: map<Addr, nat>, from: Addr, to: Addr, amount: nat)
    requires Total(balances) < U128 && amount <= Get(balances, from)
    ensures Get(balances[from := Get(balances, from) - amount], to) + amount < U128
  {
    TotalUpdate(balances, from, Get(balances, from) - amount);
    EntryWithinTotal(balances[from := Get(balances, from) - amount], to);
  }

  lemma MovesExactly(s: State, now: nat, from: Addr, to: Addr, amount: nat)
    requires s.Readable() && Total(s.balances) < U128
    ensures Move(s, now, from, to, amount).Ok? <==> CanPay(s, from, amount, s.Locked(from, now))
  {
    DeductsExactly(s, now, from, amount);
    if DeductCoins(s, now, from, amount).Ok? {
      CreditFits(s.balances, from, to, amount);
    }
  }

  lemma DestroysExactly(s: State, now: nat, from: Addr, amount: nat)
    requires s.Readable() && Total(s.balances) == s.supply
    ensures Destroy(s, now, from, amount).Ok? <==> CanPay(s, from, amount, s.Locked(from, now))
  {
    DeductsExactly(s, now, from, amount);
    EntryWithinTotal(s.balances, from);
  }

  lemma TransfersVestingExactly(s: State, b: Block, op: Op)
    requires Sound(s, b.time) && op.OpTransferVesting?
    ensures Apply(s, b, op).Ok? <==> Admissible(s, b, op)
  {
    if SchedulesAmount(op.schedule, op.amount) && FitsSchedule(s, op, b.time) {
      var live := Value(op.schedule, b.time) != 0;
      if live {
        MergedLock(s, op.to, op.schedule, op.amount, b.time);
      }
      MovesExactly(if live then AddSchedule(s, op.to, op.schedule).value else s, b.time, op.from, op.to, op.amount);
    }
  }

  lemma UndelegatesExactly(s: State, b: Block, op: Op)
    requires Sound(s, b.time) && op.OpUndelegate?
    ensures Apply(s, b, op).Ok? <==> Admissible(s, b, op)
  {
    if 0 < op.amount <= Get(s.delegated, op.to) {
      MovesExactly(s.(delegated := s.delegated[op.to := s.delegated[op.to] - op.amount]), b.time, op.from, op.to, op.amount);
    }
  }

  lemma DelegatesExactly(s: State, b: Block, op: Op)
    requires Sound(s, b.time) && op.OpDelegate?
    ensures Apply(s, b, op).Ok? <==> Admissible(s, b, op)
  {
    if 0 < op.amount <= Get(s.balances, op.from) && s.staking.Some? {
      CreditFits(s.balances, op.from, s.staking.value, op.amount);
    }
  }

  lemma SpendsExactly(s: State, b: Block, op: Op)
    requires Sound(s, b.time) && (op.OpTransferFrom? || op.OpBurnFrom?)
    ensures Apply(s, b, op).Ok? <==> Admissible(s, b, op)
  {
    if MaySpend(s, b, op.from, op.spender, op.amount) {
      var s1 := DeductAllowance(s, b, op.from, op.spender, op.amount).value;
      if op.OpTransferFrom? {
        MovesExactly(s1, b.time, op.from, op.to, op.amount);
      } else {
        DestroysExactly(s1, b.time, op.from, op.amount);
      }
    }
  }

  lemma MintsExactly(s: State, b: Block, op: Op)
    requires Sound(s, b.time) && op.OpMint?
    ensures Apply(s, b, op).Ok? <==> Admissible(s, b, op)
  {
    EntryWithinTotal(s.balances, op.to);
  }

  /**
   * A call goes through exactly when its caller may make it and the payer can pay above the lock:
   * crediting never overflows, and burning never runs out of supply, as balances add up to the supply.
   */
  lemma GoesThroughExactly(s: State, b: Block, op: Op)
    requires Sound(s, b.time)
    ensures Apply(s, b, op).Ok? <==> Admissible(s, b, op)
  {
    match op
    case OpTransfer(from, to, amount) => MovesExactly(s, b.time, from, to, amount);
    case OpTransferVesting(_, _, _, _) => TransfersVestingExactly(s, b, op);
    case OpBurn(from, amount) => DestroysExactly(s, b.time, from, amount);
    case OpMint(_, _, _) => MintsExactly(s, b, op);
    case OpDelegate(_, _) => DelegatesExactly(s, b, op);
    case OpUndelegate(_, _, _) => UndelegatesExactly(s, b, op);
    case OpTransferFrom(_, _, _, _) => SpendsExactly(s, b, op);
    case OpBurnFrom(_, _, _) => SpendsExactly(s, b, op);
    case _ =>
  }
}
