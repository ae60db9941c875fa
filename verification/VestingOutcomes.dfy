/**
 * What each call of the vesting token moves: balances, delegations, supply and allowances, to the
 * token, and the locks, exactly, at every later time.
 */
module VestingOutcomes {
  import opened Prelude
  import opened MapSums
  import opened Curves
  import opened CurveLaws
  import opened CurveSums
  import opened Vesting
  import opened VestingLaws

  // ----- tokens

  /** What the account pays in this call. */
  function Paid(op: Op, a: Addr): nat {
    match op
    case OpTransfer(from, _, amount) => if a == from then amount else 0
    case OpTransferVesting(from, _, amount, _) => if a == from then amount else 0
    case OpBurn(from, amount) => if a == from then amount else 0
    case OpDelegate(from, amount) => if a == from then amount else 0
    case OpUndelegate(from, _, amount) => if a == from then amount else 0
    case OpTransferFrom(_, from, _, amount) => if a == from then amount else 0
    case OpBurnFrom(_, from, amount) => if a == from then amount else 0
    case _ => 0
  }

  /** What the account receives in this call; delegated tokens go to the staking contract. */
  function Received(s: State, op: Op, a: Addr): nat {
    match op
    case OpTransfer(_, to, amount) => if a == to then amount else 0
    case OpTransferVesting(_, to, amount, _) => if a == to then amount else 0
    case OpMint(_, to, amount) => if a == to then amount else 0
    case OpDelegate(_, amount) => if s.staking == Some(a) then amount else 0
    case OpUndelegate(_, to, amount) => if a == to then amount else 0
    case OpTransferFrom(_, _, to, amount) => if a == to then amount else 0
    case _ => 0
  }

  /** What is counted as delegated for the account, more or less than before. */
  function DelegatedMore(op: Op, a: Addr): int {
    match op
    case OpDelegate(from, amount) => if a == from then amount else 0
    case OpUndelegate(_, to, amount) => if a == to then 0 - amount as int else 0
    case _ => 0
  }

  function Issued(op: Op): int {
    match op
    case OpMint(_, _, amount) => amount
    case OpBurn(_, amount) => 0 - amount as int
    case OpBurnFrom(_, _, amount) => 0 - amount as int
    case _ => 0
  }

  function AllowanceMore(op: Op, owner: Addr, spender: Addr): int {
    match op
    case OpIncreaseAllowance(from, to, amount, _) => if owner == from && spender == to then amount else 0
    case OpTransferFrom(spent, from, _, amount) => if owner == from && spender == spent then 0 - amount as int else 0
    case OpBurnFrom(spent, from, amount) => if owner == from && spender == spent then 0 - amount as int else 0
    case _ => 0
  }

  function Allowed(s: State, owner: Addr, spender: Addr): nat {
    if (owner, spender) in s.allowances then s.allowances[(owner, spender)].amount else 0
  }

  lemma MoveMoves(s: State, now: nat, from: Addr, to: Addr, amount: nat, a: Addr)
    requires s.Readable() && Move(s, now, from, to, amount).Ok?
    ensures var s1 := Move(s, now, from, to, amount).value;
            && s1 == s.(balances := s1.balances, vesting := s1.vesting)
            && Get(s1.balances, a) == Get(s.balances, a) - (if a == from then amount else 0) + (if a == to then amount else 0)
  {
  }

  lemma DestroyMoves(s: State, now: nat, from: Addr, amount: nat, a: Addr)
    requires s.Readable() && Destroy(s, now, from, amount).Ok?
    ensures var s1 := Destroy(s, now, from, amount).value;
            && s1 == s.(balances := s1.balances, vesting := s1.vesting, supply := s1.supply)
            && s1.supply == s.supply - amount
            && Get(s1.balances, a) == Get(s.balances, a) - (if a == from then amount else 0)
  {
  }

  lemma DelegateDelegates(s: State, from: Addr, amount: nat, a: Addr)
    requires Delegate(s, from, amount).Ok?
    ensures var s1 := Delegate(s, from, amount).value;
            && s1 == s.(balances := s1.balances, delegated := s1.delegated)
            && Get(s1.balances, a)
                 == Get(s.balances, a) - (if a == from then amount else 0) + (if s.staking == Some(a) then amount else 0)
            && Get(s1.delegated, a) == Get(s.delegated, a) + if a == from then amount else 0
  {
  }

  lemma AllowanceFalls(s: State, b: Block, owner: Addr, spender: Addr, amount: nat, x: Addr, y: Addr)
    requires DeductAllowance(s, b, owner, spender, amount).Ok?
    ensures var s1 := DeductAllowance(s, b, owner, spender, amount).value;
            && s1 == s.(allowances := s1.allowances)
            && Allowed(s1, x, y) == Allowed(s, x, y) - if x == owner && y == spender then amount else 0
  {
  }

  lemma TransferVestingMoves(s: State, now: nat, op: Op, a: Addr)
    requires s.Readable() && op.OpTransferVesting? && TransferVesting(s, now, op.from, op.to, op.amount, op.schedule).Ok?
    ensures var s1 := TransferVesting(s, now, op.from, op.to, op.amount, op.schedule).value;
            && s1 == s.(balances := s1.balances, vesting := s1.vesting)
            && Get(s1.balances, a) == Get(s.balances, a) - Paid(op, a) + Received(s, op, a)
  {
    var s0 := if Value(op.schedule, now) == 0 then s else AddSchedule(s, op.to, op.schedule).value;
    MoveMoves(s0, now, op.from, op.to, op.amount, a);
  }

  /** The whole effect of a call on an account's tokens and on the supply. */
  ghost predicate TokensMove(s: State, op: Op, s1: State, a: Addr) {
    && Get(s1.balances, a) == Get(s.balances, a) - Paid(op, a) + Received(s, op, a)
    && Get(s1.delegated, a) == Get(s.delegated, a) + DelegatedMore(op, a)
    && s1.supply == s.supply + Issued(op)
  }

  lemma UndelegateMoves(s: State, b: Block, op: Op, a: Addr)
    requires s.Readable() && op.OpUndelegate? && Apply(s, b, op).Ok?
    ensures TokensMove(s, op, Apply(s, b, op).value, a)
  {
    MoveMoves(s.(delegated := s.delegated[op.to := s.delegated[op.to] - op.amount]), b.time, op.from, op.to, op.amount, a);
  }

  lemma MintMoves(s: State, b: Block, op: Op, a: Addr)
    requires s.Readable() && op.OpMint? && Apply(s, b, op).Ok?
    ensures TokensMove(s, op, Apply(s, b, op).value, a)
  {
  }

  lemma SpendMoves(s: State, b: Block, op: Op, a: Addr)
    requires s.Readable() && (op.OpTransferFrom? || op.OpBurnFrom?) && Apply(s, b, op).Ok?
    ensures TokensMove(s, op, Apply(s, b, op).value, a)
  {
    AllowanceFalls(s, b, op.from, op.spender, op.amount, op.from, op.spender);
    var s0 := DeductAllowance(s, b, op.from, op.spender, op.amount).value;
    if op.OpTransferFrom? {
      MoveMoves(s0, b.time, op.from, op.to, op.amount, a);
    } else {
      DestroyMoves(s0, b.time, op.from, op.amount, a);
    }
  }

  lemma PaymentMoves(s: State, b: Block, op: Op, a: Addr)
    requires s.Readable() && (op.OpTransfer? || op.OpTransferVesting? || op.OpBurn?) && Apply(s, b, op).Ok?
    ensures TokensMove(s, op, Apply(s, b, op).value, a)
  {
    match op
    case OpTransfer(from, to, amount) => MoveMoves(s, b.time, from, to, amount, a);
    case OpTransferVesting(_, _, _, _) => TransferVestingMoves(s, b.time, op, a);
    case OpBurn(from, amount) => DestroyMoves(s, b.time, from, amount, a);
  }

  lemma SettingMoves(s: State, b: Block, op: Op, a: Addr)
    requires s.Readable() && (op.OpUpdateMinter? || op.OpUpdateStaking? || op.OpIncreaseAllowance?) && Apply(s, b, op).Ok?
    ensures TokensMove(s, op, Apply(s, b, op).value, a)
  {
  }

  /** Every call moves exactly its amount between exactly the accounts it names, and no other tokens. */
  lemma CallMovesTokens(s: State, b: Block, op: Op, a: Addr)
    requires s.Readable() && Apply(s, b, op).Ok?
    ensures TokensMove(s, op, Apply(s, b, op).value, a)
  {
    if op.OpTransfer? || op.OpTransferVesting? || op.OpBurn? {
      PaymentMoves(s, b, op, a);
    } else if op.OpTransferFrom? || op.OpBurnFrom? {
      SpendMoves(s, b, op, a);
    } else if op.OpMint? {
      MintMoves(s, b, op, a);
    } else if op.OpDelegate? {
      DelegateDelegates(s, op.from, op.amount, a);
    } else if op.OpUndelegate? {
      UndelegateMoves(s, b, op, a);
    } else {
      SettingMoves(s, b, op, a);
    }
  }

  /** Allowances rise by what is granted and fall by what is spent, for that owner and spender only. */
  lemma CallMovesAllowance(s: State, b: Block, op: Op, owner: Addr, spender: Addr)
    requires s.Readable() && Apply(s, b, op).Ok?
    ensures Allowed(Apply(s, b, op).value, owner, spender) == Allowed(s, owner, spender) + AllowanceMore(op, owner, spender)
  {
    match op
    case OpTransfer(from, to, amount) => MoveMoves(s, b.time, from, to, amount, from);
    case OpTransferVesting(_, _, _, _) => TransferVestingMoves(s, b.time, op, op.from);
    case OpBurn(from, amount) => DestroyMoves(s, b.time, from, amount, from);
    case OpDelegate(from, amount) => DelegateDelegates(s, from, amount, from);
    case OpUndelegate(from, to, amount) =>
      MoveMoves(s.(delegated := s.delegated[to := s.delegated[to] - amount]), b.time, from, to, amount, from);
    case OpTransferFrom(spent, from, to, amount) =>
      AllowanceFalls(s, b, from, spent, amount, owner, spender);
      MoveMoves(DeductAllowance(s, b, from, spent, amount).value, b.time, from, to, amount, from);
    case OpBurnFrom(spent, from, amount) =>
      AllowanceFalls(s, b, from, spent, amount, owner, spender);
      DestroyMoves(DeductAllowance(s, b, from, spent, amount).value, b.time, from, amount, from);
    case _ =>
  }

  // ----- locks

  /** The account receives tokens under a schedule that is not over yet. */
  predicate ReceivesLocked(op: Op, a: Addr, now: nat) {
    op.OpTransferVesting? && op.to == a && Valid(op.schedule) && Value(op.schedule, now) != 0
  }

  /** The lock after the call: the new schedule, alone or combined with the old one, or the old lock as it was. */
  ghost function LockAfter(s: State, op: Op, a: Addr, now: nat, t: nat): nat
    requires s.Readable()
  {
    if ReceivesLocked(op, a, now)
    then (if a in s.vesting then Value(Combine(s.vesting[a], op.schedule), t) else Value(op.schedule, t))
    else s.Locked(a, t)
  }

  /** Paying out forgets a lock that is spent, and a spent lock stays spent. */
  lemma DeductKeepsLocks(s: State, now: nat, from: Addr, amount: nat, a: Addr, t: nat)
    requires s.Readable() && DeductCoins(s, now, from, amount).Ok? && now <= t
    requires forall x :: x in s.vesting ==> Decreasing(s.vesting[x])
    ensures DeductCoins(s, now, from, amount).value.Locked(a, t) == s.Locked(a, t)
  {
    if a == from && s.Locked(a, now) == 0 {
      LockedFalls(s, a, now, t);
    }
  }

  lemma MoveKeepsLocks(s: State, now: nat, from: Addr, to: Addr, amount: nat, a: Addr, t: nat)
    requires s.Readable() && Move(s, now, from, to, amount).Ok? && now <= t
    requires forall x :: x in s.vesting ==> Decreasing(s.vesting[x])
    ensures Move(s, now, from, to, amount).value.Locked(a, t) == s.Locked(a, t)
  {
    DeductKeepsLocks(s, now, from, amount, a, t);
  }

  lemma DestroyKeepsLocks(s: State, now: nat, from: Addr, amount: nat, a: Addr, t: nat)
    requires s.Readable() && Destroy(s, now, from, amount).Ok? && now <= t
    requires forall x :: x in s.vesting ==> Decreasing(s.vesting[x])
    ensures Destroy(s, now, from, amount).value.Locked(a, t) == s.Locked(a, t)
  {
    DeductKeepsLocks(s, now, from, amount, a, t);
  }

  lemma TransferVestingLocks(s: State, now: nat, op: Op, a: Addr, t: nat)
    requires Sound(s, now) && op.OpTransferVesting? && now <= t
    requires TransferVesting(s, now, op.from, op.to, op.amount, op.schedule).Ok?
    ensures TransferVesting(s, now, op.from, op.to, op.amount, op.schedule).value.Locked(a, t) == LockAfter(s, op, a, now, t)
  {
    var live := Value(op.schedule, now) != 0;
    var s0 := if live then AddSchedule(s, op.to, op.schedule).value else s;
    if live {
      MergedLock(s, op.to, op.schedule, op.amount, now);
    }
    MoveKeepsLocks(s0, now, op.from, op.to, op.amount, a, t);
  }

  /** A call leaves every lock, now and at every later time, exactly as it was, but for the schedule it brings. */
  lemma CallMovesLocks(s: State, b: Block, op: Op, a: Addr, t: nat)
    requires Sound(s, b.time) && Apply(s, b, op).Ok? && b.time <= t
    ensures Apply(s, b, op).value.Locked(a, t) == LockAfter(s, op, a, b.time, t)
  {
    var now := b.time;
    match op
    case OpTransfer(from, to, amount) => MoveKeepsLocks(s, now, from, to, amount, a, t);
    case OpTransferVesting(_, _, _, _) => TransferVestingLocks(s, now, op, a, t);
    case OpBurn(from, amount) => DestroyKeepsLocks(s, now, from, amount, a, t);
    case OpDelegate(from, amount) => DelegateDelegates(s, from, amount, a);
    case OpUndelegate(from, to, amount) =>
      MoveKeepsLocks(s.(delegated := s.delegated[to := s.delegated[to] - amount]), now, from, to, amount, a, t);
    case OpTransferFrom(spender, from, to, amount) =>
      MoveKeepsLocks(DeductAllowance(s, b, from, spender, amount).value, now, from, to, amount, a, t);
    case OpBurnFrom(spender, from, amount) =>
      DestroyKeepsLocks(DeductAllowance(s, b, from, spender, amount).value, now, from, amount, a, t);
    case _ =>
  }

  lemma DeductLeavesLock(s: State, now: nat, from: Addr, amount: nat)
    requires s.Readable() && DeductCoins(s, now, from, amount).Ok?
    ensures s.Locked(from, now) + amount <= s.Funds(from)
  {
  }

  /** Nobody can pay from locked tokens: a payment leaves at least the lock, held or delegated. */
  lemma PayersKeepTheirLock(s: State, b: Block, op: Op, a: Addr)
    requires s.Readable() && Apply(s, b, op).Ok? && Payer(op) == Some(a) && (op.OpUndelegate? ==> op.to != a)
    requires !ReceivesLocked(op, a, b.time)
    ensures s.Locked(a, b.time) + Paid(op, a) <= s.Funds(a)
  {
    match op
    case OpTransfer(from, _, amount) => DeductLeavesLock(s, b.time, from, amount);
    case OpTransferVesting(from, to, amount, schedule) =>
      DeductLeavesLock(if Value(schedule, b.time) == 0 then s else AddSchedule(s, to, schedule).value, b.time, from, amount);
    case OpBurn(from, amount) => DeductLeavesLock(s, b.time, from, amount);
    case OpUndelegate(from, to, amount) =>
      DeductLeavesLock(s.(delegated := s.delegated[to := s.delegated[to] - amount]), b.time, from, amount);
    case OpTransferFrom(spender, from, _, amount) =>
      DeductLeavesLock(DeductAllowance(s, b, from, spender, amount).value, b.time, from, amount);
    case OpBurnFrom(spender, from, amount) =>
      DeductLeavesLock(DeductAllowance(s, b, from, spender, amount).value, b.time, from, amount);
  }

  /** What arrives under a fresh schedule stays locked: a payment that leaves less than the lock is refused. */
  lemma ReceivedStaysLocked(s: State, b: Block, op: Op, later: Block, pay: Op)
    requires Sound(s, b.time) && op.OpTransferVesting? && Apply(s, b, op).Ok?
    requires op.from != op.to && op.to !in s.vesting && Value(op.schedule, b.time) != 0
    requires b.time <= later.time && Payer(pay) == Some(op.to) && (pay.OpUndelegate? ==> pay.to != op.to) && !ReceivesLocked(pay, op.to, later.time)
    requires s.Funds(op.to) + op.amount < Value(op.schedule, later.time) + Paid(pay, op.to)
    ensures Apply(Apply(s, b, op).value, later, pay).Err?
  {
    var s1 := Apply(s, b, op).value;
    CallMovesLocks(s, b, op, op.to, later.time);
    CallMovesTokens(s, b, op, op.to);
    if Apply(s1, later, pay).Ok? {
      PayersKeepTheirLock(s1, later, pay, op.to);
    }
  }

  // ----- instantiation

  /** The row's tokens are there, and locked as its schedule says unless that is over. */
  ghost predicate RowCreated(s: State, now: nat, row: Account) {
    && Get(s.balances, row.address) == row.amount
    && (if row.schedule.Some? && Valid(row.schedule.value) && Value(row.schedule.value, now) != 0
        then row.address in s.vesting && s.vesting[row.address] == row.schedule.value
        else row.address !in s.vesting)
  }

  lemma {:induction false} RowsCreated(empty: State, now: nat, accounts: seq<Account>)
    requires empty.balances == map[] && empty.vesting == map[] && empty.delegated == map[]
    requires DistinctAddresses(accounts) && CreateAccounts(empty, now, accounts).Ok?
    ensures var s := CreateAccounts(empty, now, accounts).value;
            && (forall i :: 0 <= i < |accounts| ==> RowCreated(s, now, accounts[i]))
            && (forall a :: (forall i :: 0 <= i < |accounts| ==> accounts[i].address != a) ==> a !in s.balances && a !in s.vesting)
            && s.delegated == map[]
  {
    if accounts != [] {
      var before, row := accounts[..|accounts| - 1], accounts[|accounts| - 1];
      RowsCreated(empty, now, before);
      var s0, s := CreateAccounts(empty, now, before).value, CreateAccounts(empty, now, accounts).value;
      assert forall i :: 0 <= i < |before| ==> before[i] == accounts[i] && before[i].address != row.address;
      forall i | 0 <= i < |accounts| ensures RowCreated(s, now, accounts[i]) {
        if i < |before| {
          assert RowCreated(s0, now, before[i]);
        }
      }
      forall a | forall i :: 0 <= i < |accounts| ==> accounts[i].address != a ensures a !in s.balances && a !in s.vesting {
        assert accounts[|before|].address != a;
      }
    }
  }

  /** Instantiation gives every listed account its amount and its lock, and nobody else anything. */
  lemma InstantiateOutcome(s: State, now: nat, accounts: seq<Account>, mint: Option<Minter>, allowlist: set<Addr>, max: nat)
    requires Started(s, now, accounts, mint, allowlist, max)
    ensures forall i :: 0 <= i < |accounts| ==> RowCreated(s, now, accounts[i])
    ensures forall a :: (forall i :: 0 <= i < |accounts| ==> accounts[i].address != a) ==> s.Funds(a) == 0 && a !in s.vesting
    ensures s.mint == mint && s.allowlist == allowlist && s.staking == None && s.allowances == map[]
  {
    RowsCreated(State(map[], map[], map[], map[], 0, None, None, allowlist, max), now, accounts);
    var s0 := CreateAccounts(State(map[], map[], map[], map[], 0, None, None, allowlist, max), now, accounts).value;
    forall i | 0 <= i < |accounts| ensures RowCreated(s, now, accounts[i]) {
      assert RowCreated(s0, now, accounts[i]);
    }
    AccountsLeave(State(map[], map[], map[], map[], 0, None, None, allowlist, max), now, accounts);
  }

  lemma {:induction false} AccountsLeave(empty: State, now: nat, accounts: seq<Account>)
    requires CreateAccounts(empty, now, accounts).Ok?
    ensures var s := CreateAccounts(empty, now, accounts).value;
            s == empty.(balances := s.balances, vesting := s.vesting, supply := s.supply)
  {
    if accounts != [] {
      AccountsLeave(empty, now, accounts[..|accounts| - 1]);
    }
  }
}
