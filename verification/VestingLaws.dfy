/** What every run of the vesting token keeps: conservation, the cap, and the vesting locks. */
module VestingLaws {
  import opened Prelude
  import opened MapSums
  import opened Curves
  import opened CurveLaws
  import opened CurveSums
  import opened Vesting

  // ----- one step

  /** Curves only fall, the cap only grows, balances add up to the supply, the supply obeys the cap. */
  ghost predicate Sound(s: State, now: nat) {
    && (forall a :: a in s.vesting ==> Decreasing(s.vesting[a]))
    && Total(s.balances) == s.supply < U128
    && UnderCap(s, now)
  }

  ghost predicate UnderCap(s: State, now: nat) {
    s.mint.Some? && s.mint.value.cap.Some? ==>
      Growing(s.mint.value.cap.value) && s.supply <= Value(s.mint.value.cap.value, now)
  }

  /** The lock on `a` exceeds its funds by at most `k`, now and at every later time. */
  ghost predicate LockedWithin(s: State, now: nat, a: Addr, k: nat)
    requires s.Readable()
  {
    forall t :: now <= t ==> s.Locked(a, t) <= s.Funds(a) + k
  }

  lemma LockedFalls(s: State, a: Addr, t: nat, t': nat)
    requires a in s.vesting ==> Decreasing(s.vesting[a])
    requires t <= t'
    ensures s.Locked(a, t') <= s.Locked(a, t)
  {
    if a in s.vesting {
      ValueFalls(s.vesting[a], t, t');
    }
  }

  /** On a falling lock the present settles the future. */
  lemma LockedNow(s: State, now: nat, a: Addr, k: nat)
    requires s.Readable() && (a in s.vesting ==> Decreasing(s.vesting[a]))
    requires s.Locked(a, now) <= s.Funds(a) + k
    ensures LockedWithin(s, now, a, k)
  {
    forall t | now <= t ensures s.Locked(a, t) <= s.Funds(a) + k {
      LockedFalls(s, a, now, t);
    }
  }

  lemma DeductKeeps(s: State, now: nat, from: Addr, amount: nat)
    requires s.Readable() && DeductCoins(s, now, from, amount).Ok?
    requires forall a :: a in s.vesting ==> Decreasing(s.vesting[a])
    ensures var s1 := DeductCoins(s, now, from, amount).value;
            && s1.Readable()
            && (forall a :: a in s1.vesting ==> a in s.vesting && s1.vesting[a] == s.vesting[a])
            && Total(s1.balances) == Total(s.balances) - amount
            && LockedWithin(s1, now, from, 0)
            && (forall a: Addr, t: nat :: a != from ==> s1.Locked(a, t) == s.Locked(a, t))
            && (forall a: Addr :: a != from ==> s1.Funds(a) == s.Funds(a))
  {
    var s1 := DeductCoins(s, now, from, amount).value;
    TotalUpdate(s.balances, from, Get(s.balances, from) - amount);
    LockedNow(s1, now, from, 0);
    assert forall a :: a in s1.vesting ==> a in s.vesting && s1.vesting[a] == s.vesting[a];
    OthersUntouched(s, s1, from);
  }

  lemma OthersUntouched(s: State, s1: State, from: Addr)
    requires s.Readable() && s1.Readable()
    requires s1.vesting == s.vesting || s1.vesting == s.vesting - {from}
    requires s1.delegated == s.delegated && from in s1.balances && s1.balances == s.balances[from := s1.balances[from]]
    ensures forall a: Addr, t: nat :: a != from ==> s1.Locked(a, t) == s.Locked(a, t)
    ensures forall a: Addr :: a != from ==> s1.Funds(a) == s.Funds(a)
  {
  }

  lemma CreditKeeps(s: State, a: Addr, amount: nat)
    requires s.Readable() && Credit(s, a, amount).Ok?
    ensures var s1 := Credit(s, a, amount).value;
            && s1.Readable()
            && Total(s1.balances) == Total(s.balances) + amount
            && (forall x: Addr, t: nat :: s1.Locked(x, t) == s.Locked(x, t))
            && (forall x: Addr :: s1.Funds(x) == s.Funds(x) + if x == a then amount else 0)
  {
    TotalUpdate(s.balances, a, Get(s.balances, a) + amount);
  }

  lemma MoveKeeps(s: State, now: nat, from: Addr, to: Addr, amount: nat)
    requires s.Readable() && Move(s, now, from, to, amount).Ok?
    requires forall a :: a in s.vesting ==> Decreasing(s.vesting[a])
    ensures var s1 := Move(s, now, from, to, amount).value;
            && s1 == s.(balances := s1.balances, vesting := s1.vesting)
            && (forall a :: a in s1.vesting ==> a in s.vesting && s1.vesting[a] == s.vesting[a])
            && Total(s1.balances) == Total(s.balances)
            && LockedWithin(s1, now, from, 0)
            && (forall a: Addr, t: nat :: a != from ==> s1.Locked(a, t) == s.Locked(a, t))
            && (forall a: Addr :: a != from ==> s1.Funds(a) == s.Funds(a) + if a == to then amount else 0)
  {
    DeductKeeps(s, now, from, amount);
    CreditKeeps(DeductCoins(s, now, from, amount).value, to, amount);
  }

  /** Merging a schedule that vests no more than `amount` raises the lock by at most `amount` + 1. */
  lemma MergedLock(s: State, a: Addr, c: Curve, amount: nat, t: nat)
    requires s.Readable() && SchedulesAmount(c, amount) && AddSchedule(s, a, c).Ok?
    requires a in s.vesting ==> Decreasing(s.vesting[a])
    ensures var s1 := AddSchedule(s, a, c).value;
            && s1.Readable() && Decreasing(s1.vesting[a])
            && s1.Locked(a, t) <= s.Locked(a, t) + amount + (if a in s.vesting then 1 else 0)
  {
    WithinRange(c, t);
    if a in s.vesting {
      CombineIsSumWithinOne(s.vesting[a], c, t);
    }
  }

  /** The account whose funds an operation takes through `deduct_coins`. */
  function Payer(op: Op): Option<Addr> {
    match op
    case OpTransfer(from, _, _) => Some(from)
    case OpTransferVesting(from, _, _, _) => Some(from)
    case OpBurn(from, _) => Some(from)
    case OpUndelegate(from, _, _) => Some(from)
    case OpTransferFrom(_, from, _, _) => Some(from)
    case OpBurnFrom(_, from, _) => Some(from)
    case _ => None
  }

  /** A live schedule is added on top of one the recipient already has. */
  predicate Merges(s: State, now: nat, op: Op, a: Addr) {
    op.OpTransferVesting? && op.to == a && a in s.vesting && Valid(op.schedule) && Value(op.schedule, now) != 0
  }

  /** Paying out proves the lock covered again; each merge may cost one unit. */
  function NextExcess(s: State, now: nat, op: Op, a: Addr, k: nat): nat {
    if Payer(op) == Some(a) then 0
    else if Merges(s, now, op, a) then k + 1
    else k
  }

  /** The schedule is added first: it changes one lock and nothing else. */
  lemma ScheduleAdded(s: State, now: nat, op: Op, a: Addr, k: nat) returns (s1: State)
    requires Sound(s, now) && op.OpTransferVesting? && LockedWithin(s, now, a, k)
    requires TransferVesting(s, now, op.from, op.to, op.amount, op.schedule).Ok?
    ensures Sound(s1, now) && s1 == s.(vesting := s1.vesting)
    ensures Move(s1, now, op.from, op.to, op.amount) == TransferVesting(s, now, op.from, op.to, op.amount, op.schedule)
    ensures s1.Locked(a, now) <= s.Funds(a) + k + (if a == op.to then op.amount else 0) + (if Merges(s, now, op, a) then 1 else 0)
  {
    var live := Value(op.schedule, now) != 0;
    s1 := if live then AddSchedule(s, op.to, op.schedule).value else s;
    if live {
      MergedLock(s, op.to, op.schedule, op.amount, now);
    }
    assert s.Locked(a, now) <= s.Funds(a) + k;
  }

  lemma TransferVestingKeeps(s: State, now: nat, op: Op, a: Addr, k: nat)
    requires Sound(s, now) && op.OpTransferVesting?
    requires TransferVesting(s, now, op.from, op.to, op.amount, op.schedule).Ok?
    requires LockedWithin(s, now, a, k)
    ensures var s1 := TransferVesting(s, now, op.from, op.to, op.amount, op.schedule).value;
            Sound(s1, now) && LockedWithin(s1, now, a, NextExcess(s, now, op, a, k))
  {
    var s1 := ScheduleAdded(s, now, op, a, k);
    MoveKeeps(s1, now, op.from, op.to, op.amount);
    if a != op.from {
      LockedNow(Move(s1, now, op.from, op.to, op.amount).value, now, a, NextExcess(s, now, op, a, k));
    }
  }

  lemma DelegateMoves(s: State, from: Addr, amount: nat)
    requires s.Readable() && Delegate(s, from, amount).Ok?
    ensures var s1 := Delegate(s, from, amount).value;
            && s1 == s.(balances := s1.balances, delegated := s1.delegated)
            && Total(s1.balances) == Total(s.balances)
            && forall a: Addr :: s.Funds(a) <= s1.Funds(a)
  {
    var own := Get(s.balances, from) - amount;
    var s1 := s.(balances := s.balances[from := own]);
    TotalUpdate(s.balances, from, own);
    CreditKeeps(s1, s.staking.value, amount);
  }

  lemma DelegateKeeps(s: State, now: nat, from: Addr, amount: nat, a: Addr, k: nat)
    requires Sound(s, now) && Delegate(s, from, amount).Ok? && LockedWithin(s, now, a, k)
    ensures var s1 := Delegate(s, from, amount).value; Sound(s1, now) && LockedWithin(s1, now, a, k)
  {
    DelegateMoves(s, from, amount);
    var s1 := Delegate(s, from, amount).value;
    forall t | now <= t ensures s1.Locked(a, t) <= s1.Funds(a) + k {
      assert s1.Locked(a, t) == s.Locked(a, t) <= s.Funds(a) + k;
    }
  }

  lemma DestroyKeeps(s: State, now: nat, from: Addr, amount: nat, a: Addr, k: nat)
    requires Sound(s, now) && Destroy(s, now, from, amount).Ok? && LockedWithin(s, now, a, k)
    ensures var s1 := Destroy(s, now, from, amount).value;
            Sound(s1, now) && LockedWithin(s1, now, a, if a == from then 0 else k)
  {
    DeductKeeps(s, now, from, amount);
    var s1 := DeductCoins(s, now, from, amount).value;
    var s2 := Destroy(s, now, from, amount).value;
    forall t | now <= t ensures s2.Locked(a, t) <= s2.Funds(a) + if a == from then 0 else k {
      assert s2.Locked(a, t) == s1.Locked(a, t) && s2.Funds(a) == s1.Funds(a);
    }
  }

  lemma MoveOpKeeps(s: State, now: nat, from: Addr, to: Addr, amount: nat, a: Addr, k: nat)
    requires Sound(s, now) && Move(s, now, from, to, amount).Ok? && LockedWithin(s, now, a, k)
    ensures var s1 := Move(s, now, from, to, amount).value;
            Sound(s1, now) && LockedWithin(s1, now, a, if a == from then 0 else k)
  {
    MoveKeeps(s, now, from, to, amount);
  }

  lemma UndelegateKeeps(s: State, now: nat, from: Addr, to: Addr, amount: nat, a: Addr, k: nat)
    requires Sound(s, now) && Undelegate(s, now, from, to, amount).Ok? && LockedWithin(s, now, a, k)
    ensures var s1 := Undelegate(s, now, from, to, amount).value;
            Sound(s1, now) && LockedWithin(s1, now, a, if a == from then 0 else k)
  {
    var s1 := s.(delegated := s.delegated[to := s.delegated[to] - amount]);
    MoveKeeps(s1, now, from, to, amount);
    var s2 := Move(s1, now, from, to, amount).value;
    if a != from {
      forall t | now <= t ensures s2.Locked(a, t) <= s2.Funds(a) + k {
        assert s2.Locked(a, t) == s1.Locked(a, t) == s.Locked(a, t) <= s.Funds(a) + k;
      }
    }
  }

  lemma MintKeeps(s: State, now: nat, from: Addr, to: Addr, amount: nat, a: Addr, k: nat)
    requires Sound(s, now) && Mint(s, now, from, to, amount).Ok? && LockedWithin(s, now, a, k)
    ensures var s1 := Mint(s, now, from, to, amount).value; Sound(s1, now) && LockedWithin(s1, now, a, k)
  {
    var s1 := s.(supply := s.supply + amount);
    CreditKeeps(s1, to, amount);
    var s2 := Mint(s, now, from, to, amount).value;
    forall t | now <= t ensures s2.Locked(a, t) <= s2.Funds(a) + k {
      assert s2.Locked(a, t) == s1.Locked(a, t) == s.Locked(a, t) <= s.Funds(a) + k;
    }
  }

  /** Bookkeeping outside balances, locks and supply changes nothing for either law. */
  lemma SameLocks(s: State, s1: State, now: nat, a: Addr, k: nat)
    requires Sound(s, now) && LockedWithin(s, now, a, k) && UnderCap(s1, now)
    requires s1 == s.(allowances := s1.allowances, mint := s1.mint, staking := s1.staking)
    ensures Sound(s1, now) && LockedWithin(s1, now, a, k)
  {
    forall t | now <= t ensures s1.Locked(a, t) <= s1.Funds(a) + k {
      assert s1.Locked(a, t) == s.Locked(a, t) <= s.Funds(a) + k;
    }
  }

  lemma AllowanceKeeps(s: State, b: Block, owner: Addr, spender: Addr, amount: nat, a: Addr, k: nat)
    requires Sound(s, b.time) && DeductAllowance(s, b, owner, spender, amount).Ok? && LockedWithin(s, b.time, a, k)
    ensures var s1 := DeductAllowance(s, b, owner, spender, amount).value; Sound(s1, b.time) && LockedWithin(s1, b.time, a, k)
  {
    SameLocks(s, DeductAllowance(s, b, owner, spender, amount).value, b.time, a, k);
  }

  /** Every operation keeps the books sound and every account's lock within its allowed excess. */
  lemma StepKeeps(s: State, b: Block, op: Op, a: Addr, k: nat)
    requires Sound(s, b.time) && Apply(s, b, op).Ok? && LockedWithin(s, b.time, a, k)
    ensures var s1 := Apply(s, b, op).value;
            Sound(s1, b.time) && LockedWithin(s1, b.time, a, NextExcess(s, b.time, op, a, k))
  {
    var now := b.time;
    match op
    case OpTransfer(from, to, amount) => MoveOpKeeps(s, now, from, to, amount, a, k);
    case OpTransferVesting(_, _, _, _) => TransferVestingKeeps(s, now, op, a, k);
    case OpBurn(from, amount) => DestroyKeeps(s, now, from, amount, a, k);
    case OpMint(from, to, amount) => MintKeeps(s, now, from, to, amount, a, k);
    case OpUpdateMinter(_, _) => SameLocks(s, Apply(s, b, op).value, now, a, k);
    case OpUpdateStaking(_, _) => SameLocks(s, Apply(s, b, op).value, now, a, k);
    case OpDelegate(from, amount) => DelegateKeeps(s, now, from, amount, a, k);
    case OpUndelegate(from, to, amount) => UndelegateKeeps(s, now, from, to, amount, a, k);
    case OpIncreaseAllowance(_, _, _, _) => SameLocks(s, Apply(s, b, op).value, now, a, k);
    case OpTransferFrom(spender, from, to, amount) =>
      AllowanceKeeps(s, b, from, spender, amount, a, k);
      MoveOpKeeps(DeductAllowance(s, b, from, spender, amount).value, now, from, to, amount, a, k);
    case OpBurnFrom(spender, from, amount) =>
      AllowanceKeeps(s, b, from, spender, amount, a, k);
      DestroyKeeps(DeductAllowance(s, b, from, spender, amount).value, now, from, amount, a, k);
  }

  // ----- when the lock stays within the funds

  /**
   * The one way to break a lock: an account locked to its last token is sent tokens under a schedule
   * that has not begun to vest, and the two curves' combination rounds to one above their sum.
   */
  predicate Overshoots(s: State, now: nat, op: Op, a: Addr)
    requires a in s.vesting ==> Valid(s.vesting[a])
  {
    && Payer(op) != Some(a) && Merges(s, now, op, a)
    && s.Locked(a, now) == s.Funds(a)
    && Value(op.schedule, now) == op.amount
    && Value(Combine(s.vesting[a], op.schedule), now) == Value(s.vesting[a], now) + Value(op.schedule, now) + 1
  }

  lemma MergedState(s: State, now: nat, op: Op, a: Addr)
    requires Sound(s, now) && op.OpTransferVesting? && Merges(s, now, op, a) && op.from != a
    requires TransferVesting(s, now, op.from, op.to, op.amount, op.schedule).Ok?
    ensures var s1 := TransferVesting(s, now, op.from, op.to, op.amount, op.schedule).value;
            && s1.Readable()
            && s1.Locked(a, now) == Value(Combine(s.vesting[a], op.schedule), now)
            && s1.Funds(a) == s.Funds(a) + op.amount
  {
    var s0 := AddSchedule(s, op.to, op.schedule).value;
    MergedLock(s, op.to, op.schedule, op.amount, now);
    MoveKeeps(s0, now, op.from, op.to, op.amount);
  }

  /** One call keeps an account's lock within its funds, now and later, exactly when it does not overshoot. */
  lemma StepKeepsLockExactly(s: State, b: Block, op: Op, a: Addr)
    requires Sound(s, b.time) && Apply(s, b, op).Ok? && LockedWithin(s, b.time, a, 0)
    ensures LockedWithin(Apply(s, b, op).value, b.time, a, 0) <==> !Overshoots(s, b.time, op, a)
  {
    StepKeeps(s, b, op, a, 0);
    if Payer(op) != Some(a) && Merges(s, b.time, op, a) {
      var s1 := Apply(s, b, op).value;
      MergedState(s, b.time, op, a);
      MergedOvershoots(s, b.time, op, a);
      if s1.Locked(a, b.time) <= s1.Funds(a) {
        LockedNow(s1, b.time, a, 0);
      }
    }
  }

  lemma MergedOvershoots(s: State, now: nat, op: Op, a: Addr)
    requires Sound(s, now) && Merges(s, now, op, a) && Payer(op) != Some(a)
    requires SchedulesAmount(op.schedule, op.amount) && s.Locked(a, now) <= s.Funds(a)
    ensures Overshoots(s, now, op, a) <==> s.Funds(a) + op.amount < Value(Combine(s.vesting[a], op.schedule), now)
  {
    WithinRange(op.schedule, now);
    CombineIsSumWithinOne(s.vesting[a], op.schedule, now);
  }

  // ----- whole runs

  datatype Step = Step(block: Block, op: Op)

  ghost predicate Started(s: State, now: nat, accounts: seq<Account>, mint: Option<Minter>, allowlist: set<Addr>, max: nat) {
    Instantiate(now, accounts, mint, allowlist, max) == Ok(s)
  }

  lemma {:induction false} AccountsCreated(empty: State, now: nat, accounts: seq<Account>)
    requires empty.balances == map[] && empty.delegated == map[] && empty.vesting == map[] && empty.supply == 0
    requires DistinctAddresses(accounts) && CreateAccounts(empty, now, accounts).Ok?
    ensures var s := CreateAccounts(empty, now, accounts).value;
            && s == empty.(balances := s.balances, vesting := s.vesting, supply := s.supply)
            && (forall a :: a in s.vesting ==> Decreasing(s.vesting[a]))
            && Total(s.balances) == s.supply < U128
            && (forall a :: a in s.balances ==> exists i :: 0 <= i < |accounts| && accounts[i].address == a)
            && (forall a :: a in s.vesting ==> a in s.balances && s.Locked(a, now) <= Get(s.balances, a))
  {
    if accounts != [] {
      var before, row := accounts[..|accounts| - 1], accounts[|accounts| - 1];
      AccountsCreated(empty, now, before);
      var s := CreateAccounts(empty, now, before).value;
      var a := row.address;
      forall i | 0 <= i < |before| ensures before[i].address != a {
        assert accounts[i].address != accounts[|accounts| - 1].address;
      }
      assert a !in s.balances;
      TotalUpdate(s.balances, a, row.amount);
      if row.schedule.Some? {
        WithinRange(row.schedule.value, now);
      }
      var s1 := CreateAccounts(empty, now, accounts).value;
      forall x | x in s1.balances ensures exists i :: 0 <= i < |accounts| && accounts[i].address == x {
        if x != a {
          var i :| 0 <= i < |before| && before[i].address == x;
          assert accounts[i].address == x;
        } else {
          assert accounts[|accounts| - 1].address == x;
        }
      }
    }
  }

  /** Instantiation sets up sound books with every lock covered. */
  lemma InstantiateSound(s: State, now: nat, accounts: seq<Account>, mint: Option<Minter>, allowlist: set<Addr>, max: nat, a: Addr)
    requires Started(s, now, accounts, mint, allowlist, max)
    ensures Sound(s, now) && LockedWithin(s, now, a, 0)
  {
    var empty := State(map[], map[], map[], map[], 0, None, None, allowlist, max);
    AccountsCreated(empty, now, accounts);
    LockedNow(s, now, a, 0);
  }

  function Now(start: nat, steps: seq<Step>): nat {
    if steps == [] then start else steps[|steps| - 1].block.time
  }

  /** Block time never decreases along a run. */
  predicate Timely(start: nat, steps: seq<Step>) {
    steps == [] ||
      var before := steps[..|steps| - 1];
      Timely(start, before) && Now(start, before) <= Now(start, steps)
  }

  /** A failed call reverts and leaves the storage as it was. */
  function Run(s: State, steps: seq<Step>): (r: State)
    requires s.Readable()
    ensures r.Readable()
  {
    if steps == [] then s
    else
      var before := Run(s, steps[..|steps| - 1]);
      var last := steps[|steps| - 1];
      var r := Apply(before, last.block, last.op);
      if r.Ok? then r.value else before
  }

  /** Merges into the lock of `a` since `a` last paid out. */
  function Excess(s: State, steps: seq<Step>, a: Addr): nat
    requires s.Readable()
  {
    if steps == [] then 0
    else
      var before := steps[..|steps| - 1];
      var last := steps[|steps| - 1];
      var k := Excess(s, before, a);
      if Apply(Run(s, before), last.block, last.op).Ok?
      then NextExcess(Run(s, before), last.block.time, last.op, a, k)
      else k
  }

  lemma TimePasses(s: State, now: nat, later: nat, a: Addr, k: nat)
    requires Sound(s, now) && LockedWithin(s, now, a, k) && now <= later
    ensures Sound(s, later) && LockedWithin(s, later, a, k)
  {
    if s.mint.Some? && s.mint.value.cap.Some? {
      ValueRises(s.mint.value.cap.value, now, later);
    }
  }

  /**
   * In every run from instantiation: balances add up to the supply, the supply stays under the cap
   * of that moment, and no account's lock exceeds what it holds and has delegated by more than the
   * number of schedules merged onto it since it last paid out - now and at every later time.
   */
  lemma {:induction false} RunKeepsLocks(s: State, start: nat, steps: seq<Step>, a: Addr)
    requires Sound(s, start) && LockedWithin(s, start, a, 0) && Timely(start, steps)
    ensures var r := Run(s, steps);
            && Sound(r, Now(start, steps))
            && LockedWithin(r, Now(start, steps), a, Excess(s, steps, a))
  {
    if steps != [] {
      var before, last := steps[..|steps| - 1], steps[|steps| - 1];
      RunKeepsLocks(s, start, before, a);
      var k := Excess(s, before, a);
      TimePasses(Run(s, before), Now(start, before), last.block.time, a, k);
      if Apply(Run(s, before), last.block, last.op).Ok? {
        StepKeeps(Run(s, before), last.block, last.op, a, k);
      }
    }
  }

  /** After each call of the run the lock is within the funds, then and later. */
  ghost predicate AlwaysWithin(s: State, start: nat, steps: seq<Step>, a: Addr)
    requires s.Readable()
  {
    steps == [] ||
      (AlwaysWithin(s, start, steps[..|steps| - 1], a) && LockedWithin(Run(s, steps), Now(start, steps), a, 0))
  }

  /** No call of this run overshoots on the account. */
  ghost predicate NeverOvershoots(s: State, steps: seq<Step>, a: Addr)
    requires s.Readable()
  {
    steps == [] ||
      var before, last := Run(s, steps[..|steps| - 1]), steps[|steps| - 1];
      && NeverOvershoots(s, steps[..|steps| - 1], a)
      && (Apply(before, last.block, last.op).Ok? ==> !Overshoots(before, last.block.time, last.op, a))
  }

  /** Lock safety holds throughout a run exactly when no call in it overshoots. */
  lemma {:induction false} LockSafetyExactly(s: State, start: nat, steps: seq<Step>, a: Addr)
    requires Sound(s, start) && LockedWithin(s, start, a, 0) && Timely(start, steps)
    ensures AlwaysWithin(s, start, steps, a) <==> NeverOvershoots(s, steps, a)
    ensures AlwaysWithin(s, start, steps, a) ==> LockedWithin(Run(s, steps), Now(start, steps), a, 0)
  {
    if steps != [] {
      var before, last := steps[..|steps| - 1], steps[|steps| - 1];
      LockSafetyExactly(s, start, before, a);
      if AlwaysWithin(s, start, before, a) {
        RunKeepsLocks(s, start, before, a);
        TimePasses(Run(s, before), Now(start, before), last.block.time, a, 0);
        if Apply(Run(s, before), last.block, last.op).Ok? {
          StepKeepsLockExactly(Run(s, before), last.block, last.op, a);
        }
      }
    }
  }

  /** The two laws from instantiation on, in the words of the token's users. */
  lemma TokenLaws(s: State, start: nat, accounts: seq<Account>, mint: Option<Minter>, allowlist: set<Addr>, max: nat,
                  steps: seq<Step>, a: Addr, t: nat)
    requires Started(s, start, accounts, mint, allowlist, max) && Timely(start, steps)
    requires Now(start, steps) <= t
    ensures s.Readable()
    ensures var r := Run(s, steps);
            && Total(r.balances) == r.supply
            && (r.mint.Some? && r.mint.value.cap.Some? ==> r.supply <= Value(r.mint.value.cap.value, t))
            && r.Locked(a, t) <= r.Funds(a) + Excess(s, steps, a)
  {
    InstantiateSound(s, start, accounts, mint, allowlist, max, a);
    RunKeepsLocks(s, start, steps, a);
    TimePasses(Run(s, steps), Now(start, steps), t, a, Excess(s, steps, a));
  }

  // ----- the excess is real

  const FIRST := SaturatingLinear(Point(0, 2), Point(4, 0))
  const SECOND := SaturatingLinear(Point(3, 5), Point(4, 0))
  const ROWS := [Account(0, 5, None), Account(1, 2, Some(FIRST))]
  const EARLY := State(map[0 := 5, 1 := 2], map[], map[1 := FIRST], map[], 7, None, None, {0}, 10)
  const PAY := Step(Block(0, 2), OpTransfer(1, 2, 1))
  const LOCK := Step(Block(0, 2), OpTransferVesting(0, 1, 5, SECOND))

  lemma EarlyStarts()
    ensures Started(EARLY, 0, ROWS, None, {0}, 10)
  {
    var empty := State(map[], map[], map[], map[], 0, None, None, {0}, 10);
    assert ROWS[..1] == [Account(0, 5, None)] && ROWS[..1][..0] == [];
    var s0 := empty.(balances := map[0 := 5], supply := 5);
    assert CreateAccounts(empty, 0, ROWS[..1]) == Ok(s0);
    assert CreateAccount(s0, 0, ROWS[1]) == Ok(EARLY);
  }

  /** A second schedule can lock one token more than the account owns: 7 locked, 6 owned. */
  lemma LockCanExceedFunds()
    ensures Started(EARLY, 0, ROWS, None, {0}, 10) && EARLY.Readable()
    ensures var end := Run(EARLY, [PAY, LOCK]); end.Funds(1) == 6 && end.Locked(1, 2) == 7
  {
    EarlyStarts();
    SumCanExceed();
    var steps := [PAY, LOCK];
    assert steps[..1] == [PAY] && steps[..1][..0] == [];
    assert EARLY.Locked(1, 2) == 1;
    var less := EARLY.(balances := EARLY.balances[1 := 1]);
    assert DeductCoins(EARLY, 2, 1, 1) == Ok(less);
    var mid := less.(balances := less.balances[2 := 1]);
    assert Apply(EARLY, PAY.block, PAY.op) == Ok(mid);
    assert Run(EARLY, steps[..1]) == mid;
    var locked := mid.(vesting := mid.vesting[1 := Combine(FIRST, SECOND)]);
    assert AddSchedule(mid, 1, SECOND) == Ok(locked);
    assert SchedulesAmount(SECOND, 5);
    var paid := locked.(vesting := locked.vesting - {0}, balances := locked.balances[0 := 0]);
    assert DeductCoins(locked, 2, 0, 5) == Ok(paid);
    assert Apply(mid, LOCK.block, LOCK.op) == Ok(paid.(balances := paid.balances[1 := 6]));
  }
}
