/**
 * The cw20-vesting token: balances, vesting locks, delegation, allowances, supply and its cap.
 * The functions give the storage each operation leaves; the class in VestingToken runs them.
 */
module Vesting {
  import opened Prelude
  import opened Curves
  import opened CurveLaws

  datatype Block = Block(height: nat, time: nat)

  datatype Expiration = AtHeight(height: nat) | AtTime(time: nat) | Never {
    predicate IsExpired(b: Block) {
      match this
      case AtHeight(h) => b.height >= h
      case AtTime(t) => b.time >= t
      case Never => false
    }
  }

  datatype Allowance = Allowance(amount: nat, expires: Expiration)

  datatype Minter = Minter(minter: Addr, cap: Option<Curve>)

  datatype State = State(
    balances: map<Addr, nat>, delegated: map<Addr, nat>, vesting: map<Addr, Curve>,
    allowances: map<(Addr, Addr), Allowance>, supply: nat, mint: Option<Minter>,
    staking: Option<Addr>, allowlist: set<Addr>, maxComplexity: nat)
  {
    /** Every stored curve can be evaluated. */
    ghost predicate Readable() {
      && (forall a :: a in vesting ==> Valid(vesting[a]))
      && (mint.Some? && mint.value.cap.Some? ==> Valid(mint.value.cap.value))
    }

    function Locked(a: Addr, time: nat): nat
      requires a in vesting ==> Valid(vesting[a])
    {
      if a in vesting then Value(vesting[a], time) else 0
    }

    /** The account's own tokens: held or delegated. */
    function Funds(a: Addr): nat {
      Get(balances, a) + Get(delegated, a)
    }
  }

  /** `deduct_coins`: every outgoing payment passes here; a spent lock is forgotten. */
  function DeductCoins(s: State, now: nat, sender: Addr, amount: nat): Result<State>
    requires s.Readable()
  {
    var locked := s.Locked(sender, now);
    var vesting := if locked == 0 then s.vesting - {sender} else s.vesting;
    var total :- AddU128(Get(s.balances, sender), Get(s.delegated, sender));
    var remainder :- SubU128(total, amount);
    if locked > remainder then Err
    else
      var balance :- SubU128(Get(s.balances, sender), amount);
      Ok(s.(vesting := vesting, balances := s.balances[sender := balance]))
  }

  function Credit(s: State, a: Addr, amount: nat): Result<State> {
    var balance :- AddU128(Get(s.balances, a), amount);
    Ok(s.(balances := s.balances[a := balance]))
  }

  function Move(s: State, now: nat, from: Addr, to: Addr, amount: nat): Result<State>
    requires s.Readable()
  {
    var s1 :- DeductCoins(s, now, from, amount);
    Credit(s1, to, amount)
  }

  function Destroy(s: State, now: nat, from: Addr, amount: nat): Result<State>
    requires s.Readable()
  {
    var s1 :- DeductCoins(s, now, from, amount);
    var supply :- SubU128(s1.supply, amount);
    Ok(s1.(supply := supply))
  }

  /** `Curve::size` against the limit */
  predicate TooComplex(c: Curve, max: nat) {
    max < match c
      case Constant(_) => 1
      case SaturatingLinear(_, _) => 2
      case PiecewiseLinear(steps) => |steps|
  }

  /** `assert_schedule_vests_amount`: falls to zero and never exceeds what is sent. */
  predicate SchedulesAmount(c: Curve, amount: nat) {
    Accepted(c) && Decreasing(c) && Range(c).0 == 0 && Range(c).1 <= amount
  }

  function AddSchedule(s: State, a: Addr, c: Curve): Result<State>
    requires s.Readable() && Valid(c)
  {
    var sum := if a in s.vesting then Combine(s.vesting[a], c) else c;
    if TooComplex(sum, s.maxComplexity) then Err
    else Ok(s.(vesting := s.vesting[a := sum]))
  }

  function TransferVesting(s: State, now: nat, from: Addr, to: Addr, amount: nat, schedule: Curve): Result<State>
    requires s.Readable()
  {
    if from !in s.allowlist || amount == 0 || !SchedulesAmount(schedule, amount) then Err
    else
      var s1 :- if Value(schedule, now) == 0 then Ok(s) else AddSchedule(s, to, schedule);
      Move(s1, now, from, to, amount)
  }

  function Mint(s: State, now: nat, from: Addr, to: Addr, amount: nat): Result<State>
    requires s.Readable()
  {
    if amount == 0 || s.mint.None? || s.mint.value.minter != from then Err
    else
      var supply :- AddU128(s.supply, amount);
      if s.mint.value.cap.Some? && supply > Value(s.mint.value.cap.value, now) then Err
      else Credit(s.(supply := supply), to, amount)
  }

  function Delegate(s: State, from: Addr, amount: nat): Result<State> {
    if amount == 0 || s.staking.None? then Err
    else
      var own :- SubU128(Get(s.balances, from), amount);
      var s1 := s.(balances := s.balances[from := own]);
      var s2 :- Credit(s1, s.staking.value, amount);
      var delegated :- AddU128(Get(s.delegated, from), amount);
      Ok(s2.(delegated := s.delegated[from := delegated]))
  }

  function Undelegate(s: State, now: nat, from: Addr, to: Addr, amount: nat): Result<State>
    requires s.Readable()
  {
    if amount == 0 || s.staking != Some(from) || to !in s.delegated then Err
    else
      var delegated :- SubU128(s.delegated[to], amount);
      Move(s.(delegated := s.delegated[to := delegated]), now, from, to, amount)
  }

  function DeductAllowance(s: State, b: Block, owner: Addr, spender: Addr, amount: nat): Result<State> {
    if (owner, spender) !in s.allowances then Err
    else
      var a := s.allowances[(owner, spender)];
      if a.expires.IsExpired(b) then Err
      else
        var left :- SubU128(a.amount, amount);
        Ok(s.(allowances := s.allowances[(owner, spender) := a.(amount := left)]))
  }

  function IncreaseAllowance(s: State, owner: Addr, spender: Addr, amount: nat, expires: Option<Expiration>): Result<State> {
    if owner == spender then Err
    else
      var a := if (owner, spender) in s.allowances then s.allowances[(owner, spender)] else Allowance(0, Never);
      var sum :- AddU128(a.amount, amount);
      Ok(s.(allowances := s.allowances[(owner, spender) :=
        Allowance(sum, if expires.Some? then expires.value else a.expires)]))
  }

  function UpdateMinter(s: State, from: Addr, minter: Addr): Result<State> {
    if s.mint.None? || s.mint.value.minter != from then Err
    else Ok(s.(mint := Some(s.mint.value.(minter := minter))))
  }

  /** Set once, by the minter. */
  function UpdateStaking(s: State, from: Addr, staking: Addr): Result<State> {
    if s.staking.Some? || s.mint.None? || s.mint.value.minter != from then Err
    else Ok(s.(staking := Some(staking)))
  }

  datatype Op =
    | OpTransfer(from: Addr, to: Addr, amount: nat)            // also Send, once its hook is queued
    | OpTransferVesting(from: Addr, to: Addr, amount: nat, schedule: Curve)
    | OpBurn(from: Addr, amount: nat)
    | OpMint(from: Addr, to: Addr, amount: nat)
    | OpUpdateMinter(from: Addr, minter: Addr)
    | OpUpdateStaking(from: Addr, staking: Addr)
    | OpDelegate(from: Addr, amount: nat)
    | OpUndelegate(from: Addr, to: Addr, amount: nat)
    | OpIncreaseAllowance(from: Addr, spender: Addr, amount: nat, expires: Option<Expiration>)
    | OpTransferFrom(spender: Addr, from: Addr, to: Addr, amount: nat)  // also SendFrom
    | OpBurnFrom(spender: Addr, from: Addr, amount: nat)

  function Apply(s: State, b: Block, op: Op): (r: Result<State>)
    requires s.Readable()
    ensures r.Ok? ==> r.value.Readable()
  {
    match op
    case OpTransfer(from, to, amount) => if amount == 0 then Err else Move(s, b.time, from, to, amount)
    case OpTransferVesting(from, to, amount, schedule) => TransferVesting(s, b.time, from, to, amount, schedule)
    case OpBurn(from, amount) => if amount == 0 then Err else Destroy(s, b.time, from, amount)
    case OpMint(from, to, amount) => Mint(s, b.time, from, to, amount)
    case OpUpdateMinter(from, minter) => UpdateMinter(s, from, minter)
    case OpUpdateStaking(from, staking) => UpdateStaking(s, from, staking)
    case OpDelegate(from, amount) => Delegate(s, from, amount)
    case OpUndelegate(from, to, amount) => Undelegate(s, b.time, from, to, amount)
    case OpIncreaseAllowance(from, spender, amount, expires) => IncreaseAllowance(s, from, spender, amount, expires)
    case OpTransferFrom(spender, from, to, amount) =>
      var s1 :- DeductAllowance(s, b, from, spender, amount);
      Move(s1, b.time, from, to, amount)
    case OpBurnFrom(spender, from, amount) =>
      var s1 :- DeductAllowance(s, b, from, spender, amount);
      Destroy(s1, b.time, from, amount)
  }

  // ----- instantiation

  datatype Account = Account(address: Addr, amount: nat, schedule: Option<Curve>)

  predicate DistinctAddresses(accounts: seq<Account>) {
    forall i, j :: 0 <= i < j < |accounts| ==> accounts[i].address != accounts[j].address
  }

  /** One row of `create_accounts` */
  function CreateAccount(s: State, now: nat, row: Account): Result<State> {
    if row.schedule.Some? && !SchedulesAmount(row.schedule.value, row.amount) then Err
    else
      var live := row.schedule.Some? && Value(row.schedule.value, now) != 0;
      if live && TooComplex(row.schedule.value, s.maxComplexity) then Err
      else
        var supply :- AddU128(s.supply, row.amount);
        Ok(s.(vesting := if live then s.vesting[row.address := row.schedule.value] else s.vesting,
              balances := s.balances[row.address := row.amount],
              supply := supply))
  }

  function CreateAccounts(s: State, now: nat, accounts: seq<Account>): Result<State> {
    if accounts == [] then Ok(s)
    else
      var s1 :- CreateAccounts(s, now, accounts[..|accounts| - 1]);
      CreateAccount(s1, now, accounts[|accounts| - 1])
  }

  function Instantiate(now: nat, accounts: seq<Account>, mint: Option<Minter>, allowlist: set<Addr>, maxComplexity: nat): Result<State> {
    var cap := if mint.Some? then mint.value.cap else None;
    if cap.Some? && !(Accepted(cap.value) && Growing(cap.value)) then Err
    else if !DistinctAddresses(accounts) then Err
    else
      var empty := State(map[], map[], map[], map[], 0, None, None, allowlist, maxComplexity);
      var s :- CreateAccounts(empty, now, accounts);
      if cap.Some? && s.supply > Value(cap.value, now) then Err
      else Ok(s.(mint := mint))
  }
}
