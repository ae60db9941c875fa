/**
 * The bToken vault: a global `power` accumulator and a per-user `power_diff` pay staking rewards
 * without visiting the other stakers. The functions say what each storage operation and each
 * handler computes; the class below them is the contract, updating its storage step by step.
 */
module Vault {
  import opened Prelude
  import opened Decimals
  import opened Messages

  datatype Stake = Stake(stake: nat, powerDiff: nat)

  const NO_STAKE := Stake(0, 0)

  /** `REWARD_ACTION`: what to finish once the outstanding reward has been collected. */
  datatype Action =
    | NoAction
    | RewardTo(user: Addr)
    | StakeFor(user: Addr, amount: nat)
    | TreasuryWithdraw(share: Option<nat>)
    | SyneWithdraw(share: Option<nat>)
    | UnstakeFor(user: Addr, amount: nat)

  datatype Config = Config(
    treasuryFee: nat, syneFee: nat,
    treasuryWallet: Option<Addr>, treasuryWithdrawer: Option<Addr>, syneDistributor: Option<Addr>)
  {
    predicate Valid() {
      treasuryFee + syneFee <= ONE
    }
  }

  /** The configuration `instantiate` writes; nothing saves another one. */
  const INITIAL_CONFIG := Config(200_000_000_000_000_000, 0, None, None, None)

  datatype State = State(
    cfg: Config, staked: nat, treasury: nat, syne: nat, power: nat,
    stakes: map<Addr, Stake>, action: Action)
  {
    function StakeOf(a: Addr): Stake {
      if a in stakes then stakes[a] else NO_STAKE
    }
  }

  const INITIAL := State(INITIAL_CONFIG, 0, 0, 0, 0, map[], NoAction)

  // ----- the storage operations

  /** `from_atomics(reward, 0) * fee`, floored */
  function FeeOf(reward: nat, fee: nat): Result<nat> {
    var r :- FromInt(reward);
    var f :- Mul(r, fee);
    Ok(Floor(f))
  }

  function UpdateTotalRewards(s: State, reward: nat): Result<State> {
    var t :- FeeOf(reward, s.cfg.treasuryFee);
    var y :- FeeOf(reward, s.cfg.syneFee);
    var treasury :- AddU128(s.treasury, t);
    var syne :- AddU128(s.syne, y);
    var s1 := s.(treasury := treasury, syne := syne);
    if s.staked == 0 then Ok(s1)
    else
      var afterTreasury :- SubU128(reward, t);
      var net :- SubU128(afterTreasury, y);
      var n :- FromInt(net);
      var d :- FromInt(s.staked);
      var q :- Div(n, d);
      var power :- AddU128(s.power, q);
      Ok(s1.(power := power))
  }

  /** The pending reward of one staker; the multiplication falls back to zero. */
  function PendingReward(power: nat, e: Stake): Result<nat> {
    var gap := if e.powerDiff <= power then power - e.powerDiff else 0;
    var st :- FromInt(e.stake);
    Ok(match Mul(gap, st) case Ok(p) => Floor(p) case Err => 0)
  }

  /** `checked_add(..).unwrap_or_default()` */
  function AddOrZero(a: nat, b: nat): nat {
    if a + b < U128 then a + b else 0
  }

  /** `checked_sub(..).unwrap_or_default()` */
  function SubOrZero(a: nat, b: nat): nat {
    if b <= a then a - b else 0
  }

  datatype Op =
    | Distribute(reward: nat)
    | Settle(user: Addr)
    | Deposit(user: Addr, amount: nat)
    | Redeem(user: Addr, amount: nat)

  /** One storage operation: the new storage and the reward it releases to `user`. */
  function Apply(s: State, op: Op): Result<(State, nat)> {
    match op
    case Distribute(reward) =>
      var s1 :- UpdateTotalRewards(s, reward);
      Ok((s1, 0))
    case Settle(a) =>
      var paid :- PendingReward(s.power, s.StakeOf(a));
      Ok((s.(stakes := s.stakes[a := Stake(s.StakeOf(a).stake, s.power)]), paid))
    case Deposit(a, amount) =>
      var paid :- PendingReward(s.power, s.StakeOf(a));
      Ok((s.(stakes := s.stakes[a := Stake(AddOrZero(s.StakeOf(a).stake, amount), s.power)],
             staked := AddOrZero(s.staked, amount)), paid))
    case Redeem(a, amount) =>
      var paid :- PendingReward(s.power, s.StakeOf(a));
      Ok((s.(stakes := s.stakes[a := Stake(SubOrZero(s.StakeOf(a).stake, amount), s.power)],
             staked := SubOrZero(s.staked, amount)), paid))
  }

  // ----- the handlers

  /** What a handler leaves behind: storage, messages, and the storage operations it performed. */
  datatype Reply = Reply(state: State, msgs: seq<Msg>, ops: seq<Op>)

  function Pay(c: Contracts, user: Addr, amount: nat): seq<Msg> {
    if amount > 0 then [TokenTransfer(c.vault, user, amount)] else []
  }

  /** With a reward waiting, the action is parked and the converter is asked to collect. */
  function Park(s: State, c: Contracts, action: Action): Result<Reply> {
    if s.action == NoAction
    then Ok(Reply(s.(action := action), [ConverterWithdraw(c.vault)], []))
    else Err
  }

  function StakeNow(s: State, c: Contracts, user: Addr, amount: nat): Result<Reply> {
    var (s1, paid) :- Apply(s, Deposit(user, amount));
    Ok(Reply(s1, Pay(c, user, paid), [Deposit(user, amount)]))
  }

  function UnstakeNow(s: State, c: Contracts, user: Addr, amount: nat): Result<Reply> {
    var (s1, paid) :- Apply(s, Redeem(user, amount));
    Ok(Reply(s1, [TokenTransfer(c.vault, user, amount)] + Pay(c, user, paid), [Redeem(user, amount)]))
  }

  function SettleNow(s: State, c: Contracts, user: Addr): Result<Reply> {
    var (s1, paid) :- Apply(s, Settle(user));
    Ok(Reply(s1, Pay(c, user, paid), [Settle(user)]))
  }

  /** The fee withdrawals check the caller against the converter before touching storage. */
  function TakeTreasury(s: State, c: Contracts, from: Addr, share: Option<nat>): Result<(State, nat)> {
    if from != c.converter then Err
    else
      var amount := if share.Some? then share.value else s.treasury;
      var rest :- SubU128(s.treasury, amount);
      Ok((s.(treasury := rest), amount))
  }

  function TakeSyne(s: State, c: Contracts, from: Addr, share: Option<nat>): Result<(State, nat)> {
    if from != c.converter then Err
    else
      var amount := if share.Some? then share.value else s.syne;
      var rest :- SubU128(s.syne, amount);
      Ok((s.(syne := rest), amount))
  }

  /** The second half of `execute_distribute_rewards`: finish the pending action. */
  function Finish(s: State, c: Contracts, from: Addr, action: Action): Result<Reply> {
    match action
    case NoAction => Ok(Reply(s, [], []))
    case RewardTo(user) => SettleNow(s, c, user)
    case StakeFor(user, amount) => StakeNow(s, c, user, amount)
    case UnstakeFor(user, amount) => UnstakeNow(s, c, user, amount)
    case TreasuryWithdraw(share) =>
      var (s1, amount) :- TakeTreasury(s, c, from, share);
      if s.cfg.treasuryWallet.None? then Err
      else Ok(Reply(s1, [TokenTransfer(c.vault, s.cfg.treasuryWallet.value, amount)], []))
    case SyneWithdraw(share) =>
      var (s1, amount) :- TakeSyne(s, c, from, share);
      if s.cfg.syneDistributor.None? then Err
      else Ok(Reply(s1, [TokenTransfer(c.vault, s.cfg.syneDistributor.value, amount)], []))
  }

  function OnDistribute(s: State, c: Contracts, from: Addr, amount: nat, user: Option<Addr>): Result<Reply> {
    var s1 :- UpdateTotalRewards(s, amount);
    var action := if user.Some? then RewardTo(user.value) else s.action;
    var r :- Finish(s1, c, from, action);
    Ok(Reply(r.state.(action := NoAction), r.msgs, [Distribute(amount)] + r.ops))
  }

  /** The cw20 receive hook; `waiting` is the reward the staking module reports. */
  function OnReceive(s: State, c: Contracts, waiting: nat, from: Addr, user: Addr, amount: nat, hook: Hook): Result<Reply> {
    if from != c.token then Err
    else match hook
      case StakeHook =>
        if waiting > 0 then Park(s, c, StakeFor(user, amount)) else StakeNow(s, c, user, amount)
      case DistributeHook(to) => OnDistribute(s, c, from, amount, to)
      case ConvertHook => Err
  }

  function OnWithdraw(s: State, c: Contracts, waiting: nat, user: Addr): Result<Reply> {
    if waiting > 0 then Park(s, c, RewardTo(user))
    else
      var (s1, paid) :- Apply(s, Settle(user));
      Ok(Reply(s1, [TokenTransfer(c.vault, user, paid)], [Settle(user)]))
  }

  function OnUnstake(s: State, c: Contracts, waiting: nat, from: Addr, amount: nat): Result<Reply> {
    if amount == 0 || amount > s.StakeOf(from).stake then Err
    else if waiting > 0 then Park(s, c, UnstakeFor(from, amount))
    else UnstakeNow(s, c, from, amount)
  }

  function OnWithdrawTreasury(s: State, c: Contracts, waiting: nat, from: Addr, share: Option<nat>): Result<Reply> {
    if s.cfg.treasuryWithdrawer != Some(from) then Err
    else if waiting > 0 then Park(s, c, TreasuryWithdraw(share))
    else
      var (s1, amount) :- TakeTreasury(s, c, from, share);
      if amount == 0 || s.cfg.treasuryWallet.None? then Err
      else Ok(Reply(s1, [TokenTransfer(c.vault, s.cfg.treasuryWallet.value, amount)], []))
  }

  function OnWithdrawSyne(s: State, c: Contracts, waiting: nat, from: Addr, share: Option<nat>): Result<Reply> {
    if waiting > 0 then Park(s, c, SyneWithdraw(share))
    else
      var (s1, amount) :- TakeSyne(s, c, from, share);
      if amount == 0 || s.cfg.syneDistributor.None? then Err
      else Ok(Reply(s1, [TokenTransfer(c.vault, s.cfg.syneDistributor.value, amount)], []))
  }

  /** `query_reward`: the forecast of what collecting now would pay. Underflow aborts the query. */
  function QueryReward(s: State, waiting: nat, a: Addr): Result<nat> {
    if s.staked == 0 then Ok(0)
    else
      var e := s.StakeOf(a);
      var gap :- SubU128(s.power, e.powerDiff);
      var st :- FromInt(e.stake);
      var held :- Mul(gap, st);
      var w :- FromInt(waiting);
      var afterTreasury :- SubU128(ONE, s.cfg.treasuryFee);
      var rate :- SubU128(afterTreasury, s.cfg.syneFee);
      var net :- Mul(w, rate);
      var weighted :- Mul(net, st);
      var d :- FromInt(s.staked);
      var share :- Div(weighted, d);
      AddU128(Floor(held), Floor(share))
  }
}
