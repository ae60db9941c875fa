/**
 * Parked equals direct. When a reward is waiting, a stake, withdrawal or unstake is parked, sent
 * around converter, token and vault, and finished inside the distribution. The result is that of
 * collecting the reward in a transaction of its own and acting afterwards.
 */
module ParkedActions {
  import opened Prelude
  import opened Messages
  import opened Vault
  import opened Chain
  import opened ChainLaws
  import opened ChainSteps
  import opened ChainRuns
  import BToken
  import Vesting

  lemma RunNext(w: World, m: Msg, rest: seq<Msg>)
    requires w.Readable()
    ensures Exec(w, m).Err? ==> Run(w, [m] + rest) == Err
    ensures Exec(w, m).Ok? ==> Run(w, [m] + rest) == Run(Exec(w, m).value.0, Exec(w, m).value.1 + rest)
  {
    assert ([m] + rest)[1..] == rest;
  }

  lemma RunSingle(w: World, m: Msg, w1: World, msgs: seq<Msg>)
    requires w.Readable() && Exec(w, m) == Ok((w1, msgs))
    ensures w1.Readable() && Run(w, [m]) == Run(w1, msgs)
  {
    assert [m] + [] == [m] && msgs + [] == msgs;
    RunNext(w, m, []);
  }

  // ----- collecting, without the vault

  /** The claim and the restake. */
  function Claim(w: World): (r: Result<World>)
    requires w.Readable()
    ensures r.Ok? ==> r.value.Readable()
  {
    if w.kind.Bloop? then Ok(w.(waiting := 0))
    else
      var w1 :- Withdrawn(w);
      UnderlyingOp(w1, Vesting.OpDelegate(w.c.converter, w.waiting))
  }

  function Withdrawn(w: World): (r: Result<World>)
    requires w.Readable()
    ensures r.Ok? ==> r.value.Readable()
  {
    var w1 :- UnderlyingOp(w, Vesting.OpTransfer(w.c.staking, w.c.converter, w.waiting));
    Ok(w1.(waiting := 0))
  }

  function MintToVault(w: World, t: BToken.State): Result<BToken.State> {
    var t1 :- BToken.Mint(t, w.c.converter, w.c.converter, w.waiting);
    BToken.Transfer(t1, w.c.converter, w.c.vault, w.waiting)
  }

  /** The world when the collected reward has reached the vault's balance. */
  function Gather(w: World): (r: Result<World>)
    requires w.Readable()
    ensures r.Ok? ==> r.value.Readable() && r.value.c == w.c && r.value.waiting == 0
    ensures r.Ok? ==> r.value.vault == w.vault && r.value.trace == w.trace
  {
    var w1 :- Claim(w);
    var t :- MintToVault(w, w.token);
    Ok(w1.(token := t))
  }

  function RewardNotice(w: World, user: Option<Addr>): Msg {
    VaultReceive(w.c.token, w.c.converter, w.waiting, DistributeHook(user))
  }

  /** A message that causes no others, ahead of a list. */
  lemma RunQuiet(w: World, m: Msg, rest: seq<Msg>, r: Result<World>)
    requires w.Readable()
    requires match r case Ok(w1) => w1.Readable() && Exec(w, m) == Ok((w1, [])) case Err => Exec(w, m) == Err
    ensures Run(w, [m] + rest) == match r case Ok(w1) => Run(w1, rest) case Err => Err
  {
    RunNext(w, m, rest);
    assert [] + rest == rest;
  }

  lemma WithdrawRuns(w: World, rest: seq<Msg>)
    requires w.Readable()
    ensures Run(w, [StakingWithdraw(w.c.converter)] + rest) ==
      match Withdrawn(w) case Ok(w1) => Run(w1, rest) case Err => Err
  {
    RunQuiet(w, StakingWithdraw(w.c.converter), rest, Withdrawn(w));
  }

  lemma DelegateRuns(w: World, amount: nat, rest: seq<Msg>)
    requires w.Readable()
    ensures Run(w, [UnderlyingDelegate(w.c.converter, amount)] + rest) ==
      match UnderlyingOp(w, Vesting.OpDelegate(w.c.converter, amount)) case Ok(w1) => Run(w1, rest) case Err => Err
  {
    RunQuiet(w, UnderlyingDelegate(w.c.converter, amount), rest, UnderlyingOp(w, Vesting.OpDelegate(w.c.converter, amount)));
  }

  lemma ClaimRuns(w: World, rest: seq<Msg>)
    requires w.Readable()
    ensures Run(w, Collect(w) + rest) == match Claim(w) case Err => Err case Ok(w1) => Run(w1, rest)
  {
    if w.kind.Bloop? {
      RunQuiet(w, StakingRestake(w.c.converter), rest, Ok(w.(waiting := 0)));
    } else {
      var next := [UnderlyingDelegate(w.c.converter, w.waiting)] + rest;
      assert Collect(w) + rest == [StakingWithdraw(w.c.converter)] + next;
      WithdrawRuns(w, next);
      if Withdrawn(w).Ok? {
        DelegateRuns(Withdrawn(w).value, w.waiting, rest);
      }
    }
  }

  lemma MintRuns(w: World, w1: World, user: Option<Addr>, rest: seq<Msg>)
    requires w1.Readable() && w1.c == w.c && Distinct(w.c)
    ensures Run(w1, MintReward(w, user) + rest) ==
      match MintToVault(w, w1.token)
      case Err => Err
      case Ok(t) => Run(w1.(token := t), [RewardNotice(w, user)] + rest)
  {
    var c := MintReward(w, user);
    assert c + rest == [c[0]] + ([c[1]] + rest);
    RunNext(w1, c[0], [c[1]] + rest);
    if Exec(w1, c[0]).Ok? {
      var w2 := Exec(w1, c[0]).value.0;
      assert [] + ([c[1]] + rest) == [c[1]] + rest;
      RunNext(w2, c[1], rest);
    }
  }

  lemma MintThenNotice(w: World, w1: World)
    requires w.Readable() && Distinct(w.c) && Claim(w) == Ok(w1) && w1.c == w.c && w1.token == w.token
    ensures Run(w1, MintReward(w, None)) ==
      match Gather(w) case Err => Err case Ok(w2) => Run(w2, [RewardNotice(w, None)])
  {
    assert MintReward(w, None) + [] == MintReward(w, None);
    MintRuns(w, w1, None, []);
    assert [RewardNotice(w, None)] + [] == [RewardNotice(w, None)];
  }

  /** Asking the converter to withdraw gathers the reward and then tells the vault. */
  lemma CollectRuns(w: World, from: Addr)
    requires w.Readable() && Distinct(w.c) && 0 < w.waiting
    ensures Run(w, [ConverterWithdraw(from)]) ==
      match Gather(w) case Err => Err case Ok(w1) => Run(w1, [RewardNotice(w, None)])
  {
    AskRuns(w, from);
    ClaimRuns(w, MintReward(w, None));
    if Claim(w).Ok? {
      MintThenNotice(w, Claim(w).value);
    }
  }

  lemma AskRuns(w: World, from: Addr)
    requires w.Readable() && 0 < w.waiting
    ensures Run(w, [ConverterWithdraw(from)]) == Run(w, Collect(w) + MintReward(w, None))
  {
    AskExec(w, from);
    RunSingle(w, ConverterWithdraw(from), w, Collect(w) + MintReward(w, None));
  }

  lemma AskExec(w: World, from: Addr)
    requires w.Readable() && 0 < w.waiting
    ensures Exec(w, ConverterWithdraw(from)) == Ok((w, Collect(w) + MintReward(w, None)))
  {
  }

  /** Gathering does not look at the vault's storage. */
  lemma GatherIgnoresVault(w: World, v: State, trace: seq<Op>)
    requires w.Readable()
    ensures Gather(w.(vault := v, trace := trace)) ==
      match Gather(w) case Err => Err case Ok(w1) => Ok(w1.(vault := v, trace := trace))
  {
  }

  // ----- the vault's turn

  function WithReply(w: World, r: Reply): World {
    w.(vault := r.state, trace := w.trace + r.ops)
  }

  /** The vault is told of a reward of `amount`: it distributes and goes on with its answer. */
  lemma NoticeRuns(w: World, from: Addr, amount: nat, user: Option<Addr>)
    requires w.Readable()
    ensures Run(w, [VaultReceive(w.c.token, from, amount, DistributeHook(user))]) ==
      match OnDistribute(w.vault, w.c, w.c.token, amount, user)
      case Err => Err
      case Ok(r) => Run(WithReply(w, r), r.msgs)
  {
    var m := VaultReceive(w.c.token, from, amount, DistributeHook(user));
    assert [m] + [] == [m];
    RunNext(w, m, []);
    if OnDistribute(w.vault, w.c, w.c.token, amount, user).Ok? {
      var r := OnDistribute(w.vault, w.c, w.c.token, amount, user).value;
      assert r.msgs + [] == r.msgs;
    }
  }

  /** A parked action runs as: gather, distribute, finish. */
  lemma ParkedRuns(w: World, action: Action)
    requires w.Readable() && Distinct(w.c) && 0 < w.waiting
    ensures Run(w.(vault := w.vault.(action := action)), [ConverterWithdraw(w.c.vault)]) ==
      match Gather(w)
      case Err => Err
      case Ok(w1) =>
        match OnDistribute(w.vault.(action := action), w.c, w.c.token, w.waiting, None)
        case Err => Err
        case Ok(r) => Run(WithReply(w1, r), r.msgs)
  {
    var parked := w.(vault := w.vault.(action := action));
    CollectRuns(parked, w.c.vault);
    GatherIgnoresVault(w, parked.vault, w.trace);
    if Gather(w).Ok? {
      var w1 := Gather(parked).value;
      NoticeRuns(w1, w.c.converter, w.waiting, None);
    }
  }

  /** The world after collecting alone. */
  function Collected(w: World): (r: Result<World>)
    requires w.Readable()
    ensures r.Ok? ==> r.value.Readable()
  {
    Run(w, [ConverterWithdraw(w.c.vault)])
  }

  lemma PlainDistribution(s: State, c: Contracts, from: Addr, amount: nat)
    requires s.action == NoAction
    ensures OnDistribute(s, c, from, amount, None) ==
      match UpdateTotalRewards(s, amount) case Err => Err case Ok(s1) => Ok(Reply(s1, [], [Distribute(amount)]))
  {
    ActionRidesAlong(s, c, from, amount, NoAction);
    assert s.(action := NoAction) == s;
    assert [Distribute(amount)] + [] == [Distribute(amount)];
  }

  lemma CollectedIs(w: World)
    requires w.Readable() && Distinct(w.c) && 0 < w.waiting && w.vault.action == NoAction
    ensures Collected(w) ==
      match Gather(w)
      case Err => Err
      case Ok(w1) =>
        match UpdateTotalRewards(w.vault, w.waiting)
        case Err => Err
        case Ok(s1) => Ok(w1.(vault := s1, trace := w.trace + [Distribute(w.waiting)]))
  {
    CollectRuns(w, w.c.vault);
    if Gather(w).Ok? {
      NoticeRuns(Gather(w).value, w.c.converter, w.waiting, None);
      PlainDistribution(w.vault, w.c, w.c.token, w.waiting);
    }
  }

  /** What finishing an action does to a world that has collected. */
  function FinishIn(w: World, action: Action): (r: Result<World>)
    requires w.Readable()
    ensures r.Ok? ==> r.value.Readable()
  {
    match Finish(w.vault, w.c, w.c.token, action)
    case Err => Err
    case Ok(r) => Run(WithReply(w, r), r.msgs)
  }

  lemma ActionRidesAlong(s: State, c: Contracts, from: Addr, amount: nat, action: Action)
    requires s.action == NoAction
    ensures OnDistribute(s.(action := action), c, from, amount, None) ==
      match UpdateTotalRewards(s, amount)
      case Err => Err
      case Ok(s1) =>
        match Finish(s1, c, from, action)
        case Err => Err
        case Ok(r) => Ok(Reply(r.state, r.msgs, [Distribute(amount)] + r.ops))
  {
    if UpdateTotalRewards(s, amount).Ok? {
      var s1 := UpdateTotalRewards(s, amount).value;
      assert UpdateTotalRewards(s.(action := action), amount) == Ok(s1.(action := action));
      FinishIgnoresAction(s1, c, from, action);
    }
  }

  lemma FinishIgnoresAction(s: State, c: Contracts, from: Addr, action: Action)
    requires s.action == NoAction
    ensures Finish(s.(action := action), c, from, action) ==
      match Finish(s, c, from, action)
      case Err => Err
      case Ok(r) => Ok(Reply(r.state.(action := action), r.msgs, r.ops))
    ensures Finish(s, c, from, action).Ok? ==> Finish(s, c, from, action).value.state.action == NoAction
  {
  }

  /** One world, two ways to record the same distribution and finish. */
  lemma FinishJoins(w1: World, s: State, s1: State, amount: nat, action: Action)
    requires w1.Readable() && s.action == NoAction && UpdateTotalRewards(s, amount) == Ok(s1)
    ensures FinishIn(w1.(vault := s1, trace := w1.trace + [Distribute(amount)]), action) ==
      match OnDistribute(s.(action := action), w1.c, w1.c.token, amount, None)
      case Err => Err
      case Ok(r) => Run(WithReply(w1, r), r.msgs)
  {
    ActionRidesAlong(s, w1.c, w1.c.token, amount, action);
    var finish := Finish(s1, w1.c, w1.c.token, action);
    if finish.Ok? {
      var r := finish.value;
      assert w1.trace + [Distribute(amount)] + r.ops == w1.trace + ([Distribute(amount)] + r.ops);
    }
  }

  /** Parking and collecting is collecting and finishing, whatever the action. */
  lemma ParkedIsCollectThenFinish(w: World, action: Action)
    requires w.Readable() && Distinct(w.c) && 0 < w.waiting && w.vault.action == NoAction
    ensures Run(w.(vault := w.vault.(action := action)), [ConverterWithdraw(w.c.vault)]) ==
      match Collected(w) case Err => Err case Ok(w1) => FinishIn(w1, action)
  {
    ParkedRuns(w, action);
    CollectedIs(w);
    if Gather(w).Ok? {
      if UpdateTotalRewards(w.vault, w.waiting).Ok? {
        FinishJoins(Gather(w).value, w.vault, UpdateTotalRewards(w.vault, w.waiting).value, w.waiting, action);
      } else {
        ActionRidesAlong(w.vault, w.c, w.c.token, w.waiting, action);
      }
    }
  }
}
