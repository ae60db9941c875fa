/**
 * The three actions users can take, parked or direct: the same balances, stakes and accumulator.
 * And the two that nobody can take: the fee withdrawals.
 */
module ActionEquivalence {
  import opened Prelude
  import opened Messages
  import opened Vault
  import opened Chain
  import opened ChainLaws
  import opened ChainSteps
  import opened ChainRuns
  import opened ParkedActions
  import BToken
  import Vesting

  /** Collect first, then make the call. */
  function CollectThen(w: World, m: Msg): (r: Result<World>)
    requires w.Readable()
    ensures r.Ok? ==> r.value.Readable()
  {
    var w1 :- Collected(w);
    Run(w1, [m])
  }

  lemma AskAllowed(w: World)
    requires Inv(w, [])
    ensures Inv(w, [ConverterWithdraw(w.c.vault)])
  {
  }

  lemma CollectedShape(w: World)
    requires Inv(w, []) && 0 < w.waiting && Collected(w).Ok?
    ensures var w1 := Collected(w).value;
            && Inv(w1, []) && w1.waiting == 0 && w1.c == w.c && w1.vault.action == NoAction
            && w1.vault.stakes == w.vault.stakes
  {
    AskAllowed(w);
    RunKeeps(w, [ConverterWithdraw(w.c.vault)]);
    RestsAtNoAction(w);
    RestsAtNoAction(Collected(w).value);
    CollectedFields(w);
  }

  lemma CollectedFields(w: World)
    requires w.Readable() && Distinct(w.c) && 0 < w.waiting && w.vault.action == NoAction && Collected(w).Ok?
    ensures Collected(w).value.waiting == 0 && Collected(w).value.c == w.c
    ensures Collected(w).value.vault.stakes == w.vault.stakes
  {
    CollectedIs(w);
  }

  /** A vault message on its own runs as the handler's answer. */
  lemma AnswerRuns(w: World, m: Msg, answer: Result<Reply>)
    requires w.Readable() && Exec(w, m) == AfterVault(w, answer)
    ensures Run(w, [m]) == match answer case Err => Err case Ok(r) => Run(WithReply(w, r), r.msgs)
  {
    assert [m] + [] == [m];
    RunNext(w, m, []);
    if answer.Ok? {
      assert answer.value.msgs + [] == answer.value.msgs;
    }
  }

  /** A message that parks runs as collecting and finishing. */
  lemma ParkingRuns(w: World, m: Msg, action: Action)
    requires Inv(w, []) && 0 < w.waiting && w.vault.action == NoAction
    requires Exec(w, m) == AfterVault(w, Park(w.vault, w.c, action))
    ensures Run(w, [m]) == match Collected(w) case Err => Err case Ok(w1) => FinishIn(w1, action)
  {
    AnswerRuns(w, m, Park(w.vault, w.c, action));
    ParkedIsCollectThenFinish(w, action);
    assert w.trace + [] == w.trace;
  }

  lemma UnstakeRuns(w: World, user: Addr, amount: nat)
    requires w.Readable() && w.waiting == 0 && 0 < amount <= w.vault.StakeOf(user).stake
    ensures Run(w, [VaultUnstake(user, amount)]) == FinishIn(w, UnstakeFor(user, amount))
  {
    AnswerRuns(w, VaultUnstake(user, amount), UnstakeNow(w.vault, w.c, user, amount));
  }

  lemma UnstakeRefused(w: World, user: Addr, amount: nat)
    requires w.Readable() && !(0 < amount <= w.vault.StakeOf(user).stake)
    ensures Run(w, [VaultUnstake(user, amount)]) == Err
  {
    AnswerRuns(w, VaultUnstake(user, amount), Err);
  }

  lemma GoodUnstakeIsDirect(w: World, user: Addr, amount: nat)
    requires Inv(w, []) && 0 < w.waiting && 0 < amount <= w.vault.StakeOf(user).stake
    ensures Run(w, [VaultUnstake(user, amount)]) == CollectThen(w, VaultUnstake(user, amount))
  {
    RestsAtNoAction(w);
    ParkingRuns(w, VaultUnstake(user, amount), UnstakeFor(user, amount));
    if Collected(w).Ok? {
      CollectedFields(w);
      UnstakeRuns(Collected(w).value, user, amount);
    }
  }

  lemma BadUnstakeIsDirect(w: World, user: Addr, amount: nat)
    requires Inv(w, []) && 0 < w.waiting && !(0 < amount <= w.vault.StakeOf(user).stake)
    ensures Run(w, [VaultUnstake(user, amount)]) == CollectThen(w, VaultUnstake(user, amount))
  {
    RestsAtNoAction(w);
    UnstakeRefused(w, user, amount);
    if Collected(w).Ok? {
      CollectedFields(w);
      UnstakeRefused(Collected(w).value, user, amount);
    }
  }

  /** An unstake that has to collect first equals collecting and then unstaking. */
  lemma UnstakeParkedIsDirect(w: World, user: Addr, amount: nat)
    requires Inv(w, []) && 0 < w.waiting
    ensures Run(w, [VaultUnstake(user, amount)]) == CollectThen(w, VaultUnstake(user, amount))
  {
    if 0 < amount <= w.vault.StakeOf(user).stake {
      GoodUnstakeIsDirect(w, user, amount);
    } else {
      BadUnstakeIsDirect(w, user, amount);
    }
  }

  // ----- withdrawing rewards

  /** Equal but for ledger entries that are zero. */
  ghost predicate SameBalances(a: World, b: World) {
    && a == b.(token := a.token)
    && a.token.supply == b.token.supply && a.token.minter == b.token.minter
    && forall x :: a.Balance(x) == b.Balance(x)
  }

  ghost predicate SameOutcome(a: Result<World>, b: Result<World>) {
    a.Ok? == b.Ok? && (a.Ok? ==> SameBalances(a.value, b.value))
  }

  /** Paying through the direct handler sends the transfer even when it is zero. */
  lemma PayOrTransfer(w: World, user: Addr, amount: nat)
    requires w.Readable() && BToken.Conserved(w.token)
    ensures SameOutcome(Run(w, Pay(w.c, user, amount)), Run(w, [TokenTransfer(w.c.vault, user, amount)]))
  {
    var m := TokenTransfer(w.c.vault, user, amount);
    assert [m] + [] == [m];
    RunNext(w, m, []);
    if amount == 0 {
      BToken.TransferConserves(w.token, w.c.vault, user, 0);
      var w1 := Exec(w, m).value.0;
      assert Run(w, [m]) == Run(w1, []);
    }
  }

  /** A withdrawal that has to collect first equals collecting and then withdrawing. */
  lemma WithdrawParkedIsDirect(w: World, from: Addr, user: Addr)
    requires Inv(w, []) && 0 < w.waiting
    ensures SameOutcome(Run(w, [VaultWithdraw(from, user)]), CollectThen(w, VaultWithdraw(from, user)))
  {
    var m := VaultWithdraw(from, user);
    RestsAtNoAction(w);
    ParkingRuns(w, m, RewardTo(user));
    if Collected(w).Ok? {
      CollectedShape(w);
      var w1 := Collected(w).value;
      AnswerRuns(w1, m, OnWithdraw(w1.vault, w1.c, w1.waiting, user));
      var settle := SettleNow(w1.vault, w1.c, user);
      if settle.Ok? {
        var w2 := WithReply(w1, settle.value);
        PayOrTransfer(w2, user, Apply(w1.vault, Settle(user)).value.1);
      }
    }
  }

  // ----- staking

  /** Receiving the stake before or after the collected reward leaves the same ledger. */
  lemma TransfersCommute(w: World, t: BToken.State, user: Addr, amount: nat)
    requires Distinct(w.c) && BToken.Conserved(t) && t.minter == w.c.converter
    requires user != w.c.converter && user != w.c.vault
    ensures (match BToken.Transfer(t, user, w.c.vault, amount) case Err => Err case Ok(t1) => MintToVault(w, t1))
         == (match MintToVault(w, t) case Err => Err case Ok(t2) => BToken.Transfer(t2, user, w.c.vault, amount))
  {
    BToken.TransferConserves(t, user, w.c.vault, amount);
    BToken.MintConserves(t, w.c.converter, w.c.converter, w.waiting);
    var minted := BToken.Mint(t, w.c.converter, w.c.converter, w.waiting);
    if minted.Ok? {
      var m := minted.value;
      BToken.TransferConserves(m, w.c.converter, w.c.vault, w.waiting);
      var t2 := MintToVault(w, t).value;
      BToken.TransferConserves(t2, user, w.c.vault, amount);
      if amount <= Get(t.balances, user) {
        MintedAfter(w, t, user, amount);
      }
    }
    if amount <= Get(t.balances, user) && minted.Err? {
      var t1 := BToken.Transfer(t, user, w.c.vault, amount).value;
      BToken.MintConserves(t1, w.c.converter, w.c.converter, w.waiting);
    }
  }

  lemma MintToVaultIs(w: World, t: BToken.State)
    requires Distinct(w.c) && MintToVault(w, t).Ok?
    ensures var t1 := MintToVault(w, t).value;
            && t1.supply == t.supply + w.waiting && t1.minter == t.minter
            && t1.balances == t.balances[w.c.converter := Get(t.balances, w.c.converter)]
                                        [w.c.vault := Get(t.balances, w.c.vault) + w.waiting]
  {
    var m := BToken.Mint(t, w.c.converter, w.c.converter, w.waiting).value;
    assert Get(m.balances, w.c.converter) == Get(t.balances, w.c.converter) + w.waiting;
  }

  lemma MintedAfterFits(w: World, t: BToken.State, t1: BToken.State, user: Addr, amount: nat)
    requires Distinct(w.c) && BToken.Conserved(t) && t.minter == w.c.converter
    requires BToken.Transfer(t, user, w.c.vault, amount) == Ok(t1) && MintToVault(w, t).Ok?
    ensures MintToVault(w, t1).Ok?
  {
    BToken.TransferConserves(t, user, w.c.vault, amount);
    BToken.MintConserves(t1, w.c.converter, w.c.converter, w.waiting);
    var m1 := BToken.Mint(t1, w.c.converter, w.c.converter, w.waiting).value;
    BToken.TransferConserves(m1, w.c.converter, w.c.vault, w.waiting);
  }

  lemma MintedAfter(w: World, t: BToken.State, user: Addr, amount: nat)
    requires Distinct(w.c) && BToken.Conserved(t) && t.minter == w.c.converter
    requires user != w.c.converter && user != w.c.vault && amount <= Get(t.balances, user)
    requires BToken.Transfer(t, user, w.c.vault, amount).Ok?
    requires MintToVault(w, t).Ok?
    requires BToken.Transfer(MintToVault(w, t).value, user, w.c.vault, amount).Ok?
    ensures MintToVault(w, BToken.Transfer(t, user, w.c.vault, amount).value)
         == BToken.Transfer(MintToVault(w, t).value, user, w.c.vault, amount)
  {
    var t1, t2 := BToken.Transfer(t, user, w.c.vault, amount).value, MintToVault(w, t).value;
    MintedAfterFits(w, t, t1, user, amount);
    MintToVaultIs(w, t);
    MintToVaultIs(w, t1);
    var u, v, c := Get(t.balances, user), Get(t.balances, w.c.vault), Get(t.balances, w.c.converter);
    assert t1.balances == t.balances[user := u - amount][w.c.vault := v + amount];
    SameLedger(t.balances, user, w.c.vault, w.c.converter, u - amount, v + amount, c, v + w.waiting, v + amount + w.waiting);
  }

  lemma SameLedger(m: map<Addr, nat>, user: Addr, vault: Addr, converter: Addr, u: nat, v: nat, c: nat, v': nat, v'': nat)
    requires user != vault && user != converter && vault != converter
    ensures m[user := u][vault := v][converter := c][vault := v''] == m[converter := c][vault := v'][user := u][vault := v'']
  {
  }

  lemma ClaimIgnoresToken(w: World, t: BToken.State)
    requires w.Readable()
    ensures Claim(w.(token := t)) == match Claim(w) case Err => Err case Ok(w1) => Ok(w1.(token := t))
  {
  }

  /** The stake's transfer slides past the gathering of the reward. */
  lemma GatherAfterTransfer(w: World, user: Addr, amount: nat)
    requires Core(w) && user != w.c.converter && user != w.c.vault
    ensures (match BToken.Transfer(w.token, user, w.c.vault, amount) case Err => Err case Ok(t1) => Gather(w.(token := t1)))
         == (match Gather(w)
             case Err => Err
             case Ok(w1) =>
               match BToken.Transfer(w1.token, user, w.c.vault, amount) case Err => Err case Ok(t) => Ok(w1.(token := t)))
  {
    TransfersCommute(w, w.token, user, amount);
    var moved := BToken.Transfer(w.token, user, w.c.vault, amount);
    if moved.Ok? {
      ClaimIgnoresToken(w, moved.value);
    }
  }

  function StakeSend(w: World, user: Addr, amount: nat): Msg {
    TokenSend(user, w.c.vault, amount, StakeHook)
  }

  function StakeNotice(w: World, user: Addr, amount: nat): Msg {
    VaultReceive(w.c.token, user, amount, StakeHook)
  }

  lemma SendRuns(w: World, user: Addr, amount: nat)
    requires w.Readable()
    ensures Run(w, [StakeSend(w, user, amount)]) ==
      match BToken.Transfer(w.token, user, w.c.vault, amount)
      case Err => Err
      case Ok(t) => Run(w.(token := t), [StakeNotice(w, user, amount)])
  {
    var m := StakeSend(w, user, amount);
    assert [m] + [] == [m];
    RunNext(w, m, []);
    var n := StakeNotice(w, user, amount);
    assert [n] + [] == [n];
  }

  lemma StakeRuns(w: World, user: Addr, amount: nat)
    requires w.Readable() && w.waiting == 0
    ensures Run(w, [StakeNotice(w, user, amount)]) == FinishIn(w, StakeFor(user, amount))
  {
    AnswerRuns(w, StakeNotice(w, user, amount), StakeNow(w.vault, w.c, user, amount));
  }

  lemma StakeParks(w: World, user: Addr, amount: nat)
    requires w.Readable() && Distinct(w.c) && 0 < w.waiting && w.vault.action == NoAction
    ensures Run(w, [StakeNotice(w, user, amount)]) ==
      match Collected(w) case Err => Err case Ok(w1) => FinishIn(w1, StakeFor(user, amount))
  {
    AnswerRuns(w, StakeNotice(w, user, amount), Park(w.vault, w.c, StakeFor(user, amount)));
    ParkedIsCollectThenFinish(w, StakeFor(user, amount));
    assert w.trace + [] == w.trace;
  }

  /** Collecting in the world that already holds the stake. */
  lemma CollectedAfterTransfer(w: World, user: Addr, amount: nat)
    requires Core(w) && 0 < w.waiting && w.vault.action == NoAction
    requires user != w.c.converter && user != w.c.vault
    ensures (match BToken.Transfer(w.token, user, w.c.vault, amount) case Err => Err case Ok(t) => Collected(w.(token := t)))
         == (match Collected(w)
             case Err => Err
             case Ok(w1) =>
               match BToken.Transfer(w1.token, user, w.c.vault, amount) case Err => Err case Ok(t) => Ok(w1.(token := t)))
  {
    CollectedIs(w);
    GatherAfterTransfer(w, user, amount);
    var moved := BToken.Transfer(w.token, user, w.c.vault, amount);
    if moved.Ok? {
      CollectedIs(w.(token := moved.value));
    }
  }

  /** A stake that has to collect first equals collecting and then staking. */
  lemma StakeParkedIsDirect(w: World, user: Addr, amount: nat)
    requires Inv(w, []) && 0 < w.waiting && user != w.c.converter && user != w.c.vault
    ensures Run(w, [StakeSend(w, user, amount)]) == CollectThen(w, StakeSend(w, user, amount))
  {
    RestsAtNoAction(w);
    CollectedAfterTransfer(w, user, amount);
    SendRuns(w, user, amount);
    var moved := BToken.Transfer(w.token, user, w.c.vault, amount);
    if moved.Ok? {
      StakeParks(w.(token := moved.value), user, amount);
    }
    if Collected(w).Ok? {
      CollectedFields(w);
      StakeAfterCollecting(Collected(w).value, user, amount);
    }
  }

  lemma StakeAfterCollecting(w: World, user: Addr, amount: nat)
    requires w.Readable() && w.waiting == 0
    ensures Run(w, [StakeSend(w, user, amount)]) ==
      match BToken.Transfer(w.token, user, w.c.vault, amount)
      case Err => Err
      case Ok(t) => FinishIn(w.(token := t), StakeFor(user, amount))
  {
    SendRuns(w, user, amount);
    var moved := BToken.Transfer(w.token, user, w.c.vault, amount);
    if moved.Ok? {
      StakeRuns(w.(token := moved.value), user, amount);
    }
  }

  // ----- fee withdrawals

  /** Nobody is the treasury's withdrawer: no call from outside takes the treasury fees. */
  lemma TreasuryWithdrawalAborts(w: World, from: Addr, share: Option<nat>)
    requires Inv(w, [])
    ensures Run(w, [VaultWithdrawTreasury(from, share)]) == Err
  {
    VaultIsInitial(w);
    AnswerRuns(w, VaultWithdrawTreasury(from, share), Err);
  }

  /** The syne fees are released to the converter only, which never asks; parked, the token asks. */
  lemma SyneWithdrawalAborts(w: World, from: Addr, share: Option<nat>)
    requires Inv(w, []) && from != w.c.converter
    ensures Run(w, [VaultWithdrawSyne(from, share)]) == Err
  {
    RestsAtNoAction(w);
    if w.waiting == 0 {
      SyneRefused(w, from, share);
    } else {
      ParkingRuns(w, VaultWithdrawSyne(from, share), SyneWithdraw(share));
      if Collected(w).Ok? {
        CollectedFields(w);
        SyneNotFinished(Collected(w).value, share);
      }
    }
  }

  lemma SyneRefused(w: World, from: Addr, share: Option<nat>)
    requires w.Readable() && w.waiting == 0 && from != w.c.converter
    ensures Run(w, [VaultWithdrawSyne(from, share)]) == Err
  {
    AnswerRuns(w, VaultWithdrawSyne(from, share), Err);
  }

  lemma SyneNotFinished(w: World, share: Option<nat>)
    requires w.Readable() && Distinct(w.c)
    ensures FinishIn(w, SyneWithdraw(share)) == Err
  {
  }

  lemma VaultIsInitial(w: World)
    requires Core(w)
    ensures w.vault.cfg == INITIAL_CONFIG
  {
    RecordedIsConsistent(w.vault, w.trace);
  }
}
