/**
 * What a user gets: the effect of a whole vault transaction on the user's balance and stake,
 * whether or not a reward had to be collected on the way.
 */
module Payouts {
  import opened Prelude
  import opened Messages
  import opened Vault
  import opened VaultLedger
  import opened VaultHistory
  import opened Chain
  import opened ChainLaws
  import opened ChainSteps
  import opened ChainRuns
  import opened ParkedActions
  import opened ActionEquivalence
  import opened Forecast
  import BToken

  /** The world in which the action takes effect: after collecting, if there is anything to collect. */
  function Settled(w: World): (r: Result<World>)
    requires w.Readable()
    ensures r.Ok? ==> r.value.Readable()
  {
    if 0 < w.waiting then Collected(w) else Ok(w)
  }

  /** The reward owed to a user in a given world. */
  function Owed(w: World, user: Addr): Result<nat> {
    PendingReward(w.vault.power, w.vault.StakeOf(user))
  }

  lemma SettledShape(w: World, user: Addr)
    requires Inv(w, []) && Settled(w).Ok? && user != w.c.vault && user != w.c.converter
    ensures var w1 := Settled(w).value;
            && Inv(w1, []) && w1.waiting == 0 && w1.c == w.c
            && w1.vault.stakes == w.vault.stakes && w1.vault.staked == w.vault.staked
            && w1.Balance(user) == w.Balance(user)
  {
    if 0 < w.waiting {
      CollectedShape(w);
      RestsAtNoAction(w);
      GatherLeavesUsers(w, user);
      RecordedIsConsistent(w.vault, w.trace);
      DistributionStep(w.vault, w.waiting);
    }
  }

  lemma PaymentRuns(w: World, user: Addr, amount: nat, rest: seq<Msg>)
    requires w.Readable() && BToken.Conserved(w.token) && user != w.c.vault
    requires Run(w, [TokenTransfer(w.c.vault, user, amount)] + rest).Ok?
    ensures BToken.Transfer(w.token, w.c.vault, user, amount).Ok?
    ensures var w1 := w.(token := BToken.Transfer(w.token, w.c.vault, user, amount).value);
            && Run(w, [TokenTransfer(w.c.vault, user, amount)] + rest) == Run(w1, rest)
            && BToken.Conserved(w1.token) && w1.Balance(user) == w.Balance(user) + amount
  {
    var t := BToken.Transfer(w.token, w.c.vault, user, amount);
    BToken.TransferConserves(w.token, w.c.vault, user, amount);
    RunQuiet(w, TokenTransfer(w.c.vault, user, amount), rest, if t.Ok? then Ok(w.(token := t.value)) else Err);
  }

  /** Paying touches the ledger only. */
  lemma PayLeavesVault(w: World, user: Addr, amount: nat)
    requires w.Readable() && Run(w, Pay(w.c, user, amount)).Ok?
    ensures Run(w, Pay(w.c, user, amount)).value.vault == w.vault
  {
    if 0 < amount {
      var t := BToken.Transfer(w.token, w.c.vault, user, amount);
      assert Pay(w.c, user, amount) == [TokenTransfer(w.c.vault, user, amount)] + [];
      RunQuiet(w, TokenTransfer(w.c.vault, user, amount), [], if t.Ok? then Ok(w.(token := t.value)) else Err);
    }
  }

  /** Finishing an unstake: the stake and the owed reward reach the user, the entry is settled. */
  lemma UnstakeFinishes(w: World, user: Addr, amount: nat)
    requires w.Readable() && BToken.Conserved(w.token) && user != w.c.vault
    requires FinishIn(w, UnstakeFor(user, amount)).Ok?
    ensures Owed(w, user).Ok?
    ensures var w1 := FinishIn(w, UnstakeFor(user, amount)).value;
            && w1.Balance(user) == w.Balance(user) + amount + Owed(w, user).value
            && w1.vault == Apply(w.vault, Redeem(user, amount)).value.0
  {
    var (s1, paid) := Apply(w.vault, Redeem(user, amount)).value;
    var w0 := WithReply(w, UnstakeNow(w.vault, w.c, user, amount).value);
    PaymentRuns(w0, user, amount, Pay(w.c, user, paid));
    var w1 := w0.(token := BToken.Transfer(w.token, w.c.vault, user, amount).value);
    PayArrives(w1, user, paid);
    PayLeavesVault(w1, user, paid);
  }

  lemma StakeFinishes(w: World, user: Addr, amount: nat)
    requires w.Readable() && BToken.Conserved(w.token) && user != w.c.vault
    requires FinishIn(w, StakeFor(user, amount)).Ok?
    ensures Owed(w, user).Ok?
    ensures var w1 := FinishIn(w, StakeFor(user, amount)).value;
            && w1.Balance(user) == w.Balance(user) + Owed(w, user).value
            && w1.vault == Apply(w.vault, Deposit(user, amount)).value.0
  {
    var (s1, paid) := Apply(w.vault, Deposit(user, amount)).value;
    var w0 := WithReply(w, StakeNow(w.vault, w.c, user, amount).value);
    PayArrives(w0, user, paid);
    PayLeavesVault(w0, user, paid);
  }

  /** An unstake that goes through pays the amount and all owed reward, and lowers the stake by it. */
  lemma UnstakePaysOut(w: World, user: Addr, amount: nat)
    requires Inv(w, []) && user != w.c.vault && user != w.c.converter
    requires Run(w, [VaultUnstake(user, amount)]).Ok?
    ensures 0 < amount <= w.vault.StakeOf(user).stake
    ensures Settled(w).Ok? && Owed(Settled(w).value, user).Ok?
    ensures var w2 := Run(w, [VaultUnstake(user, amount)]).value;
            && w2.Balance(user) == w.Balance(user) + amount + Owed(Settled(w).value, user).value
            && w2.vault.StakeOf(user).stake == w.vault.StakeOf(user).stake - amount
            && w2.vault.staked == w.vault.staked - amount
            && Earned(w2.vault, user) == 0
  {
    UnstakeIsFinish(w, user, amount);
    SettledShape(w, user);
    var w1 := Settled(w).value;
    VaultConsistent(w1);
    UnstakeEffect(w1, user, amount);
  }

  lemma UnstakeEffect(w: World, user: Addr, amount: nat)
    requires w.Readable() && BToken.Conserved(w.token) && user != w.c.vault && Consistent(w.vault)
    requires amount <= w.vault.StakeOf(user).stake && FinishIn(w, UnstakeFor(user, amount)).Ok?
    ensures Owed(w, user).Ok?
    ensures var w1 := FinishIn(w, UnstakeFor(user, amount)).value;
            && w1.Balance(user) == w.Balance(user) + amount + Owed(w, user).value
            && w1.vault.StakeOf(user).stake == w.vault.StakeOf(user).stake - amount
            && w1.vault.staked == w.vault.staked - amount
            && Earned(w1.vault, user) == 0
  {
    UnstakeFinishes(w, user, amount);
    EntryLeft(w.vault, Redeem(user, amount));
  }

  lemma UnstakeIsFinish(w: World, user: Addr, amount: nat)
    requires Inv(w, []) && Run(w, [VaultUnstake(user, amount)]).Ok?
    ensures 0 < amount <= w.vault.StakeOf(user).stake
    ensures Settled(w).Ok? && Run(w, [VaultUnstake(user, amount)]) == FinishIn(Settled(w).value, UnstakeFor(user, amount))
  {
    if !(0 < amount <= w.vault.StakeOf(user).stake) {
      UnstakeRefused(w, user, amount);
    }
    if 0 < w.waiting {
      UnstakeParks(w, user, amount);
    } else {
      UnstakeRuns(w, user, amount);
    }
  }

  lemma UnstakeParks(w: World, user: Addr, amount: nat)
    requires Inv(w, []) && 0 < w.waiting && 0 < amount <= w.vault.StakeOf(user).stake
    ensures Run(w, [VaultUnstake(user, amount)])
         == match Collected(w) case Err => Err case Ok(w1) => FinishIn(w1, UnstakeFor(user, amount))
  {
    RestsAtNoAction(w);
    ParkingRuns(w, VaultUnstake(user, amount), UnstakeFor(user, amount));
  }

  lemma StakeWritten(s: State, op: Op)
    requires (op.Deposit? || op.Redeem?) && Apply(s, op).Ok?
    ensures var s1, old_ := Apply(s, op).value.0, s.StakeOf(op.user).stake;
            && s1.StakeOf(op.user).stake == (if op.Deposit? then AddOrZero(old_, op.amount) else SubOrZero(old_, op.amount))
            && s1.staked == (if op.Deposit? then AddOrZero(s.staked, op.amount) else SubOrZero(s.staked, op.amount))
  {
  }

  /** The entry an operation leaves, when no fallback is taken. */
  lemma EntryLeft(s: State, op: Op)
    requires Consistent(s) && NoFallback(s, op) && (op.Deposit? || op.Redeem?) && Apply(s, op).Ok?
    ensures var s1 := Apply(s, op).value.0;
            && s1.StakeOf(op.user).stake + Outflow(op) == s.StakeOf(op.user).stake + Deposited(op)
            && s1.staked + Outflow(op) == s.staked + Deposited(op)
            && Earned(s1, op.user) == 0
  {
    StakeWithinTotal(s, op.user);
    StakeWritten(s, op);
    SettledEntry(s, op, op.user);
  }

  lemma VaultConsistent(w: World)
    requires Core(w)
    ensures Consistent(w.vault)
  {
    RecordedIsConsistent(w.vault, w.trace);
  }

  /** A stake that goes through takes the amount, pays all owed reward, and raises the stake by the amount. */
  lemma StakePaysOut(w: World, user: Addr, amount: nat)
    requires Inv(w, []) && user !in ContractSet(w.c)
    requires Run(w, [StakeSend(w, user, amount)]).Ok?
    ensures Settled(w).Ok? && Owed(Settled(w).value, user).Ok?
    ensures var w2 := Run(w, [StakeSend(w, user, amount)]).value;
            && w2.Balance(user) == w.Balance(user) - amount + Owed(Settled(w).value, user).value
            && w2.vault.StakeOf(user).stake == w.vault.StakeOf(user).stake + amount
            && w2.vault.staked == w.vault.staked + amount
            && Earned(w2.vault, user) == 0
  {
    if 0 < w.waiting {
      StakeParkedIsDirect(w, user, amount);
    }
    var w1 := Settled(w).value;
    SettledShape(w, user);
    StakeAfterCollecting(w1, user, amount);
    BToken.TransferConserves(w1.token, user, w1.c.vault, amount);
    var w0 := w1.(token := BToken.Transfer(w1.token, user, w1.c.vault, amount).value);
    VaultConsistent(w1);
    DepositFits(w1, user, amount);
    StakeEffect(w0, user, amount);
  }

  lemma StakeEffect(w: World, user: Addr, amount: nat)
    requires w.Readable() && BToken.Conserved(w.token) && user != w.c.vault && Consistent(w.vault)
    requires w.vault.staked + amount < U128 && FinishIn(w, StakeFor(user, amount)).Ok?
    ensures Owed(w, user).Ok?
    ensures var w1 := FinishIn(w, StakeFor(user, amount)).value;
            && w1.Balance(user) == w.Balance(user) + Owed(w, user).value
            && w1.vault.StakeOf(user).stake == w.vault.StakeOf(user).stake + amount
            && w1.vault.staked == w.vault.staked + amount
            && Earned(w1.vault, user) == 0
  {
    StakeFinishes(w, user, amount);
    EntryLeft(w.vault, Deposit(user, amount));
  }

  /** The deposit fits beside the stakes: it came out of a balance, and the vault covers the rest. */
  lemma DepositFits(w: World, user: Addr, amount: nat)
    requires Inv(w, []) && user != w.c.vault && amount <= w.Balance(user)
    ensures w.vault.staked + amount < U128
  {
    RecordedIsConsistent(w.vault, w.trace);
    LiabilityCoversStakes(w.vault);
    RestsAtNoAction(w);
    BToken.TransferConserves(w.token, user, w.c.vault, amount);
    BalanceFits(BToken.Transfer(w.token, user, w.c.vault, amount).value, w.c.vault);
  }

  // ----- withdrawing rewards

  lemma RewardEffect(w: World, user: Addr)
    requires w.Readable() && BToken.Conserved(w.token) && user != w.c.vault && Consistent(w.vault)
    requires FinishIn(w, RewardTo(user)).Ok?
    ensures Owed(w, user).Ok?
    ensures var w1 := FinishIn(w, RewardTo(user)).value;
            && w1.Balance(user) == w.Balance(user) + Owed(w, user).value
            && w1.vault == Apply(w.vault, Settle(user)).value.0
  {
    RewardFinishes(w, user);
    var paid := Apply(w.vault, Settle(user)).value.1;
    PayLeavesVault(WithReply(w, SettleNow(w.vault, w.c, user).value), user, paid);
  }

  lemma DirectWithdrawal(w: World, from: Addr, user: Addr)
    requires w.Readable() && BToken.Conserved(w.token) && user != w.c.vault && w.waiting == 0
    requires Run(w, [VaultWithdraw(from, user)]).Ok?
    ensures Owed(w, user).Ok?
    ensures var w1 := Run(w, [VaultWithdraw(from, user)]).value;
            && w1.Balance(user) == w.Balance(user) + Owed(w, user).value
            && w1.vault == Apply(w.vault, Settle(user)).value.0
  {
    AnswerRuns(w, VaultWithdraw(from, user), OnWithdraw(w.vault, w.c, w.waiting, user));
    var r := OnWithdraw(w.vault, w.c, w.waiting, user).value;
    var paid := Apply(w.vault, Settle(user)).value.1;
    assert r.msgs == [TokenTransfer(w.c.vault, user, paid)] + [];
    PaymentRuns(WithReply(w, r), user, paid, []);
  }

  /** A reward withdrawal that goes through pays all owed reward, leaves the stake and starts the earnings afresh. */
  lemma WithdrawPaysOut(w: World, from: Addr, user: Addr)
    requires Inv(w, []) && user != w.c.vault && user != w.c.converter
    requires Run(w, [VaultWithdraw(from, user)]).Ok?
    ensures Settled(w).Ok? && Owed(Settled(w).value, user).Ok?
    ensures var w2 := Run(w, [VaultWithdraw(from, user)]).value;
            && w2.Balance(user) == w.Balance(user) + Owed(Settled(w).value, user).value
            && w2.vault.StakeOf(user).stake == w.vault.StakeOf(user).stake
            && Earned(w2.vault, user) == 0
  {
    WithdrawalStarts(w, from, user);
    SettledShape(w, user);
    var w1 := Settled(w).value;
    VaultConsistent(w1);
    WithdrawalEffect(w, w1, from, user);
    SettledStake(w1.vault, user);
  }

  lemma WithdrawalStarts(w: World, from: Addr, user: Addr)
    requires Inv(w, []) && Run(w, [VaultWithdraw(from, user)]).Ok?
    ensures Settled(w).Ok?
    ensures 0 < w.waiting ==> Run(w, [VaultWithdraw(from, user)]) == FinishIn(Settled(w).value, RewardTo(user))
  {
    RestsAtNoAction(w);
    if 0 < w.waiting {
      ParkingRuns(w, VaultWithdraw(from, user), RewardTo(user));
    }
  }

  lemma WithdrawalEffect(w: World, w1: World, from: Addr, user: Addr)
    requires w.Readable() && w1.Readable() && BToken.Conserved(w1.token) && user != w1.c.vault && Consistent(w1.vault)
    requires Run(w, [VaultWithdraw(from, user)]).Ok?
    requires if 0 < w.waiting then Run(w, [VaultWithdraw(from, user)]) == FinishIn(w1, RewardTo(user)) else w1 == w
    ensures Owed(w1, user).Ok?
    ensures var w2 := Run(w, [VaultWithdraw(from, user)]).value;
            && w2.Balance(user) == w1.Balance(user) + Owed(w1, user).value
            && w2.vault == Apply(w1.vault, Settle(user)).value.0
  {
    if 0 < w.waiting {
      RewardEffect(w1, user);
    } else {
      DirectWithdrawal(w, from, user);
    }
  }

  lemma SettledStake(s: State, user: Addr)
    requires Consistent(s) && Apply(s, Settle(user)).Ok?
    ensures var s1 := Apply(s, Settle(user)).value.0;
            s1.StakeOf(user).stake == s.StakeOf(user).stake && Earned(s1, user) == 0
  {
  }
}
