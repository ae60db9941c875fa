/**
 * Exactly when a staker's transaction goes through. Solvency is what makes the payments possible:
 * once a waiting reward can be collected, nothing but the size of the stake itself can keep the
 * vault from paying.
 */
module VaultRefusals {
  import opened Prelude
  import opened Decimals
  import opened Messages
  import opened Vault
  import opened VaultLedger
  import opened Chain
  import opened ChainLaws
  import opened ChainRuns
  import opened ParkedActions
  import opened ActionEquivalence
  import opened Payouts
  import BToken

  /** The stake fits the 18 decimals it is multiplied in. */
  predicate Multipliable(s: State, user: Addr) {
    s.StakeOf(user).stake * ONE < U128
  }

  /** A reward can be computed exactly while the stake can be multiplied. */
  lemma RewardFailsExactly(s: State, user: Addr)
    ensures PendingReward(s.power, s.StakeOf(user)).Ok? <==> Multipliable(s, user)
  {
  }

  lemma TransferRuns(w: World, user: Addr, amount: nat, rest: seq<Msg>)
    requires w.Readable() && BToken.Conserved(w.token) && user != w.c.vault && amount <= w.Balance(w.c.vault)
    ensures BToken.Transfer(w.token, w.c.vault, user, amount).Ok?
    ensures var w1 := w.(token := BToken.Transfer(w.token, w.c.vault, user, amount).value);
            && w1.Readable() && Run(w, [TokenTransfer(w.c.vault, user, amount)] + rest) == Run(w1, rest)
            && BToken.Conserved(w1.token) && w1.Balance(w.c.vault) == w.Balance(w.c.vault) - amount
  {
    var t := BToken.Transfer(w.token, w.c.vault, user, amount);
    BToken.TransferConserves(w.token, w.c.vault, user, amount);
    RunQuiet(w, TokenTransfer(w.c.vault, user, amount), rest, Ok(w.(token := t.value)));
  }

  /** What the vault holds it can pay. */
  lemma PayRuns(w: World, user: Addr, amount: nat)
    requires w.Readable() && BToken.Conserved(w.token) && user != w.c.vault && amount <= w.Balance(w.c.vault)
    ensures Run(w, Pay(w.c, user, amount)).Ok?
  {
    if 0 < amount {
      assert Pay(w.c, user, amount) == [TokenTransfer(w.c.vault, user, amount)] + [];
      TransferRuns(w, user, amount, []);
    }
  }

  /** After an operation on solvent books the vault holds what the operation releases. */
  lemma BooksCover(s: State, op: Op, held: nat)
    requires Consistent(s) && NoFallback(s, op) && Apply(s, op).Ok?
    requires Liability(s) + ONE * Inflow(op) <= ONE * held
    ensures Apply(s, op).value.1 + Outflow(op) <= held
  {
    OpKeepsBooks(s, op);
    LiabilityCoversStakes(Apply(s, op).value.0);
  }

  /** A state between transactions: solvent, and nothing parked. */
  lemma RestsSolvent(w: World)
    requires Inv(w, [])
    ensures Consistent(w.vault) && Liability(w.vault) <= ONE * w.Balance(w.c.vault)
  {
    RecordedIsConsistent(w.vault, w.trace);
    RestsAtNoAction(w);
  }

  lemma UnstakeFinishesExactly(w: World, user: Addr, amount: nat)
    requires w.Readable() && BToken.Conserved(w.token) && user != w.c.vault && Consistent(w.vault)
    requires Liability(w.vault) <= ONE * w.Balance(w.c.vault) && amount <= w.vault.StakeOf(user).stake
    ensures FinishIn(w, UnstakeFor(user, amount)).Ok? <==> Multipliable(w.vault, user)
  {
    RewardFailsExactly(w.vault, user);
    if Multipliable(w.vault, user) {
      BooksCover(w.vault, Redeem(user, amount), w.Balance(w.c.vault));
      var r, paid := UnstakeNow(w.vault, w.c, user, amount).value, Apply(w.vault, Redeem(user, amount)).value.1;
      TransferRuns(WithReply(w, r), user, amount, Pay(w.c, user, paid));
      PayRuns(WithReply(w, r).(token := BToken.Transfer(w.token, w.c.vault, user, amount).value), user, paid);
    }
  }

  lemma StakeFinishesExactly(w: World, user: Addr, amount: nat)
    requires w.Readable() && BToken.Conserved(w.token) && user != w.c.vault && Consistent(w.vault)
    requires Liability(w.vault) + ONE * amount <= ONE * w.Balance(w.c.vault) && w.vault.staked + amount < U128
    ensures FinishIn(w, StakeFor(user, amount)).Ok? <==> Multipliable(w.vault, user)
  {
    RewardFailsExactly(w.vault, user);
    if Multipliable(w.vault, user) {
      BooksCover(w.vault, Deposit(user, amount), w.Balance(w.c.vault));
      var r, paid := StakeNow(w.vault, w.c, user, amount).value, Apply(w.vault, Deposit(user, amount)).value.1;
      PayRuns(WithReply(w, r), user, paid);
    }
  }

  lemma RewardFinishesExactly(w: World, user: Addr)
    requires w.Readable() && BToken.Conserved(w.token) && user != w.c.vault && Consistent(w.vault)
    requires Liability(w.vault) <= ONE * w.Balance(w.c.vault)
    ensures FinishIn(w, RewardTo(user)).Ok? <==> Multipliable(w.vault, user)
  {
    RewardFailsExactly(w.vault, user);
    if Multipliable(w.vault, user) {
      BooksCover(w.vault, Settle(user), w.Balance(w.c.vault));
      PayRuns(WithReply(w, SettleNow(w.vault, w.c, user).value), user, Apply(w.vault, Settle(user)).value.1);
    }
  }

  // ----- whole transactions

  /**
   * Stakers can leave: an unstake goes through exactly for a positive amount up to the stake, if the
   * waiting reward can be collected and the stake is below 2^128 / 10^18.
   */
  lemma UnstakesExactly(w: World, user: Addr, amount: nat)
    requires Inv(w, []) && user != w.c.vault && user != w.c.converter
    ensures Run(w, [VaultUnstake(user, amount)]).Ok? <==>
      0 < amount <= w.vault.StakeOf(user).stake && Payouts.Settled(w).Ok? && Multipliable(w.vault, user)
  {
    if 0 < amount <= w.vault.StakeOf(user).stake {
      if 0 < w.waiting {
        UnstakeParks(w, user, amount);
      } else {
        UnstakeRuns(w, user, amount);
      }
      if Payouts.Settled(w).Ok? {
        SettledShape(w, user);
        RestsSolvent(Payouts.Settled(w).value);
        UnstakeFinishesExactly(Payouts.Settled(w).value, user, amount);
      }
    } else {
      UnstakeRefused(w, user, amount);
    }
  }

  /** A stake goes through exactly when the user holds the amount, under the same two conditions. */
  lemma StakesExactly(w: World, user: Addr, amount: nat)
    requires Inv(w, []) && user != w.c.vault && user != w.c.converter
    ensures Run(w, [StakeSend(w, user, amount)]).Ok? <==>
      amount <= w.Balance(user) && Payouts.Settled(w).Ok? && Multipliable(w.vault, user)
  {
    if 0 < w.waiting {
      StakeParkedIsDirect(w, user, amount);
    }
    if Payouts.Settled(w).Ok? {
      SettledShape(w, user);
      StakesSettledExactly(Payouts.Settled(w).value, user, amount);
    }
  }

  lemma StakesSettledExactly(w: World, user: Addr, amount: nat)
    requires Inv(w, []) && w.waiting == 0 && user != w.c.vault && user != w.c.converter
    ensures Run(w, [StakeSend(w, user, amount)]).Ok? <==> amount <= w.Balance(user) && Multipliable(w.vault, user)
  {
    StakeAfterCollecting(w, user, amount);
    BToken.TransferConserves(w.token, user, w.c.vault, amount);
    if amount <= w.Balance(user) {
      RestsSolvent(w);
      DepositFits(w, user, amount);
      var w1 := w.(token := BToken.Transfer(w.token, user, w.c.vault, amount).value);
      StakeFinishesExactly(w1, user, amount);
    }
  }

  /** A withdrawal of rewards goes through exactly under the same two conditions. */
  lemma WithdrawsExactly(w: World, from: Addr, user: Addr)
    requires Inv(w, []) && user != w.c.vault && user != w.c.converter
    ensures Run(w, [VaultWithdraw(from, user)]).Ok? <==> Payouts.Settled(w).Ok? && Multipliable(w.vault, user)
  {
    RestsAtNoAction(w);
    if 0 < w.waiting {
      ParkingRuns(w, VaultWithdraw(from, user), RewardTo(user));
      if Payouts.Settled(w).Ok? {
        SettledShape(w, user);
        RestsSolvent(Payouts.Settled(w).value);
        RewardFinishesExactly(Payouts.Settled(w).value, user);
      }
    } else {
      WithdrawsDirectly(w, from, user);
    }
  }

  lemma WithdrawsDirectly(w: World, from: Addr, user: Addr)
    requires Inv(w, []) && w.waiting == 0 && user != w.c.vault
    ensures Run(w, [VaultWithdraw(from, user)]).Ok? <==> Multipliable(w.vault, user)
  {
    AnswerRuns(w, VaultWithdraw(from, user), OnWithdraw(w.vault, w.c, w.waiting, user));
    RewardFailsExactly(w.vault, user);
    RestsSolvent(w);
    if Multipliable(w.vault, user) {
      BooksCover(w.vault, Settle(user), w.Balance(w.c.vault));
      var r, paid := OnWithdraw(w.vault, w.c, w.waiting, user).value, Apply(w.vault, Settle(user)).value.1;
      assert r.msgs == [TokenTransfer(w.c.vault, user, paid)] + [];
      TransferRuns(WithReply(w, r), user, paid, []);
    }
  }
}
