/** Every message, whoever sends it, is a `Step` of the invariant. */
module ChainSteps {
  import opened Prelude
  import opened Decimals
  import opened Messages
  import opened Vault
  import opened VaultLedger
  import opened VaultHistory
  import opened Chain
  import opened ChainLaws
  import BToken
  import Vesting

  /** The invariant as one message sees it: its own promise is covered, and it is allowed. */
  ghost predicate Ready(w: World, m: Msg) {
    Core(w) && Allowed(w, m) && Deficit(w) + ONE * Promised(w.c, ToPay, m) <= 0
  }

  ghost predicate Steps(w: World, m: Msg)
    requires w.Readable()
  {
    Exec(w, m).Ok? ==> Step(w, m, Exec(w, m).value.0, Exec(w, m).value.1)
  }

  // ----- token

  lemma TokenTransferStep(w: World, m: Msg)
    requires Ready(w, m) && m.TokenTransfer?
    ensures Steps(w, m)
  {
    BToken.TransferConserves(w.token, m.from, m.to, m.amount);
  }

  lemma TokenMintStep(w: World, m: Msg)
    requires Ready(w, m) && m.TokenMint?
    ensures Steps(w, m)
  {
    BToken.MintConserves(w.token, m.from, m.to, m.amount);
  }

  lemma TokenBurnStep(w: World, m: Msg)
    requires Ready(w, m) && m.TokenBurn?
    ensures Steps(w, m)
  {
    BToken.BurnConserves(w.token, m.from, m.amount);
  }

  lemma TokenSendStep(w: World, m: Msg)
    requires Ready(w, m) && m.TokenSend?
    ensures Steps(w, m)
  {
    BToken.TransferConserves(w.token, m.from, m.to, m.amount);
    if Exec(w, m).Ok? {
      var msgs := Exec(w, m).value.1;
      if msgs != [] {
        forall p ensures Queue(w.c, p, msgs) == Promised(w.c, p, msgs[0]) {
          QueueOfTwo(w.c, p, msgs[0], msgs[0]);
        }
        assert Collects(w.c, m) ==> msgs[0] in msgs && Collects(w.c, msgs[0]);
      }
    }
  }

  // ----- vault

  /** An answer that settles: what it released was owed before or came in with the message. */
  lemma SettledStep(w: World, m: Msg, r: Reply, inflow: nat)
    requires Core(w) && Settled(w.c, w.vault, w.trace, r, inflow) && UnstakeBacked(r.state)
    requires Parked(r.state.action) + inflow <= Parked(w.vault.action) + Promised(w.c, ToPay, m)
    requires Promised(w.c, ToMint, m) == 0 == Promised(w.c, ToDelegate, m)
    requires r.state.action == NoAction || (r.state.action == w.vault.action && !Collects(w.c, m))
    ensures Step(w, m, w.(vault := r.state, trace := w.trace + r.ops), r.msgs)
  {
    PaymentsQueue(w.c, r.msgs);
  }

  lemma ParkedStep(w: World, m: Msg, r: Reply, action: Action)
    requires Core(w) && Park(w.vault, w.c, action) == Ok(r)
    requires Parked(action) == Promised(w.c, ToPay, m)
    requires action.UnstakeFor? ==> action.amount <= w.vault.StakeOf(action.user).stake
    requires Promised(w.c, ToMint, m) == 0 == Promised(w.c, ToDelegate, m)
    ensures Step(w, m, w.(vault := r.state, trace := w.trace + r.ops), r.msgs)
  {
    assert w.trace + [] == w.trace;
    var n := ConverterWithdraw(w.c.vault);
    AskQueue(w.c);
    assert n in r.msgs && Collects(w.c, n);
    ParkedCore(w, w.vault.(action := action));
  }

  lemma AskQueue(c: Contracts)
    ensures forall p :: Queue(c, p, [ConverterWithdraw(c.vault)]) == 0
  {
  }

  lemma ParkedCore(w: World, s: State)
    requires Core(w) && w.vault.action == NoAction && s == w.vault.(action := s.action) && UnstakeBacked(s)
    ensures Core(w.(vault := s)) && Deficit(w.(vault := s)) == Deficit(w) + ONE * Parked(s.action)
  {
    ActionIsFree(w.vault, s.action);
  }

  /** Tokens on their way in, parked or staked fit beside the stakes in a `Uint128`. */
  lemma NoStakeOverflow(w: World, m: Msg)
    requires Ready(w, m)
    ensures w.vault.staked + Parked(w.vault.action) + Promised(w.c, ToPay, m) < U128
  {
    RecordedIsConsistent(w.vault, w.trace);
    LiabilityCoversStakes(w.vault);
    BalanceFits(w.token, w.c.vault);
  }

  lemma BalanceFits(t: BToken.State, a: Addr)
    requires BToken.Conserved(t)
    ensures Get(t.balances, a) < U128
  {
    BToken.MintConserves(t, t.minter, a, 0);
    BToken.BurnConserves(t, a, Get(t.balances, a));
  }

  lemma ReceiveStakeStep(w: World, m: Msg)
    requires Ready(w, m) && m.VaultReceive? && m.hook.StakeHook?
    ensures Steps(w, m)
  {
    if m.from == w.c.token {
      if w.waiting > 0 {
        var answer := Park(w.vault, w.c, StakeFor(m.user, m.amount));
        if answer.Ok? {
          ParkedStep(w, m, answer.value, StakeFor(m.user, m.amount));
        }
      } else {
        NoStakeOverflow(w, m);
        var answer := StakeNow(w.vault, w.c, m.user, m.amount);
        if answer.Ok? {
          DirectStakeStep(w, m, answer.value);
        }
      }
    }
  }

  lemma DirectStakeStep(w: World, m: Msg, r: Reply)
    requires Ready(w, m) && m.VaultReceive? && m.from == w.c.token
    requires w.vault.staked + m.amount < U128
    requires StakeNow(w.vault, w.c, m.user, m.amount) == Ok(r) && !Collects(w.c, m)
    ensures Step(w, m, w.(vault := r.state, trace := w.trace + r.ops), r.msgs)
  {
    StakeSettles(w.c, w.vault, w.trace, m.user, m.amount, r);
    RecordedIsConsistent(w.vault, w.trace);
    StakeKeepsBacking(w.vault, w.c, m.user, m.amount, r);
    SettledStep(w, m, r, m.amount);
  }

  lemma StakeKeepsBacking(s: State, c: Contracts, user: Addr, amount: nat, r: Reply)
    requires Consistent(s) && s.staked + amount < U128
    requires UnstakeBacked(s) && StakeNow(s, c, user, amount) == Ok(r)
    ensures UnstakeBacked(r.state)
  {
    StakeWithinTotal(s, user);
  }

  lemma ReceiveRewardStep(w: World, m: Msg)
    requires Ready(w, m) && m.VaultReceive? && m.hook.DistributeHook?
    ensures Steps(w, m)
  {
    if m.from == w.c.token {
      var answer := OnDistribute(w.vault, w.c, m.from, m.amount, m.hook.user);
      if answer.Ok? {
        var r := answer.value;
        NoStakeOverflow(w, m);
        DistributeSettles(w.c, w.vault, w.trace, m.from, m.amount, m.hook.user, r);
        SettledStep(w, m, r, m.amount + Parked(w.vault.action));
      }
    }
  }

  lemma WithdrawStep(w: World, m: Msg)
    requires Ready(w, m) && m.VaultWithdraw?
    ensures Steps(w, m)
  {
    var answer := OnWithdraw(w.vault, w.c, w.waiting, m.user);
    if answer.Ok? {
      var r := answer.value;
      if w.waiting > 0 {
        ParkedStep(w, m, r, RewardTo(m.user));
      } else {
        OpRecorded(w.vault, w.trace, Settle(m.user));
        PaymentsQueue(w.c, r.msgs);
        SettledStep(w, m, r, 0);
      }
    }
  }

  lemma UnstakeStep(w: World, m: Msg)
    requires Ready(w, m) && m.VaultUnstake?
    ensures Steps(w, m)
  {
    var answer := OnUnstake(w.vault, w.c, w.waiting, m.from, m.amount);
    if answer.Ok? {
      var r := answer.value;
      if w.waiting > 0 {
        ParkedStep(w, m, r, UnstakeFor(m.from, m.amount));
      } else {
        UnstakeSettles(w.c, w.vault, w.trace, m.from, m.amount, r);
        SettledStep(w, m, r, 0);
      }
    }
  }

  lemma VaultDistributeStep(w: World, m: Msg)
    requires Ready(w, m) && m.VaultDistribute?
    ensures Steps(w, m)
  {
    var answer := SettleNow(w.vault, w.c, m.user);
    if answer.Ok? {
      SettleSettles(w.c, w.vault, w.trace, m.user, answer.value);
      SettledStep(w, m, answer.value, 0);
    }
  }

  /** Nobody can be the treasury's withdrawer, and the syne withdrawal is open only to the converter. */
  lemma FeeWithdrawalStep(w: World, m: Msg)
    requires Ready(w, m) && (m.VaultWithdrawTreasury? || m.VaultWithdrawSyne?)
    ensures Steps(w, m)
  {
    RecordedIsConsistent(w.vault, w.trace);
    if Exec(w, m).Ok? && w.waiting > 0 && m.VaultWithdrawSyne? {
      ParkedStep(w, m, OnWithdrawSyne(w.vault, w.c, w.waiting, m.from, m.share).value, SyneWithdraw(m.share));
    }
  }

  // ----- converter

  lemma QueueOfMany(c: Contracts, p: Promise, a: Msg, b: Msg, rest: seq<Msg>)
    ensures Queue(c, p, [a, b] + rest) == Promised(c, p, a) + Promised(c, p, b) + Queue(c, p, rest)
  {
  }

  lemma CollectQueue(w: World, p: Promise)
    requires Distinct(w.c)
    ensures Queue(w.c, p, Collect(w)) == if p == ToDelegate && w.kind.Bwynd? then w.waiting else 0
    ensures forall m :: m in Collect(w) ==> Internal(w.c, m)
  {
    var c := Collect(w);
    QueueOfTwo(w.c, p, c[0], c[|c| - 1]);
    assert w.kind.Bloop? ==> c == [c[0]];
    assert w.kind.Bwynd? ==> c == [c[0], c[1]];
  }

  lemma MintRewardQueue(w: World, p: Promise, user: Option<Addr>)
    requires Distinct(w.c)
    ensures Queue(w.c, p, MintReward(w, user)) == if p == ToMint then w.waiting else 0
    ensures forall m :: m in MintReward(w, user) ==> Internal(w.c, m)
    ensures exists m :: m in MintReward(w, user) && Collects(w.c, m)
  {
    var c := MintReward(w, user);
    QueueOfTwo(w.c, p, c[0], c[1]);
    assert c == [c[0], c[1]];
    assert c[1] in c && Collects(w.c, c[1]);
  }

  lemma ConverterWithdrawStep(w: World, m: Msg)
    requires Ready(w, m) && m.ConverterWithdraw?
    ensures Steps(w, m)
  {
    if w.waiting > 0 {
      var msgs := Collect(w) + MintReward(w, None);
      forall p ensures Queue(w.c, p, msgs) == Queue(w.c, p, Collect(w)) + Queue(w.c, p, MintReward(w, None)) {
        QueueAppend(w.c, p, Collect(w), MintReward(w, None));
      }
      CollectQueue(w, ToPay);
      CollectQueue(w, ToMint);
      CollectQueue(w, ToDelegate);
      MintRewardQueue(w, ToPay, None);
      MintRewardQueue(w, ToMint, None);
      MintRewardQueue(w, ToDelegate, None);
      var n :| n in MintReward(w, None) && Collects(w.c, n);
      assert n in msgs;
    }
  }

  /** What a conversion sends after the stake and the mint. */
  function ConvertTail(w: World, user: Addr): seq<Msg> {
    if w.waiting > 0
    then (if w.kind.Bwynd? then Collect(w) else []) + MintReward(w, Some(user))
    else [VaultDistribute(w.c.converter, user)]
  }

  lemma ConvertTailQueue(w: World, user: Addr, p: Promise)
    requires Distinct(w.c)
    ensures Queue(w.c, p, ConvertTail(w, user))
         == if p == ToMint || (p == ToDelegate && w.kind.Bwynd?) then w.waiting else 0
    ensures forall m :: m in ConvertTail(w, user) ==> Internal(w.c, m)
  {
    var last := VaultDistribute(w.c.converter, user);
    if w.waiting > 0 {
      CollectQueue(w, p);
      MintRewardQueue(w, p, Some(user));
      QueueAppend(w.c, p, if w.kind.Bwynd? then Collect(w) else [], MintReward(w, Some(user)));
    } else {
      QueueOfTwo(w.c, p, last, last);
    }
  }

  /** The messages of a conversion mint exactly what they delegate. */
  lemma ConvertQueue(w: World, from: Addr, user: Addr, amount: nat)
    requires Distinct(w.c) && ConvertMessages(w, from, user, amount).Ok?
    ensures var msgs := ConvertMessages(w, from, user, amount).value;
            && Queue(w.c, ToPay, msgs) == 0
            && (w.kind.Bwynd? ==> Queue(w.c, ToMint, msgs) == Queue(w.c, ToDelegate, msgs))
            && forall m :: m in msgs ==> Internal(w.c, m)
  {
    var a, b := StakeMessage(w, amount), TokenMint(w.c.converter, user, amount);
    assert ConvertMessages(w, from, user, amount).value == [a, b] + ConvertTail(w, user);
    QueueOfMany(w.c, ToPay, a, b, ConvertTail(w, user));
    QueueOfMany(w.c, ToMint, a, b, ConvertTail(w, user));
    QueueOfMany(w.c, ToDelegate, a, b, ConvertTail(w, user));
    ConvertTailQueue(w, user, ToPay);
    ConvertTailQueue(w, user, ToMint);
    ConvertTailQueue(w, user, ToDelegate);
  }

  lemma ConverterReceiveStep(w: World, m: Msg)
    requires Ready(w, m) && m.ConverterReceive?
    ensures Steps(w, m)
  {
    if Exec(w, m).Ok? {
      ConvertQueue(w, m.from, m.user, m.amount);
    }
  }

  // ----- underlying token and staking module

  lemma DelegatedAfter(w: World, op: Vesting.Op)
    requires w.Readable() && (op.OpTransfer? || op.OpDelegate?) && UnderlyingOp(w, op).Ok?
    ensures var w1 := UnderlyingOp(w, op).value;
            && w1 == w.(underlying := w1.underlying)
            && (w.kind.Bwynd? ==>
                  Get(w1.underlying.delegated, w.c.converter)
                    == Get(w.underlying.delegated, w.c.converter) + if op.OpDelegate? && op.from == w.c.converter then op.amount else 0)
  {
  }

  lemma UnderlyingStep(w: World, m: Msg)
    requires Ready(w, m)
    requires m.UnderlyingTransfer? || m.UnderlyingDelegate?
    ensures Steps(w, m)
  {
    if Exec(w, m).Ok? {
      match m
      case UnderlyingTransfer(from, to, amount) => DelegatedAfter(w, Vesting.OpTransfer(from, to, amount));
      case UnderlyingDelegate(from, amount) => DelegatedAfter(w, Vesting.OpDelegate(from, amount));
    }
  }

  lemma UnderlyingSendStep(w: World, m: Msg)
    requires Ready(w, m) && m.UnderlyingSend?
    ensures Steps(w, m)
  {
    if Exec(w, m).Ok? {
      DelegatedAfter(w, Vesting.OpTransfer(m.from, m.to, m.amount));
      var n := ConverterReceive(w.c.underlying, m.from, m.amount, m.hook);
      forall p ensures Queue(w.c, p, [n]) == 0 {
        QueueOfTwo(w.c, p, n, n);
      }
    }
  }

  lemma StakingStep(w: World, m: Msg)
    requires Ready(w, m)
    requires m.StakingWithdraw? || m.StakingRestake? || m.StakingStake?
    ensures Steps(w, m)
  {
    if Exec(w, m).Ok? && m.StakingWithdraw? && m.from == w.c.converter {
      DelegatedAfter(w, Vesting.OpTransfer(w.c.staking, m.from, w.waiting));
    }
  }

  /** Every message of the bToken contracts keeps the invariant. */
  lemma EveryMessageSteps(w: World, m: Msg)
    requires Ready(w, m)
    ensures Steps(w, m)
  {
    match m
    case TokenTransfer(_, _, _) => TokenTransferStep(w, m);
    case TokenSend(_, _, _, _) => TokenSendStep(w, m);
    case TokenMint(_, _, _) => TokenMintStep(w, m);
    case TokenBurn(_, _) => TokenBurnStep(w, m);
    case VaultReceive(_, _, _, hook) =>
      if hook.StakeHook? { ReceiveStakeStep(w, m); } else if hook.DistributeHook? { ReceiveRewardStep(w, m); }
    case VaultWithdraw(_, _) => WithdrawStep(w, m);
    case VaultUnstake(_, _) => UnstakeStep(w, m);
    case VaultDistribute(_, _) => VaultDistributeStep(w, m);
    case VaultWithdrawTreasury(_, _) => FeeWithdrawalStep(w, m);
    case VaultWithdrawSyne(_, _) => FeeWithdrawalStep(w, m);
    case ConverterReceive(_, _, _, _) => ConverterReceiveStep(w, m);
    case ConverterWithdraw(_) => ConverterWithdrawStep(w, m);
    case UnderlyingTransfer(_, _, _) => UnderlyingStep(w, m);
    case UnderlyingSend(_, _, _, _) => UnderlyingSendStep(w, m);
    case UnderlyingDelegate(_, _) => UnderlyingStep(w, m);
    case StakingWithdraw(_) => StakingStep(w, m);
    case StakingRestake(_) => StakingStep(w, m);
    case StakingStake(_, _) => StakingStep(w, m);
  }
}
