/**
 * The bToken contracts together: converter, token, vault, and the underlying token the converter
 * stakes. A transaction is a stack of messages executed depth first; it commits as a whole or
 * leaves the world as it was. The staking module is not part of the sources: it reports a waiting
 * reward, and when asked by the converter it pays exactly that much and then reports nothing.
 */
module Chain {
  import opened Prelude
  import opened Decimals
  import opened Messages
  import Vault
  import BToken
  import Vesting

  /** bWYND stakes by delegating in the vesting token; bLOOP stakes by sending LOOP away. */
  datatype Kind = Bwynd | Bloop

  datatype World = World(
    c: Contracts, kind: Kind, block: Vesting.Block, waiting: nat,
    vault: Vault.State, token: BToken.State, underlying: Vesting.State,
    burned: nat, trace: seq<Vault.Op>)
  {
    ghost predicate Readable() {
      underlying.Readable()
    }

    function Balance(a: Addr): nat {
      Get(token.balances, a)
    }
  }

  // ----- the converter's message lists

  /** Claim the waiting reward and stake it again. */
  function Collect(w: World): seq<Msg> {
    match w.kind
    case Bwynd => [StakingWithdraw(w.c.converter), UnderlyingDelegate(w.c.converter, w.waiting)]
    case Bloop => [StakingRestake(w.c.converter)]
  }

  /** Mint the reward as bTokens and hand it to the vault. */
  function MintReward(w: World, user: Option<Addr>): seq<Msg> {
    [TokenMint(w.c.converter, w.c.converter, w.waiting),
     TokenSend(w.c.converter, w.c.vault, w.waiting, DistributeHook(user))]
  }

  /** `execute_withdraw_rewards` */
  function WithdrawMessages(w: World): Result<seq<Msg>> {
    if w.waiting == 0 then Err else Ok(Collect(w) + MintReward(w, None))
  }

  function StakeMessage(w: World, amount: nat): Msg {
    match w.kind
    case Bwynd => UnderlyingDelegate(w.c.converter, amount)
    case Bloop => StakingStake(w.c.converter, amount)
  }

  /** `execute_convert_token`: bLOOP does not claim here, staking more is expected to settle. */
  function ConvertMessages(w: World, from: Addr, user: Addr, amount: nat): Result<seq<Msg>> {
    if from != w.c.underlying || amount == 0 then Err
    else
      var first := [StakeMessage(w, amount), TokenMint(w.c.converter, user, amount)];
      if w.waiting > 0
      then Ok(first + (if w.kind.Bwynd? then Collect(w) else []) + MintReward(w, Some(user)))
      else Ok(first + [VaultDistribute(w.c.converter, user)])
  }

  // ----- one message

  function AfterVault(w: World, r: Result<Vault.Reply>): Result<(World, seq<Msg>)> {
    if r.Err? then Err
    else Ok((w.(vault := r.value.state, trace := w.trace + r.value.ops), r.value.msgs))
  }

  function UnderlyingOp(w: World, op: Vesting.Op): (r: Result<World>)
    requires w.Readable()
    ensures r.Ok? ==> r.value.Readable()
  {
    if w.kind.Bloop? then Ok(w)
    else
      var u :- Vesting.Apply(w.underlying, w.block, op);
      Ok(w.(underlying := u))
  }

  function Exec(w: World, m: Msg): (r: Result<(World, seq<Msg>)>)
    requires w.Readable()
    ensures r.Ok? ==> r.value.0.Readable()
  {
    match m
    case TokenTransfer(from, to, amount) =>
      var t :- BToken.Transfer(w.token, from, to, amount);
      Ok((w.(token := t), []))
    case TokenSend(from, to, amount, hook) =>
      var t :- BToken.Transfer(w.token, from, to, amount);
      Ok((w.(token := t),
        if to == w.c.vault then [VaultReceive(w.c.token, from, amount, hook)]
        else if to == w.c.converter then [ConverterReceive(w.c.token, from, amount, hook)]
        else []))
    case TokenMint(from, to, amount) =>
      var t :- BToken.Mint(w.token, from, to, amount);
      Ok((w.(token := t), []))
    case TokenBurn(from, amount) =>
      var t :- BToken.Burn(w.token, from, amount);
      Ok((w.(token := t, burned := w.burned + amount), []))
    case VaultReceive(from, user, amount, hook) =>
      AfterVault(w, Vault.OnReceive(w.vault, w.c, w.waiting, from, user, amount, hook))
    case VaultWithdraw(_, user) => AfterVault(w, Vault.OnWithdraw(w.vault, w.c, w.waiting, user))
    case VaultUnstake(from, amount) => AfterVault(w, Vault.OnUnstake(w.vault, w.c, w.waiting, from, amount))
    case VaultDistribute(_, user) => AfterVault(w, Vault.SettleNow(w.vault, w.c, user))
    case VaultWithdrawTreasury(from, share) =>
      AfterVault(w, Vault.OnWithdrawTreasury(w.vault, w.c, w.waiting, from, share))
    case VaultWithdrawSyne(from, share) =>
      AfterVault(w, Vault.OnWithdrawSyne(w.vault, w.c, w.waiting, from, share))
    case ConverterReceive(from, user, amount, hook) =>
      if hook != ConvertHook then Err
      else
        var msgs :- ConvertMessages(w, from, user, amount);
        Ok((w, msgs))
    case ConverterWithdraw(_) =>
      var msgs :- WithdrawMessages(w);
      Ok((w, msgs))
    case UnderlyingTransfer(from, to, amount) =>
      var w1 :- UnderlyingOp(w, Vesting.OpTransfer(from, to, amount));
      Ok((w1, []))
    case UnderlyingSend(from, to, amount, hook) =>
      var w1 :- UnderlyingOp(w, Vesting.OpTransfer(from, to, amount));
      Ok((w1, if to == w.c.converter then [ConverterReceive(w.c.underlying, from, amount, hook)] else []))
    case UnderlyingDelegate(from, amount) =>
      var w1 :- UnderlyingOp(w, Vesting.OpDelegate(from, amount));
      Ok((w1, []))
    case StakingWithdraw(from) =>
      if from != w.c.converter then Ok((w, []))
      else
        var w1 :- UnderlyingOp(w, Vesting.OpTransfer(w.c.staking, from, w.waiting));
        Ok((w1.(waiting := 0), []))
    case StakingRestake(from) =>
      Ok((if from == w.c.converter then w.(waiting := 0) else w, []))
    case StakingStake(_, _) => Ok((w, []))
  }

  // ----- a transaction

  /** An upper bound on the messages a message can still cause, itself included. */
  function Weight(m: Msg): nat {
    match m
    case TokenSend(_, _, _, hook) => if hook.DistributeHook? then 4 else 11
    case VaultReceive(_, _, _, hook) => if hook.DistributeHook? then 3 else 10
    case VaultWithdraw(_, _) => 9
    case VaultUnstake(_, _) => 9
    case VaultDistribute(_, _) => 2
    case VaultWithdrawTreasury(_, _) => 9
    case VaultWithdrawSyne(_, _) => 9
    case ConverterReceive(_, _, _, hook) => if hook.ConvertHook? then 10 else 1
    case ConverterWithdraw(_) => 8
    case UnderlyingSend(_, _, _, _) => 11
    case _ => 1
  }

  function StackWeight(stack: seq<Msg>): nat {
    if stack == [] then 0 else Weight(stack[0]) + StackWeight(stack[1..])
  }

  lemma {:induction false} StackWeightAppend(a: seq<Msg>, b: seq<Msg>)
    ensures StackWeight(a + b) == StackWeight(a) + StackWeight(b)
  {
    if a == [] {
      assert a + b == b;
    } else {
      StackWeightAppend(a[1..], b);
      assert (a + b)[1..] == a[1..] + b;
    }
  }

  lemma WeightOfTwo(a: Msg, b: Msg)
    ensures StackWeight([a]) == Weight(a) && StackWeight([a, b]) == Weight(a) + Weight(b)
  {
    assert [a][1..] == [] && [b][1..] == [] && [a, b][1..] == [b];
    assert StackWeight([b]) == Weight(b);
  }

  lemma ConverterMessagesWeigh(w: World, from: Addr, user: Addr, amount: nat)
    ensures WithdrawMessages(w).Ok? ==> StackWeight(WithdrawMessages(w).value) < 8
    ensures ConvertMessages(w, from, user, amount).Ok? ==> StackWeight(ConvertMessages(w, from, user, amount).value) < 10
  {
    var collect := Collect(w);
    var claim := if w.kind.Bwynd? then collect else [];
    var first := [StakeMessage(w, amount), TokenMint(w.c.converter, user, amount)];
    var last := VaultDistribute(w.c.converter, user);
    WeightOfTwo(collect[0], collect[|collect| - 1]);
    WeightOfTwo(MintReward(w, None)[0], MintReward(w, None)[1]);
    WeightOfTwo(MintReward(w, Some(user))[0], MintReward(w, Some(user))[1]);
    WeightOfTwo(first[0], first[1]);
    WeightOfTwo(last, last);
    StackWeightAppend(collect, MintReward(w, None));
    StackWeightAppend(first, claim);
    StackWeightAppend(first + claim, MintReward(w, Some(user)));
    StackWeightAppend(first, [last]);
    assert first + claim + MintReward(w, Some(user)) == first + (claim + MintReward(w, Some(user)));
  }

  ghost predicate Payments(c: Contracts, msgs: seq<Msg>) {
    |msgs| <= 2 && forall m :: m in msgs ==> m.TokenTransfer? && m.from == c.vault
  }

  /** The vault answers with at most two payments, or by asking the converter to collect. */
  ghost predicate Answers(c: Contracts, msgs: seq<Msg>) {
    Payments(c, msgs) || msgs == [ConverterWithdraw(c.vault)]
  }

  lemma PaymentsWeigh(c: Contracts, msgs: seq<Msg>)
    requires Payments(c, msgs)
    ensures StackWeight(msgs) == |msgs|
  {
    if |msgs| == 1 {
      WeightOfTwo(msgs[0], msgs[0]);
      assert msgs == [msgs[0]];
    } else if |msgs| == 2 {
      WeightOfTwo(msgs[0], msgs[1]);
      assert msgs == [msgs[0], msgs[1]];
    }
  }

  lemma AnswersWeigh(c: Contracts, r: Result<Vault.Reply>)
    requires r.Ok? && Answers(c, r.value.msgs)
    ensures StackWeight(r.value.msgs) <= 8
  {
    WeightOfTwo(ConverterWithdraw(c.vault), ConverterWithdraw(c.vault));
    if Payments(c, r.value.msgs) {
      PaymentsWeigh(c, r.value.msgs);
    }
  }

  lemma DistributePays(s: Vault.State, c: Contracts, from: Addr, amount: nat, user: Option<Addr>)
    requires Vault.OnDistribute(s, c, from, amount, user).Ok?
    ensures Payments(c, Vault.OnDistribute(s, c, from, amount, user).value.msgs)
  {
  }

  lemma ReceiveAnswers(w: World, m: Msg)
    requires w.Readable() && m.VaultReceive? && Exec(w, m).Ok?
    ensures Answers(w.c, Exec(w, m).value.1)
    ensures m.hook.DistributeHook? ==> Payments(w.c, Exec(w, m).value.1)
  {
    if m.hook.DistributeHook? {
      DistributePays(w.vault, w.c, m.from, m.amount, m.hook.user);
    }
  }

  /** Every message causes only lighter ones, so a transaction ends. */
  lemma ExecLightens(w: World, m: Msg)
    requires w.Readable() && Exec(w, m).Ok?
    ensures StackWeight(Exec(w, m).value.1) < Weight(m)
  {
    match m
    case ConverterReceive(from, user, amount, _) => ConverterMessagesWeigh(w, from, user, amount);
    case ConverterWithdraw(from) => ConverterMessagesWeigh(w, from, from, 0);
    case TokenSend(_, _, _, _) => SendLightens(w, m);
    case UnderlyingSend(_, _, _, _) => SendLightens(w, m);
    case VaultReceive(_, _, _, _) => ReceiveLightens(w, m);
    case VaultWithdraw(_, _) => VaultLightens(w, m);
    case VaultUnstake(_, _) => VaultLightens(w, m);
    case VaultDistribute(_, _) => PaymentsWeigh(w.c, Exec(w, m).value.1);
    case VaultWithdrawTreasury(_, _) => FeesLighten(w, m);
    case VaultWithdrawSyne(_, _) => FeesLighten(w, m);
    case _ =>
  }

  lemma SendLightens(w: World, m: Msg)
    requires w.Readable() && (m.TokenSend? || m.UnderlyingSend?) && Exec(w, m).Ok?
    ensures StackWeight(Exec(w, m).value.1) < Weight(m)
  {
    WeightOfTwo(VaultReceive(w.c.token, m.from, m.amount, m.hook), m);
    WeightOfTwo(ConverterReceive(w.c.token, m.from, m.amount, m.hook), m);
    WeightOfTwo(ConverterReceive(w.c.underlying, m.from, m.amount, m.hook), m);
  }

  lemma ReceiveLightens(w: World, m: Msg)
    requires w.Readable() && m.VaultReceive? && Exec(w, m).Ok?
    ensures StackWeight(Exec(w, m).value.1) < Weight(m)
  {
    ReceiveAnswers(w, m);
    AnswersWeigh(w.c, Vault.OnReceive(w.vault, w.c, w.waiting, m.from, m.user, m.amount, m.hook));
    if m.hook.DistributeHook? {
      PaymentsWeigh(w.c, Exec(w, m).value.1);
    }
  }

  lemma VaultLightens(w: World, m: Msg)
    requires w.Readable() && (m.VaultWithdraw? || m.VaultUnstake?) && Exec(w, m).Ok?
    ensures StackWeight(Exec(w, m).value.1) < Weight(m)
  {
    match m
    case VaultWithdraw(_, user) => AnswersWeigh(w.c, Vault.OnWithdraw(w.vault, w.c, w.waiting, user));
    case VaultUnstake(from, amount) => AnswersWeigh(w.c, Vault.OnUnstake(w.vault, w.c, w.waiting, from, amount));
  }

  lemma FeesLighten(w: World, m: Msg)
    requires w.Readable() && (m.VaultWithdrawTreasury? || m.VaultWithdrawSyne?) && Exec(w, m).Ok?
    ensures StackWeight(Exec(w, m).value.1) < Weight(m)
  {
    match m
    case VaultWithdrawTreasury(from, share) => AnswersWeigh(w.c, Vault.OnWithdrawTreasury(w.vault, w.c, w.waiting, from, share));
    case VaultWithdrawSyne(from, share) => AnswersWeigh(w.c, Vault.OnWithdrawSyne(w.vault, w.c, w.waiting, from, share));
  }

  function Run(w: World, stack: seq<Msg>): (r: Result<World>)
    requires w.Readable()
    ensures r.Ok? ==> r.value.Readable()
    decreases StackWeight(stack)
  {
    if stack == [] then Ok(w)
    else
      match Exec(w, stack[0])
      case Err => Err
      case Ok((w1, msgs)) =>
        ExecLightens(w, stack[0]);
        StackWeightAppend(msgs, stack[1..]);
        Run(w1, msgs + stack[1..])
  }

  /** A top-level call: all or nothing. */
  function Transact(w: World, m: Msg): (w1: World)
    requires w.Readable()
    ensures w1.Readable()
  {
    match Run(w, [m])
    case Ok(w1) => w1
    case Err => w
  }
}
