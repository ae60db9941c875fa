/**
 * What a conversion does for the user who sends the underlying token: as many bTokens, all owed
 * rewards, and a settled entry - through every message the converter, the tokens and the vault
 * exchange, with or without a reward to collect on the way.
 */
module Conversions {
  import opened Prelude
  import opened Messages
  import opened Vault
  import opened VaultLedger
  import opened Chain
  import opened ChainLaws
  import opened ChainRuns
  import opened ParkedActions
  import opened ActionEquivalence
  import opened Forecast
  import opened Payouts
  import BToken
  import Vesting

  /** The vault's storage once the waiting reward, if any, is distributed. */
  function Distributed(s: State, waiting: nat): Result<State> {
    if 0 < waiting then UpdateTotalRewards(s, waiting) else Ok(s)
  }

  function OwedIn(s: State, user: Addr): Result<nat> {
    PendingReward(s.power, s.StakeOf(user))
  }

  // ----- the messages, one after the other

  lemma SendExecutes(w: World, user: Addr, amount: nat, op: Vesting.Op)
    requires w.Readable() && op == Vesting.OpTransfer(user, w.c.converter, amount)
    ensures Exec(w, UnderlyingSend(user, w.c.converter, amount, ConvertHook))
         == match UnderlyingOp(w, op)
            case Err => Err
            case Ok(w1) => Ok((w1, [ConverterReceive(w.c.underlying, user, amount, ConvertHook)]))
  {
  }

  lemma SendStarts(w: World, user: Addr, amount: nat)
    requires w.Readable() && Run(w, [UnderlyingSend(user, w.c.converter, amount, ConvertHook)]).Ok?
    ensures UnderlyingOp(w, Vesting.OpTransfer(user, w.c.converter, amount)).Ok?
    ensures Run(w, [UnderlyingSend(user, w.c.converter, amount, ConvertHook)])
         == Run(UnderlyingOp(w, Vesting.OpTransfer(user, w.c.converter, amount)).value,
                [ConverterReceive(w.c.underlying, user, amount, ConvertHook)])
  {
    var m, op := UnderlyingSend(user, w.c.converter, amount, ConvertHook), Vesting.OpTransfer(user, w.c.converter, amount);
    SendExecutes(w, user, amount, op);
    assert [m] + [] == [m];
    RunNext(w, m, []);
    RunSingle(w, m, UnderlyingOp(w, op).value, [ConverterReceive(w.c.underlying, user, amount, ConvertHook)]);
  }

  lemma ReceiveStarts(w: World, user: Addr, amount: nat)
    requires w.Readable() && Run(w, [ConverterReceive(w.c.underlying, user, amount, ConvertHook)]).Ok?
    ensures ConvertMessages(w, w.c.underlying, user, amount).Ok?
    ensures Run(w, [ConverterReceive(w.c.underlying, user, amount, ConvertHook)])
         == Run(w, ConvertMessages(w, w.c.underlying, user, amount).value)
  {
    var m := ConverterReceive(w.c.underlying, user, amount, ConvertHook);
    assert [m] + [] == [m];
    RunNext(w, m, []);
    RunSingle(w, m, w, ConvertMessages(w, w.c.underlying, user, amount).value);
  }

  /** The tokens sent arrive at the converter, which answers with its list. */
  lemma ConvertStarts(w: World, user: Addr, amount: nat)
    requires w.Readable()
    requires Run(w, [UnderlyingSend(user, w.c.converter, amount, ConvertHook)]).Ok?
    ensures UnderlyingOp(w, Vesting.OpTransfer(user, w.c.converter, amount)).Ok?
    ensures var w1 := UnderlyingOp(w, Vesting.OpTransfer(user, w.c.converter, amount)).value;
            var msgs := ConvertMessages(w1, w.c.underlying, user, amount);
            msgs.Ok? && Run(w, [UnderlyingSend(user, w.c.converter, amount, ConvertHook)]) == Run(w1, msgs.value)
  {
    SendStarts(w, user, amount);
    ReceiveStarts(UnderlyingOp(w, Vesting.OpTransfer(user, w.c.converter, amount)).value, user, amount);
  }

  /** The world once the sent tokens are staked and the same number of bTokens minted to `user`. */
  function Issued(w: World, user: Addr, amount: nat): (r: Result<World>)
    requires w.Readable()
    ensures r.Ok? ==> r.value.Readable()
  {
    var w1 :- UnderlyingOp(w, Vesting.OpDelegate(w.c.converter, amount));
    var t :- BToken.Mint(w1.token, w.c.converter, user, amount);
    Ok(w1.(token := t))
  }

  lemma StakeMessageRuns(w: World, amount: nat, rest: seq<Msg>)
    requires w.Readable() && Run(w, [StakeMessage(w, amount)] + rest).Ok?
    ensures UnderlyingOp(w, Vesting.OpDelegate(w.c.converter, amount)).Ok?
    ensures Run(w, [StakeMessage(w, amount)] + rest)
         == Run(UnderlyingOp(w, Vesting.OpDelegate(w.c.converter, amount)).value, rest)
  {
    if w.kind.Bwynd? {
      DelegateRuns(w, amount, rest);
    } else {
      RunQuiet(w, StakingStake(w.c.converter, amount), rest, Ok(w));
    }
  }

  lemma MintMessageRuns(w: World, user: Addr, amount: nat, rest: seq<Msg>)
    requires w.Readable() && Run(w, [TokenMint(w.c.converter, user, amount)] + rest).Ok?
    ensures BToken.Mint(w.token, w.c.converter, user, amount).Ok?
    ensures Run(w, [TokenMint(w.c.converter, user, amount)] + rest)
         == Run(w.(token := BToken.Mint(w.token, w.c.converter, user, amount).value), rest)
  {
    var t := BToken.Mint(w.token, w.c.converter, user, amount);
    RunQuiet(w, TokenMint(w.c.converter, user, amount), rest, if t.Ok? then Ok(w.(token := t.value)) else Err);
  }

  lemma StakeThenMint(w: World, user: Addr, amount: nat, rest: seq<Msg>)
    requires w.Readable()
    requires Run(w, [StakeMessage(w, amount), TokenMint(w.c.converter, user, amount)] + rest).Ok?
    ensures Issued(w, user, amount).Ok?
    ensures Run(w, [StakeMessage(w, amount), TokenMint(w.c.converter, user, amount)] + rest)
         == Run(Issued(w, user, amount).value, rest)
  {
    var first, mint := StakeMessage(w, amount), TokenMint(w.c.converter, user, amount);
    assert [first, mint] + rest == [first] + ([mint] + rest);
    StakeMessageRuns(w, amount, [mint] + rest);
    MintMessageRuns(UnderlyingOp(w, Vesting.OpDelegate(w.c.converter, amount)).value, user, amount, rest);
  }

  /** The reward that was waiting, claimed by the bWYND converter only. */
  function Claimed(w: World): (r: Result<World>)
    requires w.Readable()
    ensures r.Ok? ==> r.value.Readable()
  {
    if w.kind.Bwynd? then Claim(w) else Ok(w)
  }

  lemma ClaimedRuns(w: World, rest: seq<Msg>)
    requires w.Readable() && Run(w, (if w.kind.Bwynd? then Collect(w) else []) + rest).Ok?
    ensures Claimed(w).Ok? && Claimed(w).value.c == w.c && Claimed(w).value.token == w.token
    ensures Run(w, (if w.kind.Bwynd? then Collect(w) else []) + rest) == Run(Claimed(w).value, rest)
  {
    if w.kind.Bwynd? {
      ClaimRuns(w, rest);
    } else {
      assert [] + rest == rest;
    }
  }

  /** With a reward waiting: it is minted to the vault, which distributes it and settles the user. */
  lemma RewardTailRuns(w: World, user: Addr)
    requires w.Readable() && Distinct(w.c)
    requires Run(w, (if w.kind.Bwynd? then Collect(w) else []) + MintReward(w, Some(user))).Ok?
    ensures Claimed(w).Ok? && MintToVault(w, w.token).Ok?
    ensures var w1 := Claimed(w).value.(token := MintToVault(w, w.token).value);
            Run(w, (if w.kind.Bwynd? then Collect(w) else []) + MintReward(w, Some(user)))
              == Run(w1, [RewardNotice(w, Some(user))])
  {
    var mint := MintReward(w, Some(user));
    ClaimedRuns(w, mint);
    assert mint + [] == mint;
    MintRuns(w, Claimed(w).value, Some(user), []);
    assert [RewardNotice(w, Some(user))] + [] == [RewardNotice(w, Some(user))];
  }

  /** Paying a user touches the bToken ledger only. */
  lemma PayTouchesLedger(w: World, user: Addr, amount: nat)
    requires w.Readable() && Run(w, Pay(w.c, user, amount)).Ok?
    ensures var w1 := Run(w, Pay(w.c, user, amount)).value; w1 == w.(token := w1.token)
  {
    if 0 < amount {
      var t := BToken.Transfer(w.token, w.c.vault, user, amount);
      assert Pay(w.c, user, amount) == [TokenTransfer(w.c.vault, user, amount)] + [];
      RunQuiet(w, TokenTransfer(w.c.vault, user, amount), [], if t.Ok? then Ok(w.(token := t.value)) else Err);
    }
  }

  // ----- what the vault does for the user

  /** The user's entry is settled and the reward paid; nothing outside vault and ledger moves. */
  ghost predicate SettledFor(w: World, s: State, user: Addr, w1: World) {
    && OwedIn(s, user).Ok?
    && w1.Balance(user) == w.Balance(user) + OwedIn(s, user).value
    && w1.vault.StakeOf(user).stake == s.StakeOf(user).stake && w1.vault.staked == s.staked
    && Earned(w1.vault, user) == 0
    && w1.underlying == w.underlying && w1.waiting == w.waiting
  }

  lemma SettlementRuns(w: World, s: State, user: Addr, r: Reply)
    requires w.Readable() && BToken.Conserved(w.token) && user != w.c.vault && Consistent(s)
    requires SettleNow(s, w.c, user).Ok? && r.msgs == SettleNow(s, w.c, user).value.msgs
    requires r.state == SettleNow(s, w.c, user).value.state.(action := r.state.action)
    requires Run(WithReply(w, r), r.msgs).Ok?
    ensures SettledFor(w, s, user, Run(WithReply(w, r), r.msgs).value)
  {
    var paid := Apply(s, Settle(user)).value.1;
    PayArrives(WithReply(w, r), user, paid);
    PayTouchesLedger(WithReply(w, r), user, paid);
    SettledStake(s, user);
  }

  /** Without a reward waiting the converter asks the vault to settle the user. */
  lemma DistributeMessageRuns(w: World, user: Addr)
    requires w.Readable() && BToken.Conserved(w.token) && user != w.c.vault && Consistent(w.vault)
    requires Run(w, [VaultDistribute(w.c.converter, user)]).Ok?
    ensures SettledFor(w, w.vault, user, Run(w, [VaultDistribute(w.c.converter, user)]).value)
  {
    AnswerRuns(w, VaultDistribute(w.c.converter, user), SettleNow(w.vault, w.c, user));
    SettlementRuns(w, w.vault, user, SettleNow(w.vault, w.c, user).value);
  }

  /** With a reward: the vault distributes it first. */
  lemma RewardMessageRuns(w: World, user: Addr, reward: nat)
    requires w.Readable() && BToken.Conserved(w.token) && user != w.c.vault && Consistent(w.vault)
    requires Run(w, [VaultReceive(w.c.token, w.c.converter, reward, DistributeHook(Some(user)))]).Ok?
    ensures UpdateTotalRewards(w.vault, reward).Ok?
    ensures SettledFor(w, UpdateTotalRewards(w.vault, reward).value, user,
                       Run(w, [VaultReceive(w.c.token, w.c.converter, reward, DistributeHook(Some(user)))]).value)
  {
    NoticeRuns(w, w.c.converter, reward, Some(user));
    var r := OnDistribute(w.vault, w.c, w.c.token, reward, Some(user)).value;
    var s1 := UpdateTotalRewards(w.vault, reward).value;
    OpKeepsBooks(w.vault, Distribute(reward));
    SettlementRuns(w, s1, user, r);
  }

  // ----- the ledgers

  /** Minting the reward and handing it to the vault leaves users alone. */
  lemma RewardMintLeavesUsers(w: World, user: Addr)
    requires BToken.Conserved(w.token) && MintToVault(w, w.token).Ok? && user != w.c.vault && user != w.c.converter
    ensures var t := MintToVault(w, w.token).value; BToken.Conserved(t) && Get(t.balances, user) == w.Balance(user)
  {
    BToken.MintConserves(w.token, w.c.converter, w.c.converter, w.waiting);
    var t := BToken.Mint(w.token, w.c.converter, w.c.converter, w.waiting).value;
    BToken.TransferConserves(t, w.c.converter, w.c.vault, w.waiting);
  }

  /** The tokens sent leave the user and are delegated for the converter. */
  lemma UnderlyingMoves(w: World, user: Addr, amount: nat)
    requires w.Readable() && w.kind.Bwynd? && user != w.c.converter && w.underlying.staking != Some(user)
    requires UnderlyingOp(w, Vesting.OpTransfer(user, w.c.converter, amount)).Ok?
    requires var w1 := UnderlyingOp(w, Vesting.OpTransfer(user, w.c.converter, amount)).value; Issued(w1, user, amount).Ok?
    ensures var w1 := UnderlyingOp(w, Vesting.OpTransfer(user, w.c.converter, amount)).value;
            var w2 := Issued(w1, user, amount).value;
            && Get(w2.underlying.balances, user) == Get(w.underlying.balances, user) - amount
            && Get(w2.underlying.delegated, w.c.converter) == Get(w.underlying.delegated, w.c.converter) + amount
            && w2.underlying.staking == w.underlying.staking
  {
  }

  /** Claiming a reward leaves the user's underlying balance alone and delegates the reward. */
  lemma ClaimLeavesUser(w: World, user: Addr)
    requires w.Readable() && w.kind.Bwynd? && Claim(w).Ok?
    requires user != w.c.converter && user != w.c.staking && w.underlying.staking != Some(user)
    ensures var w1 := Claim(w).value;
            && Get(w1.underlying.balances, user) == Get(w.underlying.balances, user)
            && Get(w1.underlying.delegated, w.c.converter) == Get(w.underlying.delegated, w.c.converter) + w.waiting
            && w1.waiting == 0
  {
  }

  // ----- the whole conversion

  /** Everything after the issue: the reward, if one waits, and the settlement. */
  function Tail(w: World, user: Addr): seq<Msg> {
    if w.waiting > 0 then (if w.kind.Bwynd? then Collect(w) else []) + MintReward(w, Some(user))
    else [VaultDistribute(w.c.converter, user)]
  }

  lemma TailPaysOut(w: World, user: Addr)
    requires w.Readable() && Distinct(w.c) && BToken.Conserved(w.token) && Consistent(w.vault)
    requires user !in ContractSet(w.c) && Run(w, Tail(w, user)).Ok?
    ensures Distributed(w.vault, w.waiting).Ok? && OwedIn(Distributed(w.vault, w.waiting).value, user).Ok?
    ensures var s, w1 := Distributed(w.vault, w.waiting).value, Run(w, Tail(w, user)).value;
            && w1.Balance(user) == w.Balance(user) + OwedIn(s, user).value
            && w1.vault.StakeOf(user).stake == s.StakeOf(user).stake && w1.vault.staked == s.staked
            && Earned(w1.vault, user) == 0
            && (0 < w.waiting ==> Claimed(w).Ok?)
            && w1.underlying == (if 0 < w.waiting then Claimed(w).value.underlying else w.underlying)
            && w1.waiting == (if 0 < w.waiting then Claimed(w).value.waiting else 0)
  {
    if 0 < w.waiting {
      RewardTailRuns(w, user);
      RewardMintLeavesUsers(w, user);
      var w1 := Claimed(w).value.(token := MintToVault(w, w.token).value);
      RewardMessageRuns(w1, user, w.waiting);
    } else {
      DistributeMessageRuns(w, user);
    }
  }

  lemma MessagesSplit(w: World, user: Addr, amount: nat)
    requires ConvertMessages(w, w.c.underlying, user, amount).Ok?
    ensures 0 < amount
    ensures ConvertMessages(w, w.c.underlying, user, amount).value
         == [StakeMessage(w, amount), TokenMint(w.c.converter, user, amount)] + Tail(w, user)
  {
    var first, claim := [StakeMessage(w, amount), TokenMint(w.c.converter, user, amount)], if w.kind.Bwynd? then Collect(w) else [];
    assert first + claim + MintReward(w, Some(user)) == first + (claim + MintReward(w, Some(user)));
  }

  lemma IssueThenTail(w: World, user: Addr, amount: nat)
    requires w.Readable() && ConvertMessages(w, w.c.underlying, user, amount).Ok?
    requires Run(w, ConvertMessages(w, w.c.underlying, user, amount).value).Ok?
    ensures 0 < amount && Issued(w, user, amount).Ok?
    ensures Run(w, ConvertMessages(w, w.c.underlying, user, amount).value)
         == Run(Issued(w, user, amount).value, Tail(Issued(w, user, amount).value, user))
  {
    MessagesSplit(w, user, amount);
    StakeThenMint(w, user, amount, Tail(w, user));
    assert Tail(Issued(w, user, amount).value, user) == Tail(w, user);
  }

  /**
   * A conversion that goes through gives the user exactly as many bTokens as were sent, and all owed
   * rewards, those waiting included; it leaves the stake and starts the earnings afresh.
   */
  lemma ConvertPaysOut(w: World, user: Addr, amount: nat)
    requires Inv(w, []) && user !in ContractSet(w.c)
    requires Run(w, [UnderlyingSend(user, w.c.converter, amount, ConvertHook)]).Ok?
    ensures 0 < amount
    ensures Distributed(w.vault, w.waiting).Ok? && OwedIn(Distributed(w.vault, w.waiting).value, user).Ok?
    ensures var w1 := Run(w, [UnderlyingSend(user, w.c.converter, amount, ConvertHook)]).value;
            && w1.Balance(user) == w.Balance(user) + amount + OwedIn(Distributed(w.vault, w.waiting).value, user).value
            && w1.vault.StakeOf(user).stake == w.vault.StakeOf(user).stake && w1.vault.staked == w.vault.staked
            && Earned(w1.vault, user) == 0
  {
    ConvertStarts(w, user, amount);
    var w1 := UnderlyingOp(w, Vesting.OpTransfer(user, w.c.converter, amount)).value;
    IssueThenTail(w1, user, amount);
    BToken.MintConserves(w1.token, w.c.converter, user, amount);
    RecordedIsConsistent(w.vault, w.trace);
    TailPaysOut(Issued(w1, user, amount).value, user);
    DistributionKeepsStakes(w.vault, w.waiting);
  }

  lemma DistributionKeepsStakes(s: State, waiting: nat)
    requires Distributed(s, waiting).Ok?
    ensures Distributed(s, waiting).value.stakes == s.stakes && Distributed(s, waiting).value.staked == s.staked
  {
  }

  /** For bWYND: what was sent leaves the user, and with the waiting reward is delegated for the converter. */
  lemma ConvertDelegates(w: World, user: Addr, amount: nat)
    requires Inv(w, []) && w.kind.Bwynd? && user !in ContractSet(w.c) && w.underlying.staking != Some(user)
    requires Run(w, [UnderlyingSend(user, w.c.converter, amount, ConvertHook)]).Ok?
    ensures var w1 := Run(w, [UnderlyingSend(user, w.c.converter, amount, ConvertHook)]).value;
            && Get(w1.underlying.balances, user) == Get(w.underlying.balances, user) - amount
            && Get(w1.underlying.delegated, w.c.converter) == Get(w.underlying.delegated, w.c.converter) + amount + w.waiting
            && w1.waiting == 0
  {
    ConvertStarts(w, user, amount);
    var w1 := UnderlyingOp(w, Vesting.OpTransfer(user, w.c.converter, amount)).value;
    IssueThenTail(w1, user, amount);
    UnderlyingMoves(w, user, amount);
    var w2 := Issued(w1, user, amount).value;
    BToken.MintConserves(w1.token, w.c.converter, user, amount);
    RecordedIsConsistent(w.vault, w.trace);
    TailPaysOut(w2, user);
    if 0 < w.waiting {
      ClaimLeavesUser(w2, user);
    }
  }
}
