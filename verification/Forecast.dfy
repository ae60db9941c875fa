/**
 * The reward query against the payout: `query_reward` rounds in another order than the
 * distribution that follows, and the two stay within a few tokens of each other.
 */
module Forecast {
  import opened Prelude
  import opened Decimals
  import opened Messages
  import opened Vault
  import opened VaultLedger
  import opened Chain
  import opened ChainLaws
  import opened ChainRuns
  import opened ParkedActions
  import opened ActionEquivalence
  import BToken

  function Ceil(a: nat): nat {
    (a + ONE - 1) / ONE
  }

  /** The reward left after both fees, unrounded, in units of 10^-18 token. */
  function Taxed(cfg: Config, reward: nat): (r: nat)
    requires cfg.Valid()
  {
    var rate: nat := ONE - cfg.treasuryFee - cfg.syneFee;
    reward * rate
  }

  /** What a stake gains when `power` rises by the floor of `net` per staked token. */
  function Gain(net: nat, stake: nat, staked: nat): (r: nat)
    requires 0 < staked
  {
    var inc: nat := net * ONE / staked;
    inc * stake
  }

  /** A stake's part of `x`, floored. */
  function Portion(x: nat, stake: nat, staked: nat): (r: nat)
    requires 0 < staked
  {
    x * stake / staked
  }

  /** The forecast without the scaling: floors of held earnings and of an unrounded net share. */
  lemma QueryMeans(s: State, waiting: nat, a: Addr)
    requires s.cfg.Valid() && 0 < s.staked && QueryReward(s, waiting, a).Ok?
    ensures s.StakeOf(a).powerDiff <= s.power && 0 <= Earned(s, a)
    ensures QueryReward(s, waiting, a).value
         == Earned(s, a) / ONE + Portion(Taxed(s.cfg, waiting), s.StakeOf(a).stake, s.staked) / ONE
  {
    var e := s.StakeOf(a);
    var gap: nat := s.power - e.powerDiff;
    var rate: nat := ONE - s.cfg.treasuryFee - s.cfg.syneFee;
    MulByInt(gap, e.stake);
    ScaledByInt(waiting, rate);
    MulByInt(waiting * rate, e.stake);
    DivCancel(waiting * rate * e.stake, s.staked, ONE);
  }

  lemma ScaledByInt(x: nat, rate: nat)
    ensures x * ONE * rate / ONE == x * rate
  {
  }

  /** The fees are floored, so the net reward is at least its exact value and less than two more. */
  lemma NetBounds(cfg: Config, reward: nat)
    requires cfg.Valid()
    ensures Taxed(cfg, reward) <= Net(cfg, reward) * ONE < Taxed(cfg, reward) + 2 * ONE
  {
  }

  /** `share` rounds once, `inc * stake` rounds per staked token: they differ by the stake or two tokens. */
  lemma GainAbove(x: nat, net: nat, stake: nat, staked: nat)
    requires 0 < staked && stake <= staked && net * ONE < x + 2 * ONE
    ensures Gain(net, stake, staked) <= Portion(x, stake, staked) + 2 * ONE
  {
    var inc, share := net * ONE / staked, x * stake / staked;
    DivBounds(net * ONE, staked);
    DivBounds(x * stake, staked);
    MulMono(inc * staked, x + 2 * ONE, stake);
    MulMono(stake, staked, 2 * ONE);
    assert (x + 2 * ONE) * stake == x * stake + 2 * ONE * stake;
    assert inc * staked * stake == inc * stake * staked;
    assert inc * stake * staked < (share + 1 + 2 * ONE) * staked;
    LessByFactor(inc * stake, share + 1 + 2 * ONE, staked);
  }

  lemma GainBelow(x: nat, net: nat, stake: nat, staked: nat)
    requires 0 < staked && x <= net * ONE
    ensures Portion(x, stake, staked) - stake <= Gain(net, stake, staked)
  {
    var inc, share := net * ONE / staked, x * stake / staked;
    DivBounds(net * ONE, staked);
    DivBounds(x * stake, staked);
    MulMono(x - staked, inc * staked, stake);
    assert (x - staked) * stake == x * stake - stake * staked;
    assert inc * staked * stake == inc * stake * staked;
    assert (share - stake) * staked <= inc * stake * staked;
    LessByFactor(share - stake - 1, inc * stake, staked);
  }

  lemma ShareAgainstIncrement(x: nat, net: nat, stake: nat, staked: nat)
    requires 0 < staked && stake <= staked
    requires x <= net * ONE < x + 2 * ONE
    ensures var share := Portion(x, stake, staked);
            share - stake <= Gain(net, stake, staked) <= share + 2 * ONE
  {
    GainAbove(x, net, stake, staked);
    GainBelow(x, net, stake, staked);
  }

  lemma LessByFactor(a: int, b: int, c: nat)
    requires a * c < b * c
    ensures a < b
  {
  }

  lemma FloorsAgree(earned: nat, gain: nat, share: nat, stake: nat)
    requires share - stake <= gain <= share + 2 * ONE
    ensures var paid, query := (earned + gain) / ONE, earned / ONE + share / ONE;
            query - Ceil(stake) <= paid <= query + 3
  {
  }

  /**
   * After distributing the waiting reward, a settlement pays no less than the forecast minus one
   * token for every 10^18 staked (rounded up), and at most three tokens more.
   */
  lemma ForecastBounds(s: State, waiting: nat, a: Addr, s1: State)
    requires Consistent(s) && 0 < s.staked
    requires QueryReward(s, waiting, a).Ok? && UpdateTotalRewards(s, waiting) == Ok(s1)
    requires PendingReward(s1.power, s1.StakeOf(a)).Ok? && Earned(s1, a) < U128
    ensures var query, paid := QueryReward(s, waiting, a).value, PendingReward(s1.power, s1.StakeOf(a)).value;
            query - Ceil(s.StakeOf(a).stake) <= paid <= query + 3
  {
    QueryMeans(s, waiting, a);
    PaidIs(s, waiting, a, s1);
    NetBounds(s.cfg, waiting);
    StakeWithinTotal(s, a);
    RoundingGap(Earned(s, a), Taxed(s.cfg, waiting), Net(s.cfg, waiting), s.StakeOf(a).stake, s.staked);
  }

  lemma PaidIs(s: State, waiting: nat, a: Addr, s1: State)
    requires Consistent(s) && 0 < s.staked && UpdateTotalRewards(s, waiting) == Ok(s1)
    requires PendingReward(s1.power, s1.StakeOf(a)).Ok? && Earned(s1, a) < U128
    ensures 0 <= Net(s.cfg, waiting)
    ensures PendingReward(s1.power, s1.StakeOf(a)).value
         == (Earned(s, a) + Gain(Net(s.cfg, waiting), s.StakeOf(a).stake, s.staked)) / ONE
  {
    DistributeKeepsBooks(s, waiting);
    SettlementStep(s1, a);
    var inc := IncrementOf(s, waiting, a, s1);
  }

  lemma RoundingGap(earned: nat, x: nat, net: nat, stake: nat, staked: nat)
    requires 0 < staked && stake <= staked && x <= net * ONE < x + 2 * ONE
    ensures var paid := (earned + Gain(net, stake, staked)) / ONE;
            var query := earned / ONE + Portion(x, stake, staked) / ONE;
            query - Ceil(stake) <= paid <= query + 3
  {
    ShareAgainstIncrement(x, net, stake, staked);
    FloorsAgree(earned, Gain(net, stake, staked), Portion(x, stake, staked), stake);
  }

  lemma IncrementOf(s: State, waiting: nat, a: Addr, s1: State) returns (inc: nat)
    requires s.cfg.Valid() && 0 < s.staked && UpdateTotalRewards(s, waiting) == Ok(s1)
    ensures 0 <= Net(s.cfg, waiting) && inc == Net(s.cfg, waiting) * ONE / s.staked
    ensures Earned(s1, a) == Earned(s, a) + inc * s.StakeOf(a).stake
  {
    DistributionStep(s, waiting);
    inc := Net(s.cfg, waiting) * ONE / s.staked;
    var e := s.StakeOf(a);
    assert (s.power + inc - e.powerDiff) * e.stake == (s.power - e.powerDiff) * e.stake + inc * e.stake;
  }

  // ----- on the chain

  lemma PayArrives(w: World, user: Addr, amount: nat)
    requires w.Readable() && BToken.Conserved(w.token) && user != w.c.vault
    requires Run(w, Pay(w.c, user, amount)).Ok?
    ensures Run(w, Pay(w.c, user, amount)).value.Balance(user) == w.Balance(user) + amount
  {
    if 0 < amount {
      var m := TokenTransfer(w.c.vault, user, amount);
      assert [m] + [] == [m];
      RunNext(w, m, []);
      BToken.TransferConserves(w.token, w.c.vault, user, amount);
    }
  }

  lemma GatherLeavesUsers(w: World, user: Addr)
    requires Core(w) && 0 < w.waiting && w.vault.action == NoAction && Collected(w).Ok?
    requires user != w.c.vault && user != w.c.converter
    ensures Collected(w).value.Balance(user) == w.Balance(user)
    ensures UpdateTotalRewards(w.vault, w.waiting) == Ok(Collected(w).value.vault)
  {
    CollectedIs(w);
    BToken.MintConserves(w.token, w.c.converter, w.c.converter, w.waiting);
    var t1 := BToken.Mint(w.token, w.c.converter, w.c.converter, w.waiting).value;
    BToken.TransferConserves(t1, w.c.converter, w.c.vault, w.waiting);
  }

  lemma WithdrawalPays(w: World, from: Addr, user: Addr)
    requires Inv(w, []) && 0 < w.waiting && user != w.c.vault && user != w.c.converter
    requires Run(w, [VaultWithdraw(from, user)]).Ok?
    ensures Collected(w).Ok?
    ensures UpdateTotalRewards(w.vault, w.waiting) == Ok(Collected(w).value.vault)
    ensures var s1 := Collected(w).value.vault;
            && PendingReward(s1.power, s1.StakeOf(user)).Ok?
            && Run(w, [VaultWithdraw(from, user)]).value.Balance(user)
                 == w.Balance(user) + PendingReward(s1.power, s1.StakeOf(user)).value
  {
    RestsAtNoAction(w);
    ParkingRuns(w, VaultWithdraw(from, user), RewardTo(user));
    GatherLeavesUsers(w, user);
    CollectedShape(w);
    RewardFinishes(Collected(w).value, user);
  }

  lemma RewardFinishes(w: World, user: Addr)
    requires w.Readable() && BToken.Conserved(w.token) && user != w.c.vault && FinishIn(w, RewardTo(user)).Ok?
    ensures PendingReward(w.vault.power, w.vault.StakeOf(user)).Ok?
    ensures FinishIn(w, RewardTo(user)).value.Balance(user)
         == w.Balance(user) + PendingReward(w.vault.power, w.vault.StakeOf(user)).value
  {
    var settle := SettleNow(w.vault, w.c, user).value;
    PayArrives(WithReply(w, settle), user, Apply(w.vault, Settle(user)).value.1);
  }

  /** What a reward withdrawal adds to the user's balance, against what the query had announced. */
  lemma ForecastAgainstPayout(w: World, from: Addr, user: Addr)
    requires Inv(w, []) && 0 < w.waiting && user != w.c.vault && user != w.c.converter
    requires 0 < w.vault.staked && QueryReward(w.vault, w.waiting, user).Ok?
    requires Run(w, [VaultWithdraw(from, user)]).Ok?
    requires Collected(w).Ok? ==> Earned(Collected(w).value.vault, user) < U128
    ensures var query := QueryReward(w.vault, w.waiting, user).value;
            var gained := Run(w, [VaultWithdraw(from, user)]).value.Balance(user) - w.Balance(user);
            query - Ceil(w.vault.StakeOf(user).stake) <= gained <= query + 3
  {
    WithdrawalPays(w, from, user);
    RecordedIsConsistent(w.vault, w.trace);
    ForecastBounds(w.vault, w.waiting, user, Collected(w).value.vault);
  }
}
