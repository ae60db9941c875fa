/**
 * What the accumulator promises. A run is a list of storage operations; the reference is a ledger
 * that knows nothing of `power`: it adds up deposits, and at each distribution credits every
 * staker with an exact, unrounded share.
 */
module VaultLedger {
  import opened Prelude
  import opened Decimals
  import opened MapSums
  import opened Vault

  // ----- the books of one state, in units of 10^-18 token

  ghost function StakeMap(s: State): map<Addr, int> {
    map a | a in s.stakes :: s.stakes[a].stake
  }

  /** What `a` has earned since its last settlement. */
  function Earned(s: State, a: Addr): int {
    (s.power - s.StakeOf(a).powerDiff) * s.StakeOf(a).stake
  }

  ghost function EarnedMap(s: State): map<Addr, int> {
    map a | a in s.stakes :: Earned(s, a)
  }

  /** All the vault owes: stakes, fees put aside, and the unsettled earnings of every staker. */
  ghost function Liability(s: State): int {
    ONE * (s.staked + s.treasury + s.syne) + Total(EarnedMap(s))
  }

  ghost predicate Consistent(s: State) {
    && s.cfg.Valid()
    && Total(StakeMap(s)) == s.staked
    && forall a :: a in s.stakes ==> s.stakes[a].powerDiff <= s.power
  }

  /** The zero fallbacks on the stake fields are not taken by this operation. */
  predicate NoFallback(s: State, op: Op) {
    match op
    case Deposit(_, amount) => s.staked + amount < U128
    case Redeem(a, amount) => amount <= s.StakeOf(a).stake
    case _ => true
  }

  function Inflow(op: Op): nat {
    match op
    case Distribute(reward) => reward
    case Deposit(_, amount) => amount
    case _ => 0
  }

  function Outflow(op: Op): nat {
    match op
    case Redeem(_, amount) => amount
    case _ => 0
  }

  lemma InitialConsistent()
    ensures Consistent(INITIAL) && Liability(INITIAL) == 0
  {
  }

  // ----- one distribution

  function Fee(reward: nat, fee: nat): nat {
    reward * fee / ONE
  }

  function Net(cfg: Config, reward: nat): int {
    reward - Fee(reward, cfg.treasuryFee) - Fee(reward, cfg.syneFee)
  }

  lemma FeesWithinReward(cfg: Config, reward: nat)
    requires cfg.Valid()
    ensures Fee(reward, cfg.treasuryFee) + Fee(reward, cfg.syneFee) <= reward
  {
  }

  lemma FeeOfIsFee(reward: nat, fee: nat)
    requires FeeOf(reward, fee).Ok?
    ensures FeeOf(reward, fee).value == Fee(reward, fee)
  {
  }

  /** The scaled decimals cancel: `power` grows by the floor of net reward per staked token. */
  lemma DistributionStep(s: State, reward: nat)
    requires s.cfg.Valid() && UpdateTotalRewards(s, reward).Ok?
    ensures Net(s.cfg, reward) >= 0
    ensures var s1 := UpdateTotalRewards(s, reward).value;
            && s1 == s.(treasury := s1.treasury, syne := s1.syne, power := s1.power)
            && s1.treasury == s.treasury + Fee(reward, s.cfg.treasuryFee)
            && s1.syne == s.syne + Fee(reward, s.cfg.syneFee)
            && s1.power == s.power + (if s.staked == 0 then 0 else Net(s.cfg, reward) * ONE / s.staked)
  {
    FeeOfIsFee(reward, s.cfg.treasuryFee);
    FeeOfIsFee(reward, s.cfg.syneFee);
    FeesWithinReward(s.cfg, reward);
    if s.staked > 0 {
      DivOfInts(Net(s.cfg, reward), s.staked);
    }
  }

  /** A settlement pays the floor of the earnings, or nothing when the product overflows. */
  lemma {:induction false} SettlementStep(s: State, a: Addr)
    requires Consistent(s) && PendingReward(s.power, s.StakeOf(a)).Ok?
    ensures 0 <= Earned(s, a)
    ensures var paid := PendingReward(s.power, s.StakeOf(a)).value;
            && paid == (if Earned(s, a) < U128 then Earned(s, a) / ONE else 0)
            && ONE * paid <= Earned(s, a)
            && (Earned(s, a) < U128 ==> Earned(s, a) < ONE * paid + ONE)
  {
    var e := s.StakeOf(a);
    var gap: nat := s.power - e.powerDiff;
    MulByInt(gap, e.stake);
    assert Earned(s, a) == gap * e.stake;
    DivBounds(gap * e.stake, ONE);
  }

  lemma EarnedAfterDistribution(s: State, s1: State, inc: nat)
    requires s1.stakes == s.stakes && s1.power == s.power + inc
    ensures Total(EarnedMap(s1)) == Total(EarnedMap(s)) + inc * Total(StakeMap(s))
  {
    forall a | a in s.stakes ensures EarnedMap(s1)[a] == EarnedMap(s)[a] + inc * StakeMap(s)[a] {
      var e := s.stakes[a];
      assert (s.power + inc - e.powerDiff) * e.stake == (s.power - e.powerDiff) * e.stake + inc * e.stake;
    }
    TotalLinear(EarnedMap(s1), EarnedMap(s), StakeMap(s), inc);
  }

  /** Writing a settled entry for `a` removes its earnings and moves the stake total. */
  lemma EntryWritten(s: State, s1: State, a: Addr, stake: nat)
    requires s1.stakes == s.stakes[a := Stake(stake, s.power)] && s1.power == s.power
    ensures Total(StakeMap(s1)) == Total(StakeMap(s)) - s.StakeOf(a).stake + stake
    ensures Total(EarnedMap(s1)) == Total(EarnedMap(s)) - (if a in s.stakes then Earned(s, a) else 0)
  {
    assert StakeMap(s1) == StakeMap(s)[a := stake];
    TotalUpdate(StakeMap(s), a, stake);
    var earned, earned1 := EarnedMap(s), EarnedMap(s1);
    forall k | k in earned1 ensures earned1[k] == earned[a := 0][k] {
      EarnedOnlyFrom(s, s1, a, k);
    }
    assert earned1 == earned[a := 0];
    TotalUpdate(earned, a, 0);
  }

  lemma EarnedOnlyFrom(s: State, s1: State, a: Addr, k: Addr)
    requires a in s1.stakes && s1.power == s.power
    requires s1.stakes == s.stakes[a := Stake(s1.stakes[a].stake, s.power)]
    ensures Earned(s1, k) == if k == a then 0 else Earned(s, k)
  {
  }

  lemma StakeWithinTotal(s: State, a: Addr)
    requires Consistent(s)
    ensures s.StakeOf(a).stake <= s.staked
  {
    EntryWithinTotal(StakeMap(s), a);
  }

  lemma DistributeKeepsBooks(s: State, reward: nat)
    requires Consistent(s) && UpdateTotalRewards(s, reward).Ok?
    ensures var s1 := UpdateTotalRewards(s, reward).value;
            Consistent(s1) && Liability(s1) <= Liability(s) + ONE * reward
  {
    var s1 := UpdateTotalRewards(s, reward).value;
    DistributionStep(s, reward);
    var inc := s1.power - s.power;
    EarnedAfterDistribution(s, s1, inc);
    assert StakeMap(s1) == StakeMap(s);
    if s.staked > 0 {
      DivBounds(Net(s.cfg, reward) * ONE, s.staked);
    }
  }

  /** A settlement that leaves `a` with `stake` releases no more than `a` had earned. */
  lemma SettleKeepsBooks(s: State, s1: State, a: Addr, stake: nat)
    requires Consistent(s) && PendingReward(s.power, s.StakeOf(a)).Ok?
    requires s1.staked == s.staked - s.StakeOf(a).stake + stake
    requires s1 == s.(stakes := s.stakes[a := Stake(stake, s.power)], staked := s1.staked)
    ensures Consistent(s1)
    ensures Liability(s1) + ONE * PendingReward(s.power, s.StakeOf(a)).value
         <= Liability(s) + ONE * (stake - s.StakeOf(a).stake)
  {
    SettlementStep(s, a);
    EntryWritten(s, s1, a, stake);
  }

  /**
   * One operation keeps the books: the stakes still add up, no `power_diff` runs ahead, and what
   * the vault owes grows by no more than what came in less what went out.
   */
  lemma OpKeepsBooks(s: State, op: Op)
    requires Consistent(s) && NoFallback(s, op) && Apply(s, op).Ok?
    ensures var (s1, paid) := Apply(s, op).value;
            && Consistent(s1)
            && s1.cfg == s.cfg && s1.action == s.action
            && Liability(s1) + ONE * (paid + Outflow(op)) <= Liability(s) + ONE * Inflow(op)
  {
    var s1 := Apply(s, op).value.0;
    match op
    case Distribute(reward) =>
      DistributeKeepsBooks(s, reward);
    case Settle(a) =>
      SettleKeepsBooks(s, s1, a, s.StakeOf(a).stake);
    case Deposit(a, amount) =>
      StakeWithinTotal(s, a);
      SettleKeepsBooks(s, s1, a, s.StakeOf(a).stake + amount);
    case Redeem(a, amount) =>
      StakeWithinTotal(s, a);
      SettleKeepsBooks(s, s1, a, s.StakeOf(a).stake - amount);
  }

  /** What is owed covers the staked tokens: nothing in it is negative. */
  lemma LiabilityCoversStakes(s: State)
    requires Consistent(s)
    ensures ONE * (s.staked + s.treasury + s.syne) <= Liability(s)
  {
    TotalNonNegative(EarnedMap(s));
  }
}
