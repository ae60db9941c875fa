/**
 * What the farming wrapper keeps, token by token: rewards settled and still owed never exceed what
 * the farm has credited, every settlement splits exactly, and stakes add up.
 */
module FarmingLaws {
  import opened Prelude
  import opened Decimals
  import opened MapSums
  import opened Farming

  // ----- the books of one token

  function Weight(p: Pool, t: Token): nat {
    Get(p.weights, t)
  }

  /** What a user with an entry for `t` is owed, in units of 10^-18. */
  function Claimable(p: Pool, user: Addr, t: Token): int {
    var i := InfoOf(p, user, t);
    ONE * i.pending + (Weight(p, t) - i.weight) * Get(p.staked, user)
  }

  ghost function ClaimMap(p: Pool, t: Token): map<(Addr, Token), int> {
    map k | k in p.info && k.1 == t :: Claimable(p, k.0, t)
  }

  ghost function StakeMap(p: Pool, t: Token): map<(Addr, Token), int> {
    map k | k in p.info && k.1 == t :: Get(p.staked, k.0)
  }

  /** Settled rewards and open claims stay within what has been credited for the token. */
  ghost predicate Within(p: Pool, t: Token) {
    ONE * Get(p.gross, t) + Total(ClaimMap(p, t)) <= ONE * Get(p.rewards, t)
  }

  /** Nobody's recorded weight is ahead, and an empty pool has given no weight. */
  predicate WeightsFine(p: Pool, t: Token) {
    && (forall k :: k in p.info && k.1 == t ==> p.info[k].weight <= Weight(p, t))
    && (p.totalStaked == 0 ==> Weight(p, t) == 0)
  }

  predicate Split(p: Pool, t: Token) {
    Get(p.gross, t) == Get(p.shares, t) + Get(p.fees, t)
  }

  ghost predicate TokenLaw(p: Pool, t: Token) {
    Within(p, t) && WeightsFine(p, t) && Split(p, t)
  }

  ghost predicate PoolLaw(p: Pool) {
    && Total(p.staked) == p.totalStaked
    && (forall t: Token :: TokenLaw(p, t))
    && forall k :: k in p.info ==> k.1 in p.weights
  }

  /** The entries for one token belong to different users, so their stakes fit in the total. */
  lemma {:induction false} EntriesWithinStakes(m: map<(Addr, Token), int>, staked: map<Addr, int>, t: Token)
    requires forall k :: k in m ==> k.1 == t && 0 <= m[k] <= At(staked, k.0)
    requires forall a :: a in staked ==> 0 <= staked[a]
    ensures Total(m) <= Total(staked)
    decreases |m|
  {
    if m == map[] {
      TotalNonNegative(staked);
    } else {
      var k :| k in m;
      TotalRemove(m, k);
      TotalDrop(staked, k.0);
      forall j | j in m - {k} ensures m[j] <= At(staked - {k.0}, j.0) {
        assert j.0 != k.0 by {
          assert j == (j.0, j.1) && k == (k.0, k.1);
        }
      }
      EntriesWithinStakes(m - {k}, staked - {k.0}, t);
    }
  }

  // ----- one token's reward arrives

  /** Raising the weight by the floor of the reward per staked token promises no more than the reward. */
  lemma GrowWithin(p: Pool, p1: Pool, t: Token, delta: nat, weigh: bool)
    requires PoolLaw(p) && Grow(p, t, delta, weigh) == Ok(p1) && (weigh || p.totalStaked == 0)
    ensures Within(p1, t)
  {
    var inc := GrowShape(p, p1, t, delta, weigh);
    assert TokenLaw(p, t);
    GrowWithinBy(p, p1, t, delta, inc);
  }

  lemma GrowShape(p: Pool, p1: Pool, t: Token, delta: nat, weigh: bool) returns (inc: nat)
    requires Grow(p, t, delta, weigh) == Ok(p1)
    ensures p1 == p.(rewards := p1.rewards, weights := p1.weights)
    ensures Get(p1.rewards, t) == Get(p.rewards, t) + delta && Weight(p1, t) == Weight(p, t) + inc
    ensures inc == 0 || (0 < p.totalStaked && inc == delta * ONE / p.totalStaked)
  {
    inc := Weight(p1, t) - Weight(p, t);
  }

  lemma GrowWithinBy(p: Pool, p1: Pool, t: Token, delta: nat, inc: nat)
    requires Within(p, t) && Total(p.staked) == p.totalStaked && (forall k :: k in p.info ==> k.1 in p.weights)
    requires p1 == p.(rewards := p1.rewards, weights := p1.weights)
    requires Get(p1.rewards, t) == Get(p.rewards, t) + delta && Weight(p1, t) == Weight(p, t) + inc
    requires inc == 0 || (0 < p.totalStaked && inc == delta * ONE / p.totalStaked)
    ensures Within(p1, t)
  {
    GrowClaims(p, p1, t, inc);
    if inc != 0 {
      EntriesWithinStakes(StakeMap(p, t), p.staked, t);
      RoundedDown(delta, p.totalStaked, Total(StakeMap(p, t)));
    }
  }

  lemma RoundedDown(delta: nat, total: nat, part: int)
    requires 0 < total && part <= total
    ensures delta * ONE / total * part <= ONE * delta
  {
  }

  lemma GrowOther(p: Pool, p1: Pool, t: Token, u: Token)
    requires TokenLaw(p, u) && u != t
    requires p1 == p.(rewards := p1.rewards, weights := p1.weights)
    requires Get(p1.rewards, u) == Get(p.rewards, u) && Weight(p1, u) == Weight(p, u)
    requires forall k :: k in p.info ==> k.1 in p.weights && k.1 in p1.weights
    ensures TokenLaw(p1, u)
  {
    forall k | k in p.info && k.1 == u ensures Claimable(p1, k.0, u) == Claimable(p, k.0, u) {
      assert k == (k.0, u);
    }
    assert ClaimMap(p1, u) == ClaimMap(p, u);
  }

  lemma GrowKeeps(p: Pool, t: Token, delta: nat, weigh: bool)
    requires PoolLaw(p) && Grow(p, t, delta, weigh).Ok? && (weigh || p.totalStaked == 0)
    ensures var p1 := Grow(p, t, delta, weigh).value;
            && p1 == p.(rewards := p1.rewards, weights := p1.weights)
            && (forall u: Token :: TokenLaw(p1, u))
            && (forall k :: k in p1.info ==> k.1 in p1.weights)
            && (forall u: Token :: Get(p1.rewards, u) == Get(p.rewards, u) + if u == t then delta else 0)
            && (forall u: Token :: u in p1.weights <==> u in p.weights || u == t)
            && (forall u: Token :: u != t ==> Weight(p1, u) == Weight(p, u))
  {
    var p1 := Grow(p, t, delta, weigh).value;
    assert TokenLaw(p, t);
    GrowWithin(p, p1, t, delta, weigh);
    forall u: Token | u != t ensures TokenLaw(p1, u) {
      GrowOther(p, p1, t, u);
    }
  }

  lemma GrowClaims(p: Pool, p1: Pool, t: Token, inc: nat)
    requires p1 == p.(rewards := p1.rewards, weights := p1.weights) && Weight(p1, t) == Weight(p, t) + inc
    requires forall k :: k in p.info ==> k.1 in p.weights
    ensures Total(ClaimMap(p1, t)) == Total(ClaimMap(p, t)) + inc * Total(StakeMap(p, t))
  {
    forall k | k in p.info && k.1 == t ensures ClaimMap(p1, t)[k] == ClaimMap(p, t)[k] + inc * StakeMap(p, t)[k] {
      assert k == (k.0, t);
      var i, s := p.info[k], Get(p.staked, k.0);
      assert (Weight(p, t) + inc - i.weight) * s == (Weight(p, t) - i.weight) * s + inc * s;
    }
    TotalLinear(ClaimMap(p1, t), ClaimMap(p, t), StakeMap(p, t), inc);
  }

  // ----- one entry is settled

  lemma ClaimsWritten(p: Pool, p1: Pool, user: Addr, t: Token, i: RewardInfo, u: Token)
    requires p1.info == p.info[(user, t) := i] && p1.weights == p.weights && p1.staked == p.staked
    ensures ClaimMap(p1, u) == if u == t then ClaimMap(p, u)[(user, t) := Claimable(p1, user, t)] else ClaimMap(p, u)
  {
    forall k | k in p.info && k.1 == u && k != (user, t) ensures Claimable(p1, k.0, u) == Claimable(p, k.0, u) {
      OtherEntry(p, p1, user, t, i, k);
    }
  }

  /** Replacing a user's entry moves the claims on that token by the difference. */
  lemma EntryWritten(p: Pool, p1: Pool, user: Addr, t: Token, i: RewardInfo)
    requires p1.info == p.info[(user, t) := i] && p1.weights == p.weights && p1.staked == p.staked
    ensures Total(ClaimMap(p1, t)) == Total(ClaimMap(p, t))
              - (if (user, t) in p.info then Claimable(p, user, t) else 0) + Claimable(p1, user, t)
    ensures forall u: Token :: u != t ==> ClaimMap(p1, u) == ClaimMap(p, u)
  {
    ClaimsWritten(p, p1, user, t, i, t);
    TotalUpdate(ClaimMap(p, t), (user, t), Claimable(p1, user, t));
    forall u: Token | u != t ensures ClaimMap(p1, u) == ClaimMap(p, u) {
      ClaimsWritten(p, p1, user, t, i, u);
    }
  }

  lemma OtherEntry(p: Pool, p1: Pool, user: Addr, t: Token, i: RewardInfo, k: (Addr, Token))
    requires p1.info == p.info[(user, t) := i] && p1.weights == p.weights && p1.staked == p.staked
    requires k in p.info && k != (user, t)
    ensures Claimable(p1, k.0, k.1) == Claimable(p, k.0, k.1)
  {
  }

  /** The earnings are the floor of the open claim. */
  lemma EarnedIsClaimable(p: Pool, user: Addr, t: Token, lenient: bool)
    requires EarnedBy(p, user, t, lenient).Ok? && InfoOf(p, user, t).weight <= Weight(p, t)
    ensures ONE * EarnedBy(p, user, t, lenient).value <= Claimable(p, user, t)
    ensures Claimable(p, user, t) < ONE * EarnedBy(p, user, t, lenient).value + ONE
  {
  }

  /** A settled entry carries the current weight and at most the earnings that are not paid out. */
  lemma SettleKeeps(p: Pool, p1: Pool, user: Addr, t: Token, earned: nat, kept: nat, lenient: bool)
    requires (forall u: Token :: TokenLaw(p, u)) && (forall k :: k in p.info ==> k.1 in p.weights) && t in p.weights
    requires EarnedBy(p, user, t, lenient) == Ok(earned) && kept <= earned
    requires p1.info == p.info[(user, t) := RewardInfo(Weight(p, t), kept)]
    requires p1.weights == p.weights && p1.staked == p.staked && p1.rewards == p.rewards && p1.totalStaked == p.totalStaked
    requires forall u: Token :: Get(p1.gross, u) == Get(p.gross, u) + if u == t then earned - kept else 0
    requires forall u: Token :: Split(p1, u)
    ensures (forall u: Token :: TokenLaw(p1, u)) && (forall k :: k in p1.info ==> k.1 in p1.weights)
  {
    assert TokenLaw(p, t);
    assert InfoOf(p, user, t).weight <= Weight(p, t) by {
      if (user, t) in p.info {
        assert (user, t).1 == t;
      }
    }
    EarnedIsClaimable(p, user, t, lenient);
    EntryWritten(p, p1, user, t, RewardInfo(Weight(p, t), kept));
    NewEntryClaims(p, p1, user, t, kept);
    forall u: Token | u != t ensures TokenLaw(p1, u) {
      assert TokenLaw(p, u);
    }
  }

  lemma NewEntryClaims(p: Pool, p1: Pool, user: Addr, t: Token, kept: nat)
    requires p1.info == p.info[(user, t) := RewardInfo(Weight(p, t), kept)] && p1.weights == p.weights
    ensures Claimable(p1, user, t) == ONE * kept
    ensures (user, t) !in p.info ==> Claimable(p, user, t) == 0
  {
  }

  // ----- one token of each call

  lemma StakeTokenKeeps(p: Pool, user: Addr, t: Token, reported: Amounts)
    requires PoolLaw(p) && StakeToken(p, user, t, reported).Ok?
    ensures PoolLaw(StakeToken(p, user, t, reported).value)
  {
    var delta := Accrued(p, reported, t, false).value;
    var p1 := Grow(p, t, delta, p.totalStaked > 0).value;
    GrowKeeps(p, t, delta, p.totalStaked > 0);
    var p2 := StakeToken(p, user, t, reported).value;
    assert forall u: Token :: TokenLaw(p1, u);
    if p.totalStaked == 0 {
      EmptyStakeKeeps(p1, p2, user, t);
    } else {
      var earned := EarnedBy(p1, user, t, false).value;
      forall u: Token ensures Split(p2, u) {
        assert TokenLaw(p1, u);
      }
      SettleKeeps(p1, p2, user, t, earned, earned, false);
    }
  }

  /** In an empty pool an entry is created, or left as it is; every weight is zero. */
  lemma EmptyStakeKeeps(p: Pool, p1: Pool, user: Addr, t: Token)
    requires (forall u: Token :: TokenLaw(p, u)) && (forall k :: k in p.info ==> k.1 in p.weights) && t in p.weights
    requires p1 == p.(info := p.info[(user, t) := InfoOf(p, user, t)])
    ensures (forall u: Token :: TokenLaw(p1, u)) && (forall k :: k in p1.info ==> k.1 in p1.weights)
  {
    if (user, t) in p.info {
      assert p1.info == p.info;
      assert p1 == p;
    } else {
      NewEntryKeeps(p, p1, user, t);
    }
  }

  lemma NewEntryKeeps(p: Pool, p1: Pool, user: Addr, t: Token)
    requires (forall u: Token :: TokenLaw(p, u)) && (user, t) !in p.info
    requires p1 == p.(info := p.info[(user, t) := RewardInfo(Weight(p, t), 0)])
    ensures forall u: Token :: TokenLaw(p1, u)
  {
    EntryWritten(p, p1, user, t, RewardInfo(Weight(p, t), 0));
    NewEntryClaims(p, p1, user, t, 0);
    assert TokenLaw(p, t);
    forall u: Token | u != t ensures TokenLaw(p1, u) {
      assert TokenLaw(p, u);
    }
  }

  lemma ShareWithinEarned(c: Config, earned: nat)
    requires ShareOf(c, earned).Ok?
    ensures ShareOf(c, earned).value <= earned
  {
    ShareWithin(earned, c.multiplier - c.fee, c.multiplier);
  }

  lemma PaidIsSplit(p: Pool, user: Addr, t: Token, earned: nat, share: nat)
    requires share <= earned
    ensures var p1 := Paid(p, user, t, earned, share);
            && p1 == p.(info := p.info[(user, t) := RewardInfo(Weight(p, t), 0)],
                        gross := p.gross[t := Get(p.gross, t) + earned], shares := p1.shares, fees := p1.fees)
            && (forall u: Token :: u != t ==> Get(p1.shares, u) == Get(p.shares, u) && Get(p1.fees, u) == Get(p.fees, u))
            && Get(p1.shares, t) - Get(p.shares, t) + (Get(p1.fees, t) - Get(p.fees, t)) == earned
            && Get(p.fees, t) <= Get(p1.fees, t)
  {
  }

  /** The two parts of a settlement add up to it. */
  lemma SplitIsExact(c: Config, p: Pool, user: Addr, t: Token, reported: Amounts, claim: bool) returns (p1: Pool, earned: nat)
    requires PayToken(c, p, user, t, reported, claim).Ok?
    ensures Accrued(p, reported, t, claim).Ok? && Grow(p, t, Accrued(p, reported, t, claim).value, true) == Ok(p1)
    ensures EarnedBy(p1, user, t, claim) == Ok(earned)
    ensures var p2 := PayToken(c, p, user, t, reported, claim).value;
            && p2 == p1.(info := p1.info[(user, t) := RewardInfo(Weight(p1, t), 0)],
                         gross := p1.gross[t := Get(p1.gross, t) + earned], shares := p2.shares, fees := p2.fees)
            && (forall u: Token :: u != t ==> Get(p2.shares, u) == Get(p1.shares, u) && Get(p2.fees, u) == Get(p1.fees, u))
            && Get(p2.shares, t) - Get(p1.shares, t) + (Get(p2.fees, t) - Get(p1.fees, t)) == earned
            && Get(p1.fees, t) <= Get(p2.fees, t)
  {
    p1 := Grow(p, t, Accrued(p, reported, t, claim).value, true).value;
    earned := EarnedBy(p1, user, t, claim).value;
    ShareWithinEarned(c, earned);
    PaidIsSplit(p1, user, t, earned, ShareOf(c, earned).value);
  }

  /** The user's share is rounded down, so the treasury's fee is its exact rate rounded up. */
  lemma {:induction false} FeeRoundsUp(c: Config, earned: nat)
    requires ShareOf(c, earned).Ok?
    ensures var fee := earned - ShareOf(c, earned).value;
            0 <= fee && earned * c.fee <= fee * c.multiplier < earned * c.fee + c.multiplier
  {
    var rate: nat := c.multiplier - c.fee;
    var share := ShareOf(c, earned).value;
    ShareWithin(earned, rate, c.multiplier);
    DivBounds(earned * rate, c.multiplier);
    assert earned * (c.multiplier - c.fee) == earned * c.multiplier - earned * c.fee;
    assert (earned - share) * c.multiplier == earned * c.multiplier - share * c.multiplier;
  }

  lemma ShareWithin(earned: nat, rate: nat, whole: nat)
    requires rate <= whole && 0 < whole
    ensures earned * rate / whole <= earned
  {
  }

  lemma SplitStays(p: Pool, p1: Pool, t: Token, earned: nat)
    requires forall u: Token :: Split(p, u)
    requires forall u: Token :: u != t ==> Get(p1.shares, u) == Get(p.shares, u) && Get(p1.fees, u) == Get(p.fees, u)
    requires Get(p1.shares, t) - Get(p.shares, t) + (Get(p1.fees, t) - Get(p.fees, t)) == earned
    requires p1.gross == p.gross[t := Get(p.gross, t) + earned]
    ensures forall u: Token :: Split(p1, u)
  {
    forall u: Token ensures Split(p1, u) {
      assert Split(p, u);
    }
  }

  lemma PayTokenKeeps(c: Config, p: Pool, user: Addr, t: Token, reported: Amounts, claim: bool)
    requires PoolLaw(p) && PayToken(c, p, user, t, reported, claim).Ok?
    ensures PoolLaw(PayToken(c, p, user, t, reported, claim).value)
  {
    var p1, earned := SplitIsExact(c, p, user, t, reported, claim);
    GrowKeeps(p, t, Accrued(p, reported, t, claim).value, true);
    var p2 := PayToken(c, p, user, t, reported, claim).value;
    forall u: Token ensures Split(p1, u) {
      assert TokenLaw(p1, u);
    }
    SplitStays(p1, p2, t, earned);
    SettleKeeps(p1, p2, user, t, earned, 0, claim);
  }
}
