/**
 * Exactly when the farming wrapper's calls go through. A claim insists that every token the farm
 * listed at the last stake has grown since; the arithmetic itself never stands in the way while
 * credited rewards and weights fit the 18 decimals.
 */
module FarmingRefusals {
  import opened Prelude
  import opened Decimals
  import opened MapSums
  import opened Farming
  import opened FarmingLaws
  import opened FarmingRuns
  import opened FarmingPayouts

  predicate RealFee(c: Config) { c.fee <= c.multiplier && 0 < c.multiplier }

  predicate ListedIn(amounts: Amounts, t: Token) {
    exists a :: a in amounts && a.0 == t
  }

  /** The report has not fallen; for a claim, a token listed last time has grown. */
  predicate Grown(p: Pool, t: Token, reported: Amounts, claim: bool) {
    && First(p.pending, t) <= First(reported, t)
    && (claim && ListedIn(p.pending, t) ==> First(p.pending, t) < First(reported, t))
  }

  /** The credited rewards and the weight, with the whole report, in units of 10^-18, and so the user's stake. */
  predicate Fits(p: Pool, user: Addr, t: Token, reported: Amounts) {
    && (Get(p.rewards, t) + First(reported, t)) * ONE < U128 && Weight(p, t) + First(reported, t) * ONE < U128
    && Get(p.staked, user) * ONE < U128
  }

  // ----- one token

  lemma {:induction false} TakesOffExactly(current: nat, pending: Amounts, t: Token, strict: bool)
    requires OnceEach(pending)
    ensures TakeOff(current, pending, t, strict).Ok? <==>
      First(pending, t) <= current && (strict && ListedIn(pending, t) ==> First(pending, t) < current)
  {
    if pending != [] {
      var rest := pending[1..];
      assert forall a :: a in pending <==> a == pending[0] || a in rest;
      if pending[0].0 != t {
        TakesOffExactly(current, rest, t, strict);
      } else {
        forall a | a in rest ensures a.0 != t {
        }
        FirstMissing(rest, t);
        if pending[0].1 <= current {
          TakesOffExactly(current - pending[0].1, rest, t, strict);
        }
      }
    }
  }

  lemma GrowFits(p: Pool, t: Token, delta: nat, weigh: bool)
    requires (Get(p.rewards, t) + delta) * ONE < U128 && Weight(p, t) + delta * ONE < U128
    ensures Grow(p, t, delta, weigh).Ok? <==> (weigh ==> 0 < p.totalStaked)
  {
    if 0 < p.totalStaked {
      DivBounds(delta * ONE, p.totalStaked);
      ShareAtMost(delta * ONE, p.totalStaked);
    }
  }

  lemma ShareAtMost(a: nat, b: nat)
    requires 0 < b
    ensures a / b <= a
  {
    DivBounds(a, b);
    MulMono(1, b, a / b);
  }

  /** Nobody's open claim is more than what has been credited. */
  lemma ClaimWithinCredited(p: Pool, user: Addr, t: Token)
    requires PoolLaw(p)
    ensures InfoOf(p, user, t).weight <= Weight(p, t)
    ensures 0 <= Claimable(p, user, t) <= ONE * Get(p.rewards, t)
  {
    assert TokenLaw(p, t);
    if (user, t) in p.info {
      forall k | k in ClaimMap(p, t) ensures 0 <= ClaimMap(p, t)[k] {
        assert k == (k.0, t);
        ClaimNotNegative(p, k.0, t);
      }
      EntryWithinTotal(ClaimMap(p, t), (user, t));
      ClaimNotNegative(p, user, t);
    }
  }

  lemma ClaimNotNegative(p: Pool, user: Addr, t: Token)
    requires InfoOf(p, user, t).weight <= Weight(p, t)
    ensures 0 <= Claimable(p, user, t)
  {
    MulMono(0, Weight(p, t) - InfoOf(p, user, t).weight, Get(p.staked, user));
  }

  /** The claim's product is the exact one, and nothing overflows. */
  lemma EarnedFits(p: Pool, user: Addr, t: Token, lenient: bool)
    requires PoolLaw(p) && Get(p.rewards, t) * ONE < U128 && Get(p.staked, user) * ONE < U128
    ensures EarnedBy(p, user, t, lenient).Ok? && EarnedBy(p, user, t, lenient).value < U128
  {
    ClaimWithinCredited(p, user, t);
    var i := InfoOf(p, user, t);
    ProductFits(Weight(p, t) - i.weight, Get(p.staked, user), i.pending, Get(p.rewards, t));
  }

  lemma ProductFits(gap: nat, stake: nat, pending: nat, credited: nat)
    requires ONE * pending + gap * stake <= ONE * credited && credited * ONE < U128
    ensures Mul(gap, stake * ONE) == Ok(gap * stake) && pending + Floor(gap * stake) < U128
  {
    assert gap * (stake * ONE) == gap * stake * ONE;
    DivUnique(gap * stake * ONE, ONE, gap * stake);
    DivBounds(gap * stake, ONE);
  }

  lemma ShareFits(c: Config, earned: nat)
    requires RealFee(c) && earned < U128
    ensures ShareOf(c, earned).Ok?
  {
    ShareWithin(earned, c.multiplier - c.fee, c.multiplier);
  }

  lemma PaysTokenExactly(c: Config, p: Pool, user: Addr, t: Token, reported: Amounts, claim: bool)
    requires PoolLaw(p) && OnceEach(p.pending) && RealFee(c) && Fits(p, user, t, reported)
    ensures PayToken(c, p, user, t, reported, claim).Ok? <==> 0 < p.totalStaked && Grown(p, t, reported, claim)
  {
    TakesOffExactly(First(reported, t), p.pending, t, claim);
    if Accrued(p, reported, t, claim).Ok? {
      TakeOffIs(First(reported, t), p.pending, t, claim);
      var delta := Accrued(p, reported, t, claim).value;
      GrowFits(p, t, delta, true);
      if 0 < p.totalStaked {
        GrowKeeps(p, t, delta, true);
        var p1 := Grow(p, t, delta, true).value;
        EarnedFits(p1, user, t, claim);
        ShareFits(c, EarnedBy(p1, user, t, claim).value);
      }
    }
  }

  lemma StakesTokenExactly(p: Pool, user: Addr, t: Token, reported: Amounts)
    requires PoolLaw(p) && OnceEach(p.pending) && Fits(p, user, t, reported)
    ensures StakeToken(p, user, t, reported).Ok? <==> Grown(p, t, reported, false)
  {
    TakesOffExactly(First(reported, t), p.pending, t, false);
    if Accrued(p, reported, t, false).Ok? {
      TakeOffIs(First(reported, t), p.pending, t, false);
      var delta, weigh := Accrued(p, reported, t, false).value, 0 < p.totalStaked;
      GrowFits(p, t, delta, weigh);
      if weigh {
        GrowKeeps(p, t, delta, true);
        EarnedFits(Grow(p, t, delta, true).value, user, t, false);
      }
    }
  }

  // ----- the loops

  lemma FitsStill(p: Pool, p1: Pool, user: Addr, t: Token, reported: Amounts)
    requires ViewOf(p1, user, t) == ViewOf(p, user, t) && Fits(p, user, t, reported)
    requires p1.pending == p.pending && p1.staked == p.staked
    ensures Fits(p1, user, t, reported)
    ensures forall claim: bool :: Grown(p1, t, reported, claim) == Grown(p, t, reported, claim)
  {
    assert ViewOf(p1, user, t).rewards == ViewOf(p, user, t).rewards && ViewOf(p1, user, t).weight == ViewOf(p, user, t).weight;
  }

  lemma {:induction false} PaysTokensExactly(c: Config, p: Pool, user: Addr, tokens: seq<Token>, reported: Amounts, claim: bool)
    requires PoolLaw(p) && OnceEach(p.pending) && RealFee(c) && DistinctTokens(tokens)
    requires forall t :: t in tokens ==> Fits(p, user, t, reported)
    ensures PayTokens(c, p, user, tokens, reported, claim).Ok? <==>
      forall t :: t in tokens ==> 0 < p.totalStaked && Grown(p, t, reported, claim)
    ensures PayTokens(c, p, user, tokens, reported, claim).Ok? ==>
      PoolLaw(PayTokens(c, p, user, tokens, reported, claim).value)
      && Untouched(p, PayTokens(c, p, user, tokens, reported, claim).value, user, tokens)
  {
    if tokens != [] {
      var before, last := tokens[..|tokens| - 1], tokens[|tokens| - 1];
      LastIsNew(tokens);
      PaysTokensExactly(c, p, user, before, reported, claim);
      assert forall t :: t in tokens <==> t in before || t == last;
      if PayTokens(c, p, user, before, reported, claim).Ok? {
        var p0 := PayTokens(c, p, user, before, reported, claim).value;
        FitsStill(p, p0, user, last, reported);
        PaysTokenExactly(c, p0, user, last, reported, claim);
        if PayToken(c, p0, user, last, reported, claim).Ok? {
          PayTokenKeeps(c, p0, user, last, reported, claim);
          PayTokenTouches(c, p0, user, last, reported, claim);
          UntouchedTwice(p, p0, PayToken(c, p0, user, last, reported, claim).value, user, before, last);
        }
      }
    }
  }

  lemma {:induction false} StakesTokensExactly(p: Pool, user: Addr, tokens: seq<Token>, reported: Amounts)
    requires PoolLaw(p) && OnceEach(p.pending) && DistinctTokens(tokens)
    requires forall t :: t in tokens ==> Fits(p, user, t, reported)
    ensures StakeTokens(p, user, tokens, reported).Ok? <==> forall t :: t in tokens ==> Grown(p, t, reported, false)
    ensures StakeTokens(p, user, tokens, reported).Ok? ==>
      PoolLaw(StakeTokens(p, user, tokens, reported).value)
      && Untouched(p, StakeTokens(p, user, tokens, reported).value, user, tokens)
  {
    if tokens != [] {
      var before, last := tokens[..|tokens| - 1], tokens[|tokens| - 1];
      LastIsNew(tokens);
      StakesTokensExactly(p, user, before, reported);
      assert forall t :: t in tokens <==> t in before || t == last;
      if StakeTokens(p, user, before, reported).Ok? {
        var p0 := StakeTokens(p, user, before, reported).value;
        FitsStill(p, p0, user, last, reported);
        StakesTokenExactly(p0, user, last, reported);
        if StakeToken(p0, user, last, reported).Ok? {
          StakeTokenKeeps(p0, user, last, reported);
          StakeTokenTouches(p0, user, last, reported);
          UntouchedTwice(p, p0, StakeToken(p0, user, last, reported).value, user, before, last);
        }
      }
    }
  }

  // ----- the calls

  /** A claim goes through exactly when somebody is staked and every listed token has grown. */
  lemma ClaimsExactly(c: Config, p: Pool, user: Addr, tokens: seq<Token>, reported: Amounts)
    requires Law(p) && RealFee(c) && DistinctTokens(tokens) && (forall t :: t in tokens ==> Fits(p, user, t, reported))
    ensures Claim(c, p, user, tokens, reported).Ok? <==>
      forall t :: t in tokens ==> 0 < p.totalStaked && Grown(p, t, reported, true)
  {
    PaysTokensExactly(c, p, user, tokens, reported, true);
  }

  /** An unstake goes through exactly for less than the stake, while no report has fallen. */
  lemma UnstakesExactly(c: Config, p: Pool, user: Addr, amount: nat, tokens: seq<Token>, reported: Amounts)
    requires Law(p) && RealFee(c) && DistinctTokens(tokens) && (forall t :: t in tokens ==> Fits(p, user, t, reported))
    ensures Unstake(c, p, user, amount, tokens, reported).Ok? <==>
      0 < amount < Get(p.staked, user) && forall t :: t in tokens ==> Grown(p, t, reported, false)
  {
    PaysTokensExactly(c, p, user, tokens, reported, false);
    EntryWithinTotal(p.staked, user);
  }

  /** A stake goes through exactly while no report has fallen and the total fits. */
  lemma StakesExactly(p: Pool, user: Addr, amount: nat, tokens: seq<Token>, reported: Amounts)
    requires Law(p) && DistinctTokens(tokens) && (forall t :: t in tokens ==> Fits(p, user, t, reported))
    ensures Stake(p, user, amount, tokens, reported).Ok? <==>
      p.totalStaked + amount < U128 && forall t :: t in tokens ==> Grown(p, t, reported, false)
  {
    StakesTokensExactly(p, user, tokens, reported);
    EntryWithinTotal(p.staked, user);
  }
}
