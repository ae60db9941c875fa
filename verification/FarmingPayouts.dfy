/**
 * What a call to the farming wrapper gives whom, token by token: the weight rises by the reward per
 * staked token, the user's open claim is settled to the last whole token, and a payout is split
 * between the user and the treasury at the configured rate.
 */
module FarmingPayouts {
  import opened Prelude
  import opened Decimals
  import opened MapSums
  import opened Farming
  import opened FarmingLaws
  import opened FarmingRuns

  /** Everything a call can change about one token for one user. */
  datatype View = View(
    gross: nat, shares: nat, fees: nat, rewards: nat, weight: nat, entry: Option<RewardInfo>,
    stake: nat, total: nat, reported: nat)

  function ViewOf(p: Pool, user: Addr, t: Token): View {
    View(Get(p.gross, t), Get(p.shares, t), Get(p.fees, t), Get(p.rewards, t), Weight(p, t),
         if (user, t) in p.info then Some(p.info[(user, t)]) else None,
         Get(p.staked, user), p.totalStaked, First(p.pending, t))
  }

  /** The reward reported since last time is credited, and raises the weight by its floor per staked token. */
  predicate Credited(v: View, v1: View, report: nat) {
    && v.reported <= report && v1.rewards == v.rewards + (report - v.reported)
    && v.weight <= v1.weight
    && (v1.weight - v.weight) * v.total <= (report - v.reported) * ONE
    && (0 < v.total ==> (report - v.reported) * ONE < (v1.weight - v.weight) * v.total + v.total)
    && (v.total == 0 ==> v1.weight == v.weight)
  }

  /** The user's claim at the new weight, in units of 10^-18; a user without an entry has none. */
  function Due(v: View, weight: nat): int {
    match v.entry
    case None => 0
    case Some(e) => ONE * e.pending + (weight - e.weight) * v.stake
  }

  /** `whole` is the claim less a part of a token. */
  predicate FloorOf(whole: int, due: int) {
    ONE * whole <= due < ONE * whole + ONE
  }

  /** The user is paid all but the fee; the fee is its exact rate of the settlement, rounded up. */
  predicate PaidOut(c: Config, v: View, v1: View) {
    var d, u, f := v1.gross - v.gross, v1.shares - v.shares, v1.fees - v.fees;
    && 0 <= u && 0 <= f && u + f == d
    && d * c.fee <= f * c.multiplier < d * c.fee + c.multiplier
    && FloorOf(d, Due(v, v1.weight))
    && v1.entry == Some(RewardInfo(v1.weight, 0))
  }

  /** The user's claim is kept, in whole tokens, and starts again from the new weight. */
  predicate Banked(v: View, v1: View) {
    && v1.gross == v.gross && v1.shares == v.shares && v1.fees == v.fees
    && v1.entry.Some?
    && (0 < v.total ==> v1.entry.value.weight == v1.weight && FloorOf(v1.entry.value.pending, Due(v, v1.weight)))
    && (v.total == 0 ==> v1.entry == if v.entry.Some? then v.entry else Some(RewardInfo(v.weight, 0)))
  }

  predicate NotAhead(v: View) {
    v.entry.Some? ==> v.entry.value.weight <= v.weight
  }

  // ----- one token

  lemma GrowCredits(p: Pool, user: Addr, t: Token, report: nat, weigh: bool)
    requires First(p.pending, t) <= report && weigh == (0 < p.totalStaked)
    requires Grow(p, t, report - First(p.pending, t), weigh).Ok?
    ensures Credited(ViewOf(p, user, t), ViewOf(Grow(p, t, report - First(p.pending, t), weigh).value, user, t), report)
  {
    if weigh {
      DivBounds((report - First(p.pending, t)) * ONE, p.totalStaked);
    }
  }

  lemma EarnedIsDue(p: Pool, p1: Pool, user: Addr, t: Token, lenient: bool)
    requires NotAhead(ViewOf(p, user, t)) && Weight(p, t) <= Weight(p1, t)
    requires p1 == p.(rewards := p1.rewards, weights := p1.weights) && EarnedBy(p1, user, t, lenient).Ok?
    ensures FloorOf(EarnedBy(p1, user, t, lenient).value, Due(ViewOf(p, user, t), Weight(p1, t)))
  {
    EarnedIsClaimable(p1, user, t, lenient);
  }

  lemma WeighedStakeBanks(p: Pool, p1: Pool, user: Addr, t: Token, earned: nat)
    requires NotAhead(ViewOf(p, user, t)) && Weight(p, t) <= Weight(p1, t) && 0 < p.totalStaked
    requires p1 == p.(rewards := p1.rewards, weights := p1.weights) && EarnedBy(p1, user, t, false) == Ok(earned)
    ensures var p2 := p1.(info := p1.info[(user, t) := RewardInfo(Weight(p1, t), earned)]);
            Banked(ViewOf(p, user, t), ViewOf(p2, user, t))
  {
    EarnedIsDue(p, p1, user, t, false);
  }

  lemma EmptyStakeBanks(p: Pool, p1: Pool, user: Addr, t: Token)
    requires Weight(p1, t) == Weight(p, t) && p.totalStaked == 0
    requires p1 == p.(rewards := p1.rewards, weights := p1.weights)
    ensures var p2 := p1.(info := p1.info[(user, t) := InfoOf(p1, user, t)]);
            Banked(ViewOf(p, user, t), ViewOf(p2, user, t))
  {
  }

  lemma CreditedStays(v: View, v1: View, v2: View, report: nat)
    requires Credited(v, v1, report) && v2.rewards == v1.rewards && v2.weight == v1.weight
    ensures Credited(v, v2, report)
  {
  }

  lemma StakeTokenBanks(p: Pool, user: Addr, t: Token, reported: Amounts)
    requires OnceEach(p.pending) && NotAhead(ViewOf(p, user, t)) && StakeToken(p, user, t, reported).Ok?
    ensures var v, v1 := ViewOf(p, user, t), ViewOf(StakeToken(p, user, t, reported).value, user, t);
            Credited(v, v1, First(reported, t)) && Banked(v, v1)
  {
    TakeOffIs(First(reported, t), p.pending, t, false);
    var weigh := 0 < p.totalStaked;
    GrowCredits(p, user, t, First(reported, t), weigh);
    var p1, p2 := Grow(p, t, Accrued(p, reported, t, false).value, weigh).value, StakeToken(p, user, t, reported).value;
    CreditedStays(ViewOf(p, user, t), ViewOf(p1, user, t), ViewOf(p2, user, t), First(reported, t));
    if weigh {
      WeighedStakeBanks(p, p1, user, t, EarnedBy(p1, user, t, false).value);
    } else {
      EmptyStakeBanks(p, p1, user, t);
    }
  }

  lemma SettledIsPaidOut(c: Config, p: Pool, p1: Pool, user: Addr, t: Token, earned: nat, claim: bool)
    requires NotAhead(ViewOf(p, user, t)) && Weight(p, t) <= Weight(p1, t)
    requires p1 == p.(rewards := p1.rewards, weights := p1.weights) && EarnedBy(p1, user, t, claim) == Ok(earned)
    requires ShareOf(c, earned).Ok?
    ensures PaidOut(c, ViewOf(p, user, t), ViewOf(Paid(p1, user, t, earned, ShareOf(c, earned).value), user, t))
  {
    EarnedIsDue(p, p1, user, t, claim);
    FeeRoundsUp(c, earned);
    SharePaid(c, p1, user, t, earned);
  }

  lemma PayTokenPays(c: Config, p: Pool, user: Addr, t: Token, reported: Amounts, claim: bool)
    requires OnceEach(p.pending) && NotAhead(ViewOf(p, user, t)) && PayToken(c, p, user, t, reported, claim).Ok?
    ensures var v, v1 := ViewOf(p, user, t), ViewOf(PayToken(c, p, user, t, reported, claim).value, user, t);
            Credited(v, v1, First(reported, t)) && PaidOut(c, v, v1)
  {
    TakeOffIs(First(reported, t), p.pending, t, claim);
    GrowCredits(p, user, t, First(reported, t), true);
    var p1, p2 := Grow(p, t, Accrued(p, reported, t, claim).value, true).value, PayToken(c, p, user, t, reported, claim).value;
    CreditedStays(ViewOf(p, user, t), ViewOf(p1, user, t), ViewOf(p2, user, t), First(reported, t));
    SettledIsPaidOut(c, p, p1, user, t, EarnedBy(p1, user, t, claim).value, claim);
  }

  lemma SharePaid(c: Config, p: Pool, user: Addr, t: Token, earned: nat)
    requires ShareOf(c, earned).Ok? && ShareOf(c, earned).value <= earned
    ensures var p1 := Paid(p, user, t, earned, ShareOf(c, earned).value);
            && Get(p1.gross, t) == Get(p.gross, t) + earned
            && Get(p1.shares, t) == Get(p.shares, t) + ShareOf(c, earned).value
            && Get(p1.fees, t) == Get(p.fees, t) + (earned - ShareOf(c, earned).value)
  {
  }

  /** A step for one token changes nothing about another, nor about other users' entries. */
  ghost predicate Untouched(p: Pool, p1: Pool, user: Addr, tokens: seq<Token>) {
    && (forall u: Token :: u !in tokens ==> ViewOf(p1, user, u) == ViewOf(p, user, u))
    && (forall k: (Addr, Token) :: k.0 != user ==> (k in p1.info <==> k in p.info) && (k in p.info ==> p1.info[k] == p.info[k]))
    && p1.staked == p.staked && p1.totalStaked == p.totalStaked && p1.pending == p.pending
  }

  lemma GrowTouches(p: Pool, user: Addr, t: Token, delta: nat, weigh: bool)
    requires Grow(p, t, delta, weigh).Ok?
    ensures Untouched(p, Grow(p, t, delta, weigh).value, user, [t])
  {
  }

  lemma WriteTouches(p: Pool, p1: Pool, p2: Pool, user: Addr, t: Token, i: RewardInfo)
    requires Untouched(p, p1, user, [t])
    requires p2 == p1.(info := p1.info[(user, t) := i], gross := p2.gross, shares := p2.shares, fees := p2.fees)
    requires p2.gross - {t} == p1.gross - {t} && p2.shares - {t} == p1.shares - {t} && p2.fees - {t} == p1.fees - {t}
    ensures Untouched(p, p2, user, [t])
  {
    forall u: Token | u != t ensures ViewOf(p2, user, u) == ViewOf(p1, user, u) {
      SameGet(p1.gross, p2.gross, t, u);
      SameGet(p1.shares, p2.shares, t, u);
      SameGet(p1.fees, p2.fees, t, u);
    }
  }

  lemma SameGet(m: map<Token, nat>, m1: map<Token, nat>, t: Token, u: Token)
    requires m1 - {t} == m - {t} && u != t
    ensures Get(m1, u) == Get(m, u)
  {
    assert u in m <==> u in m - {t};
    assert u in m1 <==> u in m1 - {t};
    if u in m {
      assert (m - {t})[u] == (m1 - {t})[u];
    }
  }

  lemma StakeTokenTouches(p: Pool, user: Addr, t: Token, reported: Amounts)
    requires StakeToken(p, user, t, reported).Ok?
    ensures Untouched(p, StakeToken(p, user, t, reported).value, user, [t])
  {
    var delta, weigh := Accrued(p, reported, t, false).value, p.totalStaked > 0;
    GrowTouches(p, user, t, delta, weigh);
    var p1, p2 := Grow(p, t, delta, weigh).value, StakeToken(p, user, t, reported).value;
    WriteTouches(p, p1, p2, user, t, p2.info[(user, t)]);
  }

  lemma PaidTouches(p: Pool, user: Addr, t: Token, earned: nat, share: nat)
    ensures var p1 := Paid(p, user, t, earned, share);
            && p1 == p.(info := p.info[(user, t) := RewardInfo(Get(p.weights, t), 0)], gross := p1.gross, shares := p1.shares, fees := p1.fees)
            && p1.gross - {t} == p.gross - {t} && p1.shares - {t} == p.shares - {t} && p1.fees - {t} == p.fees - {t}
  {
  }

  lemma PayTokenTouches(c: Config, p: Pool, user: Addr, t: Token, reported: Amounts, claim: bool)
    requires PayToken(c, p, user, t, reported, claim).Ok?
    ensures Untouched(p, PayToken(c, p, user, t, reported, claim).value, user, [t])
  {
    var delta := Accrued(p, reported, t, claim).value;
    GrowTouches(p, user, t, delta, true);
    var p1 := Grow(p, t, delta, true).value;
    var earned := EarnedBy(p1, user, t, claim).value;
    PaidTouches(p1, user, t, earned, ShareOf(c, earned).value);
    WriteTouches(p, p1, PayToken(c, p, user, t, reported, claim).value, user, t, RewardInfo(Get(p1.weights, t), 0));
  }

  lemma UntouchedTwice(p: Pool, p1: Pool, p2: Pool, user: Addr, tokens: seq<Token>, t: Token)
    requires Untouched(p, p1, user, tokens) && Untouched(p1, p2, user, [t])
    ensures Untouched(p, p2, user, tokens + [t])
  {
  }

  // ----- the loops

  ghost predicate AllPaid(c: Config, p: Pool, p1: Pool, user: Addr, tokens: seq<Token>, reported: Amounts) {
    forall t :: t in tokens ==>
      Credited(ViewOf(p, user, t), ViewOf(p1, user, t), First(reported, t)) && PaidOut(c, ViewOf(p, user, t), ViewOf(p1, user, t))
  }

  ghost predicate AllBanked(p: Pool, p1: Pool, user: Addr, tokens: seq<Token>, reported: Amounts) {
    forall t :: t in tokens ==>
      Credited(ViewOf(p, user, t), ViewOf(p1, user, t), First(reported, t)) && Banked(ViewOf(p, user, t), ViewOf(p1, user, t))
  }

  lemma {:induction false} StakeTokensBank(p: Pool, user: Addr, tokens: seq<Token>, reported: Amounts)
    requires DistinctTokens(tokens) && OnceEach(p.pending) && (forall t: Token :: NotAhead(ViewOf(p, user, t)))
    requires StakeTokens(p, user, tokens, reported).Ok?
    ensures var p1 := StakeTokens(p, user, tokens, reported).value;
            Untouched(p, p1, user, tokens) && AllBanked(p, p1, user, tokens, reported)
  {
    if tokens != [] {
      var before, last := tokens[..|tokens| - 1], tokens[|tokens| - 1];
      LastIsNew(tokens);
      StakeTokensBank(p, user, before, reported);
      var p0 := StakeTokens(p, user, before, reported).value;
      StakeTokenBanks(p0, user, last, reported);
      StakeTokenTouches(p0, user, last, reported);
      UntouchedTwice(p, p0, StakeTokens(p, user, tokens, reported).value, user, before, last);
    }
  }

  lemma {:induction false} PayTokensPay(c: Config, p: Pool, user: Addr, tokens: seq<Token>, reported: Amounts, claim: bool)
    requires DistinctTokens(tokens) && OnceEach(p.pending) && (forall t: Token :: NotAhead(ViewOf(p, user, t)))
    requires PayTokens(c, p, user, tokens, reported, claim).Ok?
    ensures var p1 := PayTokens(c, p, user, tokens, reported, claim).value;
            Untouched(p, p1, user, tokens) && AllPaid(c, p, p1, user, tokens, reported)
  {
    if tokens != [] {
      var before, last := tokens[..|tokens| - 1], tokens[|tokens| - 1];
      LastIsNew(tokens);
      PayTokensPay(c, p, user, before, reported, claim);
      var p0 := PayTokens(c, p, user, before, reported, claim).value;
      PayTokenPays(c, p0, user, last, reported, claim);
      PayTokenTouches(c, p0, user, last, reported, claim);
      UntouchedTwice(p, p0, PayTokens(c, p, user, tokens, reported, claim).value, user, before, last);
    }
  }

  // ----- the calls

  lemma LawNotAhead(p: Pool, user: Addr)
    requires Law(p)
    ensures forall t: Token :: NotAhead(ViewOf(p, user, t))
  {
    forall t: Token ensures NotAhead(ViewOf(p, user, t)) {
      assert TokenLaw(p, t);
      assert (user, t).1 == t;
    }
  }

  /** Other users' stakes and entries, and the tokens not distributed, are left alone. */
  ghost predicate OthersKept(p: Pool, p1: Pool, user: Addr, tokens: seq<Token>) {
    && (forall a :: a != user ==> Get(p1.staked, a) == Get(p.staked, a))
    && (forall k: (Addr, Token) :: k.0 != user ==> (k in p1.info <==> k in p.info) && (k in p.info ==> p1.info[k] == p.info[k]))
    && forall t :: t !in tokens ==>
         var v, v1 := ViewOf(p, user, t), ViewOf(p1, user, t);
         && v1.gross == v.gross && v1.shares == v.shares && v1.fees == v.fees
         && v1.rewards == v.rewards && v1.weight == v.weight && v1.entry == v.entry
  }

  /** A claim pays out every distributed token and leaves all stakes as they are. */
  lemma ClaimPaysOut(c: Config, p: Pool, user: Addr, tokens: seq<Token>, reported: Amounts)
    requires Law(p) && DistinctTokens(tokens) && Claim(c, p, user, tokens, reported).Ok?
    ensures var p1 := Claim(c, p, user, tokens, reported).value;
            && p1.staked == p.staked && p1.totalStaked == p.totalStaked && OthersKept(p, p1, user, tokens)
            && AllPaid(c, p, p1, user, tokens, reported)
  {
    LawNotAhead(p, user);
    PayTokensPay(c, p, user, tokens, reported, true);
    var p1, p2 := PayTokens(c, p, user, tokens, reported, true).value, Claim(c, p, user, tokens, reported).value;
    SameButPending(c, p, p1, p2, user, tokens, reported);
    OthersStay(p, p1, p2, user, tokens);
  }

  /** An unstake pays out every distributed token and takes the amount from the user's stake and the total. */
  lemma UnstakePaysOut(c: Config, p: Pool, user: Addr, amount: nat, tokens: seq<Token>, reported: Amounts)
    requires Law(p) && DistinctTokens(tokens) && Unstake(c, p, user, amount, tokens, reported).Ok?
    ensures var p1 := Unstake(c, p, user, amount, tokens, reported).value;
            && Get(p1.staked, user) == Get(p.staked, user) - amount && p1.totalStaked == p.totalStaked - amount
            && OthersKept(p, p1, user, tokens)
            && AllPaid(c, p, p1, user, tokens, reported)
  {
    LawNotAhead(p, user);
    PayTokensPay(c, p, user, tokens, reported, false);
    var p1, p2 := PayTokens(c, p, user, tokens, reported, false).value, Unstake(c, p, user, amount, tokens, reported).value;
    SameButPending(c, p, p1, p2, user, tokens, reported);
    OthersStay(p, p1, p2, user, tokens);
  }

  /** A stake pays nothing out: it banks what the user has earned and raises stake and total by the amount. */
  lemma StakeBanks(p: Pool, user: Addr, amount: nat, tokens: seq<Token>, reported: Amounts)
    requires Law(p) && DistinctTokens(tokens) && Stake(p, user, amount, tokens, reported).Ok?
    ensures var p1 := Stake(p, user, amount, tokens, reported).value;
            && Get(p1.staked, user) == Get(p.staked, user) + amount && p1.totalStaked == p.totalStaked + amount
            && p1.pending == reported && OthersKept(p, p1, user, tokens)
            && AllBanked(p, p1, user, tokens, reported)
  {
    LawNotAhead(p, user);
    StakeTokensBank(p, user, tokens, reported);
    var p1, p2 := StakeTokens(p, user, tokens, reported).value, Stake(p, user, amount, tokens, reported).value;
    SameButPending(Config(0, 1), p, p1, p2, user, tokens, reported);
    OthersStay(p, p1, p2, user, tokens);
  }

  lemma ViewAfter(p1: Pool, p2: Pool, user: Addr, t: Token)
    requires p2 == p1.(pending := p2.pending, received := p2.received, staked := p2.staked, totalStaked := p2.totalStaked)
    ensures ViewOf(p2, user, t)
         == ViewOf(p1, user, t).(stake := Get(p2.staked, user), total := p2.totalStaked, reported := First(p2.pending, t))
  {
  }

  lemma OutcomeStays(c: Config, v: View, v1: View, v2: View, report: nat)
    requires v2 == v1.(stake := v2.stake, total := v2.total, reported := v2.reported)
    ensures Credited(v, v1, report) ==> Credited(v, v2, report)
    ensures PaidOut(c, v, v1) ==> PaidOut(c, v, v2)
    ensures Banked(v, v1) ==> Banked(v, v2)
  {
  }

  /** Changing stakes, the stored report and the receipts afterwards leaves all of that as it is. */
  lemma SameButPending(c: Config, p: Pool, p1: Pool, p2: Pool, user: Addr, tokens: seq<Token>, reported: Amounts)
    requires p2 == p1.(pending := p2.pending, received := p2.received, staked := p2.staked, totalStaked := p2.totalStaked)
    ensures AllPaid(c, p, p1, user, tokens, reported) ==> AllPaid(c, p, p2, user, tokens, reported)
    ensures AllBanked(p, p1, user, tokens, reported) ==> AllBanked(p, p2, user, tokens, reported)
  {
    forall t | t in tokens
      ensures Credited(ViewOf(p, user, t), ViewOf(p1, user, t), First(reported, t))
          ==> Credited(ViewOf(p, user, t), ViewOf(p2, user, t), First(reported, t))
      ensures PaidOut(c, ViewOf(p, user, t), ViewOf(p1, user, t)) ==> PaidOut(c, ViewOf(p, user, t), ViewOf(p2, user, t))
      ensures Banked(ViewOf(p, user, t), ViewOf(p1, user, t)) ==> Banked(ViewOf(p, user, t), ViewOf(p2, user, t)) {
      ViewAfter(p1, p2, user, t);
      OutcomeStays(c, ViewOf(p, user, t), ViewOf(p1, user, t), ViewOf(p2, user, t), First(reported, t));
    }
  }

  lemma OthersStay(p: Pool, p1: Pool, p2: Pool, user: Addr, tokens: seq<Token>)
    requires Untouched(p, p1, user, tokens)
    requires p2 == p1.(pending := p2.pending, received := p2.received, staked := p2.staked, totalStaked := p2.totalStaked)
    requires forall a :: a != user ==> Get(p2.staked, a) == Get(p.staked, a)
    ensures OthersKept(p, p2, user, tokens)
  {
    forall t: Token | t !in tokens ensures ViewOf(p2, user, t).entry == ViewOf(p1, user, t).entry {
      assert ViewOf(p1, user, t) == ViewOf(p, user, t);
    }
  }

  /** The part of a payout the user does not get reaches the treasury, which all pools share. */
  lemma CallCreditsTreasury(s: State, call: Call, t: Token)
    requires Lawful(s) && Fair(s, call) && !call.CallStake? && Made(s, call).Ok? && t in call.tokens
    ensures var p, p1 := PoolOf(s, call.pool), PoolOf(Made(s, call).value, call.pool);
            var v, v1 := ViewOf(p, call.user, t), ViewOf(p1, call.user, t);
            && PaidOut(s.cfg, v, v1)
            && Get(Made(s, call).value.treasury, t) == Get(s.treasury, t) + (v1.fees - v.fees)
  {
    EmptyPoolIsLawful();
    CallFees(s, call, t);
    var p := PoolOf(s, call.pool);
    match call
    case CallUnstake(_, user, amount, tokens, reported) => UnstakePaysOut(s.cfg, p, user, amount, tokens, reported);
    case CallClaim(_, user, tokens, reported) => ClaimPaysOut(s.cfg, p, user, tokens, reported);
  }
}
