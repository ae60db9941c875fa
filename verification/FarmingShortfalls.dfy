/**
 * The other side of solvency: what is credited reaches the stakers, but for rounding. Each call
 * loses less than one unit per staked token and one token, as long as every staker has an entry
 * for the token - a token that joins the list later finds stakers without one.
 */
module FarmingShortfalls {
  import opened Prelude
  import opened Decimals
  import opened MapSums
  import opened Farming
  import opened FarmingLaws
  import opened FarmingRuns
  import opened FarmingPayouts

  /** Credited rewards that are neither settled nor claimable, in units of 10^-18. */
  ghost function Shortfall(p: Pool, t: Token): int {
    ONE * Get(p.rewards, t) - ONE * Get(p.gross, t) - Total(ClaimMap(p, t))
  }

  /** Whoever has a stake has an entry for the token. */
  predicate Entered(p: Pool, t: Token) {
    forall a :: a in p.staked && 0 < p.staked[a] ==> (a, t) in p.info
  }

  lemma {:induction false} StakesCounted(m: map<(Addr, Token), int>, staked: map<Addr, int>, t: Token)
    requires forall k :: k in m ==> k.1 == t && m[k] == At(staked, k.0)
    requires forall a :: a in staked && staked[a] != 0 ==> (a, t) in m
    ensures Total(m) == Total(staked)
    decreases |m|
  {
    if m == map[] {
      ZeroTotal(staked);
    } else {
      var k :| k in m;
      assert k == (k.0, t);
      TotalRemove(m, k);
      TotalDrop(staked, k.0);
      forall j | j in m - {k} ensures At(staked - {k.0}, j.0) == At(staked, j.0) {
        assert j == (j.0, t);
      }
      StakesCounted(m - {k}, staked - {k.0}, t);
    }
  }

  lemma EnteredCounts(p: Pool, t: Token)
    requires Entered(p, t)
    ensures Total(StakeMap(p, t)) == Total(p.staked)
  {
    StakesCounted(StakeMap(p, t), p.staked, t);
  }

  // ----- one token

  lemma ShortfallElsewhere(p: Pool, p1: Pool, t: Token)
    requires ClaimMap(p1, t) == ClaimMap(p, t) && Get(p1.rewards, t) == Get(p.rewards, t) && Get(p1.gross, t) == Get(p.gross, t)
    ensures Shortfall(p1, t) == Shortfall(p, t)
  {
  }

  lemma GrowLeavesClaims(p: Pool, p1: Pool, t: Token, u: Token)
    requires p1 == p.(rewards := p1.rewards, weights := p1.weights) && Weight(p1, u) == Weight(p, u)
    requires forall k :: k in p.info ==> k.1 in p.weights && k.1 in p1.weights
    ensures ClaimMap(p1, u) == ClaimMap(p, u)
  {
    forall k | k in p.info && k.1 == u ensures Claimable(p1, k.0, u) == Claimable(p, k.0, u) {
      assert k == (k.0, u);
    }
  }

  lemma GrowShortfallElsewhere(p: Pool, p1: Pool, t: Token, delta: nat, weigh: bool)
    requires PoolLaw(p) && Grow(p, t, delta, weigh) == Ok(p1)
    ensures forall u: Token :: u != t ==> Shortfall(p1, u) == Shortfall(p, u)
  {
    var _ := GrowShape(p, p1, t, delta, weigh);
    forall u: Token | u != t ensures Shortfall(p1, u) == Shortfall(p, u) {
      GrowLeavesClaims(p, p1, t, u);
      ShortfallElsewhere(p, p1, u);
    }
  }

  /** A reward reaches the stakers with entries; what the others would have earned is credited to nobody. */
  lemma GrowShortfall(p: Pool, p1: Pool, t: Token, delta: nat, weigh: bool) returns (inc: nat)
    requires PoolLaw(p) && Grow(p, t, delta, weigh) == Ok(p1) && (weigh || p.totalStaked == 0)
    ensures Weight(p1, t) == Weight(p, t) + inc
    ensures Shortfall(p1, t) == Shortfall(p, t) + ONE * delta - inc * Total(StakeMap(p, t))
  {
    inc := GrowShape(p, p1, t, delta, weigh);
    GrowClaims(p, p1, t, inc);
  }

  /** A token the farm lists late: while nobody has an entry for it, its rewards are credited to nobody. */
  lemma LateTokenIsLost(p: Pool, p1: Pool, t: Token, delta: nat)
    requires PoolLaw(p) && Grow(p, t, delta, true) == Ok(p1) && forall a: Addr :: (a, t) !in p.info
    ensures Shortfall(p1, t) == Shortfall(p, t) + ONE * delta
  {
    var inc := GrowShortfall(p, p1, t, delta, true);
    forall k | k in p.info ensures k.1 != t {
      assert k == (k.0, k.1);
    }
    assert StakeMap(p, t) == map[];
    assert inc * 0 == 0;
  }

  lemma CreditedAlmostFully(delta: nat, inc: nat, total: nat, counted: int)
    requires counted == total && 0 < total && inc * total <= delta * ONE < inc * total + total
    ensures 0 <= ONE * delta - inc * counted < total
  {
  }

  /** A settlement loses less than one token. */
  lemma SettleShortfall(p: Pool, p1: Pool, user: Addr, t: Token, earned: nat, kept: nat, lenient: bool)
    requires (forall u: Token :: TokenLaw(p, u)) && (forall k :: k in p.info ==> k.1 in p.weights) && t in p.weights
    requires EarnedBy(p, user, t, lenient) == Ok(earned) && kept <= earned
    requires p1.info == p.info[(user, t) := RewardInfo(Weight(p, t), kept)]
    requires p1.weights == p.weights && p1.staked == p.staked && p1.rewards == p.rewards
    requires forall u: Token :: Get(p1.gross, u) == Get(p.gross, u) + if u == t then earned - kept else 0
    ensures Shortfall(p1, t) < Shortfall(p, t) + ONE
    ensures forall u: Token :: u != t ==> Shortfall(p1, u) == Shortfall(p, u)
  {
    assert TokenLaw(p, t);
    assert InfoOf(p, user, t).weight <= Weight(p, t) by {
      if (user, t) in p.info {
        assert (user, t).1 == t;
      }
    }
    EarnedIsClaimable(p, user, t, lenient);
    EntryWritten(p, p1, user, t, RewardInfo(Weight(p, t), kept));
    NewEntryClaims(p, p1, user, t, kept);
    forall u: Token | u != t ensures Shortfall(p1, u) == Shortfall(p, u) {
      ShortfallElsewhere(p, p1, u);
    }
  }

  /** What one token of a call may lose: roundings, or a whole reward that arrives while nobody is staked. */
  function Loss(p: Pool, t: Token, reported: Amounts): int {
    if 0 < p.totalStaked then p.totalStaked + ONE else ONE * (First(reported, t) - First(p.pending, t))
  }

  ghost predicate LosesLittle(p: Pool, p1: Pool, t: Token, reported: Amounts) {
    && (Entered(p, t) ==> Shortfall(p1, t) <= Shortfall(p, t) + Loss(p, t, reported))
    && forall u: Token :: u != t ==> Shortfall(p1, u) == Shortfall(p, u)
  }

  lemma GrowWeighs(p: Pool, p1: Pool, t: Token, delta: nat, inc: nat)
    requires Grow(p, t, delta, true) == Ok(p1) && 0 < p.totalStaked && Weight(p1, t) == Weight(p, t) + inc
    ensures inc * p.totalStaked <= delta * ONE < inc * p.totalStaked + p.totalStaked
  {
    DivBounds(delta * ONE, p.totalStaked);
  }

  lemma GrowLosesWeighed(p: Pool, p1: Pool, t: Token, delta: nat)
    requires PoolLaw(p) && Grow(p, t, delta, true) == Ok(p1) && 0 < p.totalStaked && Entered(p, t)
    ensures Shortfall(p1, t) < Shortfall(p, t) + p.totalStaked
  {
    var inc := GrowShortfall(p, p1, t, delta, true);
    GrowWeighs(p, p1, t, delta, inc);
    EnteredCounts(p, t);
    CreditedAlmostFully(delta, inc, p.totalStaked, Total(StakeMap(p, t)));
  }

  lemma GrowLosesUnweighed(p: Pool, p1: Pool, t: Token, delta: nat)
    requires PoolLaw(p) && Grow(p, t, delta, false) == Ok(p1) && p.totalStaked == 0
    ensures Shortfall(p1, t) == Shortfall(p, t) + ONE * delta
  {
    var inc := GrowShortfall(p, p1, t, delta, false);
    assert inc == 0;
  }

  lemma GrowLoses(p: Pool, p1: Pool, t: Token, reported: Amounts, weigh: bool)
    requires PoolLaw(p) && First(p.pending, t) <= First(reported, t) && weigh == (0 < p.totalStaked)
    requires Grow(p, t, First(reported, t) - First(p.pending, t), weigh) == Ok(p1)
    ensures Entered(p, t) && weigh ==> Shortfall(p1, t) < Shortfall(p, t) + p.totalStaked
    ensures !weigh ==> Shortfall(p1, t) == Shortfall(p, t) + Loss(p, t, reported)
    ensures forall u: Token :: u != t ==> Shortfall(p1, u) == Shortfall(p, u)
  {
    var delta := First(reported, t) - First(p.pending, t);
    GrowShortfallElsewhere(p, p1, t, delta, weigh);
    if !weigh {
      GrowLosesUnweighed(p, p1, t, delta);
    } else if Entered(p, t) {
      GrowLosesWeighed(p, p1, t, delta);
    }
  }

  lemma EmptyEntryShortfall(p: Pool, user: Addr, t: Token)
    requires forall u: Token :: TokenLaw(p, u)
    requires p.totalStaked == 0
    ensures var p1 := p.(info := p.info[(user, t) := InfoOf(p, user, t)]);
            forall u: Token :: Shortfall(p1, u) == Shortfall(p, u)
  {
    var p1 := p.(info := p.info[(user, t) := InfoOf(p, user, t)]);
    if (user, t) in p.info {
      assert p1.info == p.info;
      assert p1 == p;
    } else {
      EntryWritten(p, p1, user, t, InfoOf(p, user, t));
      NewEntryClaims(p, p1, user, t, 0);
      forall u: Token ensures Shortfall(p1, u) == Shortfall(p, u) {
        if u != t {
          ShortfallElsewhere(p, p1, u);
        }
      }
    }
  }

  lemma StakeTokenLoses(p: Pool, user: Addr, t: Token, reported: Amounts)
    requires PoolLaw(p) && OnceEach(p.pending) && StakeToken(p, user, t, reported).Ok?
    ensures LosesLittle(p, StakeToken(p, user, t, reported).value, t, reported)
  {
    TakeOffIs(First(reported, t), p.pending, t, false);
    var weigh := 0 < p.totalStaked;
    var delta := First(reported, t) - First(p.pending, t);
    var p1, p2 := Grow(p, t, delta, weigh).value, StakeToken(p, user, t, reported).value;
    GrowLoses(p, p1, t, reported, weigh);
    GrowKeeps(p, t, delta, weigh);
    if weigh {
      var earned := EarnedBy(p1, user, t, false).value;
      SettleShortfall(p1, p2, user, t, earned, earned, false);
    } else {
      EmptyEntryShortfall(p1, user, t);
    }
  }

  lemma PayTokenLoses(c: Config, p: Pool, user: Addr, t: Token, reported: Amounts, claim: bool)
    requires PoolLaw(p) && OnceEach(p.pending) && PayToken(c, p, user, t, reported, claim).Ok?
    ensures LosesLittle(p, PayToken(c, p, user, t, reported, claim).value, t, reported)
  {
    TakeOffIs(First(reported, t), p.pending, t, claim);
    var p1, earned := SplitIsExact(c, p, user, t, reported, claim);
    var delta := First(reported, t) - First(p.pending, t);
    GrowLoses(p, p1, t, reported, true);
    GrowKeeps(p, t, delta, true);
    SettleShortfall(p1, PayToken(c, p, user, t, reported, claim).value, user, t, earned, 0, claim);
  }

  // ----- the loops

  ghost predicate AllLoseLittle(p: Pool, p1: Pool, tokens: seq<Token>, reported: Amounts) {
    && (forall t :: t in tokens && Entered(p, t) ==> Shortfall(p1, t) <= Shortfall(p, t) + Loss(p, t, reported))
    && forall u: Token :: u !in tokens ==> Shortfall(p1, u) == Shortfall(p, u)
  }

  lemma OneMoreLoss(p: Pool, p1: Pool, p2: Pool, tokens: seq<Token>, t: Token, reported: Amounts)
    requires AllLoseLittle(p, p1, tokens, reported) && t !in tokens && LosesLittle(p1, p2, t, reported)
    requires p1.staked == p.staked && p1.totalStaked == p.totalStaked && p1.pending == p.pending
    requires forall k :: k in p.info ==> k in p1.info
    ensures AllLoseLittle(p, p2, tokens + [t], reported)
  {
    assert Entered(p, t) ==> Entered(p1, t);
    assert Loss(p1, t, reported) == Loss(p, t, reported);
  }

  ghost predicate Grown(p: Pool, p1: Pool, user: Addr, tokens: seq<Token>) {
    && p1.staked == p.staked && p1.totalStaked == p.totalStaked && p1.pending == p.pending
    && (forall k :: k in p.info ==> k in p1.info)
    && (forall t :: t in tokens ==> (user, t) in p1.info)
    && (forall t: Token :: t in p1.weights <==> t in p.weights || t in tokens)
  }

  lemma {:induction false} StakeTokensLose(p: Pool, user: Addr, tokens: seq<Token>, reported: Amounts)
    requires PoolLaw(p) && OnceEach(p.pending) && DistinctTokens(tokens) && StakeTokens(p, user, tokens, reported).Ok?
    ensures var p1 := StakeTokens(p, user, tokens, reported).value;
            PoolLaw(p1) && Grown(p, p1, user, tokens) && AllLoseLittle(p, p1, tokens, reported)
  {
    if tokens != [] {
      var before, last := tokens[..|tokens| - 1], tokens[|tokens| - 1];
      LastIsNew(tokens);
      StakeTokensLose(p, user, before, reported);
      var p0 := StakeTokens(p, user, before, reported).value;
      StakeTokenKeeps(p0, user, last, reported);
      StakeTokenSteps(p0, user, last, reported);
      StakeTokenLoses(p0, user, last, reported);
      OneMoreLoss(p, p0, StakeToken(p0, user, last, reported).value, before, last, reported);
    }
  }

  lemma {:induction false} PayTokensLose(c: Config, p: Pool, user: Addr, tokens: seq<Token>, reported: Amounts, claim: bool)
    requires PoolLaw(p) && OnceEach(p.pending) && DistinctTokens(tokens) && PayTokens(c, p, user, tokens, reported, claim).Ok?
    ensures var p1 := PayTokens(c, p, user, tokens, reported, claim).value;
            PoolLaw(p1) && Grown(p, p1, user, tokens) && AllLoseLittle(p, p1, tokens, reported)
  {
    if tokens != [] {
      var before, last := tokens[..|tokens| - 1], tokens[|tokens| - 1];
      LastIsNew(tokens);
      PayTokensLose(c, p, user, before, reported, claim);
      var p0 := PayTokens(c, p, user, before, reported, claim).value;
      PayTokenKeeps(c, p0, user, last, reported, claim);
      PayTokenSteps(c, p0, user, last, reported, claim);
      PayTokenLoses(c, p0, user, last, reported, claim);
      OneMoreLoss(p, p0, PayToken(c, p0, user, last, reported, claim).value, before, last, reported);
    }
  }

  // ----- the calls

  /** Every token in use is entered by every staker. */
  predicate AllEntered(p: Pool) {
    forall t :: t in p.weights ==> Entered(p, t)
  }

  /** The farm's list does not grow while somebody is staked. */
  predicate NoNewToken(p: Pool, tokens: seq<Token>) {
    0 < p.totalStaked ==> forall t :: t in tokens ==> t in p.weights
  }

  /** After the loop, stakes are rewritten for one user, whose entries are all current. */
  lemma RestakeLoses(p: Pool, p1: Pool, p2: Pool, user: Addr, own: nat, tokens: seq<Token>, reported: Amounts)
    requires Law(p) && FarmKeepsList(p, tokens, reported) && Looped(p, p1, user, tokens, reported)
    requires AllLoseLittle(p, p1, tokens, reported) && Grown(p, p1, user, tokens)
    requires p2 == p1.(pending := p2.pending, received := p2.received, staked := p1.staked[user := own], totalStaked := p2.totalStaked)
    ensures AllLoseLittle(p, p2, tokens, reported)
  {
    SyncedAfterLoop(p, p1, user, tokens, reported);
    forall t: Token ensures Shortfall(p2, t) == Shortfall(p1, t) {
      RestakeClaims(p1, p2, user, own, t);
      ShortfallElsewhere(p1, p2, t);
    }
  }

  lemma RestakeEnters(p: Pool, p1: Pool, p2: Pool, user: Addr, own: nat, tokens: seq<Token>)
    requires Total(p.staked) == p.totalStaked && AllEntered(p) && NoNewToken(p, tokens) && Grown(p, p1, user, tokens)
    requires forall t :: t in p.weights ==> t in tokens
    requires p2.info == p1.info && p2.weights == p1.weights && p2.staked == p1.staked[user := own]
    ensures AllEntered(p2)
  {
    forall t, a | t in p2.weights && a in p2.staked && 0 < p2.staked[a] ensures (a, t) in p2.info {
      assert t in tokens;
      if a != user {
        EntryWithinTotal(p.staked, a);
        assert t in p.weights && Entered(p, t);
      }
    }
  }

  ghost predicate Outcome(p: Pool, p1: Pool, tokens: seq<Token>, reported: Amounts) {
    AllLoseLittle(p, p1, tokens, reported) && (AllEntered(p) && NoNewToken(p, tokens) ==> AllEntered(p1))
  }

  lemma StakeLoses(p: Pool, user: Addr, amount: nat, tokens: seq<Token>, reported: Amounts)
    requires Law(p) && FarmKeepsList(p, tokens, reported) && Stake(p, user, amount, tokens, reported).Ok?
    ensures Outcome(p, Stake(p, user, amount, tokens, reported).value, tokens, reported)
  {
    StakeTokensLose(p, user, tokens, reported);
    StakeTokensKeep(p, user, tokens, reported);
    var p1, p2 := StakeTokens(p, user, tokens, reported).value, Stake(p, user, amount, tokens, reported).value;
    RestakeLoses(p, p1, p2, user, Get(p.staked, user) + amount, tokens, reported);
    if AllEntered(p) && NoNewToken(p, tokens) {
      RestakeEnters(p, p1, p2, user, Get(p.staked, user) + amount, tokens);
    }
  }

  lemma UnstakeLoses(c: Config, p: Pool, user: Addr, amount: nat, tokens: seq<Token>, reported: Amounts)
    requires Law(p) && FarmKeepsList(p, tokens, reported) && Unstake(c, p, user, amount, tokens, reported).Ok?
    ensures Outcome(p, Unstake(c, p, user, amount, tokens, reported).value, tokens, reported)
  {
    PayTokensLose(c, p, user, tokens, reported, false);
    PayTokensKeep(c, p, user, tokens, reported, false);
    var p1, own := UnstakeShape(c, p, user, amount, tokens, reported);
    var p2 := Unstake(c, p, user, amount, tokens, reported).value;
    RestakeLoses(p, p1, p2, user, own, tokens, reported);
    if AllEntered(p) && NoNewToken(p, tokens) {
      RestakeEnters(p, p1, p2, user, own, tokens);
    }
  }

  lemma ClaimLoses(c: Config, p: Pool, user: Addr, tokens: seq<Token>, reported: Amounts)
    requires Law(p) && FarmKeepsList(p, tokens, reported) && Claim(c, p, user, tokens, reported).Ok?
    ensures Outcome(p, Claim(c, p, user, tokens, reported).value, tokens, reported)
  {
    PayTokensLose(c, p, user, tokens, reported, true);
    var p1, p2 := PayTokens(c, p, user, tokens, reported, true).value, Claim(c, p, user, tokens, reported).value;
    ReceiptsLoseNothing(p, p1, p2, tokens, reported);
    if AllEntered(p) && NoNewToken(p, tokens) {
      ReceiptsEnter(p, p1, p2, user, tokens);
    }
  }

  lemma ReceiptsKeepClaims(p1: Pool, p2: Pool, t: Token)
    requires p2 == p1.(pending := p2.pending, received := p2.received)
    ensures ClaimMap(p2, t) == ClaimMap(p1, t)
  {
    forall k | k in p1.info && k.1 == t ensures Claimable(p2, k.0, t) == Claimable(p1, k.0, t) {
    }
  }

  lemma ReceiptsLoseNothing(p: Pool, p1: Pool, p2: Pool, tokens: seq<Token>, reported: Amounts)
    requires p2 == p1.(pending := p2.pending, received := p2.received) && AllLoseLittle(p, p1, tokens, reported)
    ensures AllLoseLittle(p, p2, tokens, reported)
  {
    forall t: Token ensures Shortfall(p2, t) == Shortfall(p1, t) {
      ReceiptsKeepClaims(p1, p2, t);
      ShortfallElsewhere(p1, p2, t);
    }
  }

  lemma ReceiptsEnter(p: Pool, p1: Pool, p2: Pool, user: Addr, tokens: seq<Token>)
    requires Total(p.staked) == p.totalStaked && AllEntered(p) && NoNewToken(p, tokens) && Grown(p, p1, user, tokens)
    requires p2.info == p1.info && p2.weights == p1.weights && p2.staked == p1.staked
    ensures AllEntered(p2)
  {
    forall t, a | t in p2.weights && a in p2.staked && 0 < p2.staked[a] ensures (a, t) in p2.info {
      EntryWithinTotal(p.staked, a);
      assert t in p.weights && Entered(p, t);
    }
  }

  lemma CallLoses(s: State, call: Call)
    requires Lawful(s) && Fair(s, call) && AfterCall(s.cfg, PoolOf(s, call.pool), call).Ok?
    ensures Outcome(PoolOf(s, call.pool), AfterCall(s.cfg, PoolOf(s, call.pool), call).value, call.tokens, call.reported)
  {
    EmptyPoolIsLawful();
    var p := PoolOf(s, call.pool);
    match call
    case CallStake(_, user, amount, tokens, reported) => StakeLoses(p, user, amount, tokens, reported);
    case CallUnstake(_, user, amount, tokens, reported) => UnstakeLoses(s.cfg, p, user, amount, tokens, reported);
    case CallClaim(_, user, tokens, reported) => ClaimLoses(s.cfg, p, user, tokens, reported);
  }

  // ----- runs

  /** In no call of the run does the farm list a token it had not listed when somebody staked. */
  predicate SteadyList(s: State, calls: seq<Call>, pool: Addr) {
    calls == [] ||
      var s1, call := After(s, calls[..|calls| - 1]), calls[|calls| - 1];
      SteadyList(s, calls[..|calls| - 1], pool) && (call.pool == pool ==> NoNewToken(PoolOf(s1, pool), call.tokens))
  }

  /** The losses the calls on a pool may have added up. */
  function Losses(s: State, calls: seq<Call>, pool: Addr, t: Token): int {
    if calls == [] then 0
    else
      var s1, call := After(s, calls[..|calls| - 1]), calls[|calls| - 1];
      Losses(s, calls[..|calls| - 1], pool, t)
        + if call.pool == pool && t in call.tokens && Made(s1, call).Ok? then Loss(PoolOf(s1, pool), t, call.reported) else 0
  }

  lemma StepLoses(s: State, call: Call, t: Token)
    requires Lawful(s) && Fair(s, call) && Made(s, call).Ok?
    requires AllEntered(PoolOf(s, call.pool)) && NoNewToken(PoolOf(s, call.pool), call.tokens)
    ensures var p, p1 := PoolOf(s, call.pool), PoolOf(Made(s, call).value, call.pool);
            && AllEntered(p1)
            && Shortfall(p1, t) <= Shortfall(p, t) + if t in call.tokens then Loss(p, t, call.reported) else 0
  {
    EmptyPoolIsLawful();
    CallLoses(s, call);
    if t in call.tokens {
      UnlistedIsEntered(PoolOf(s, call.pool), t, call.tokens);
    }
  }

  lemma NeverNegative(p: Pool, t: Token)
    requires Law(p)
    ensures 0 <= Shortfall(p, t)
  {
    assert TokenLaw(p, t);
  }

  lemma NothingShort(t: Token)
    ensures Shortfall(EMPTY_POOL, t) == 0
  {
    assert ClaimMap(EMPTY_POOL, t) == map[];
  }

  lemma {:induction false} LossesBound(s: State, calls: seq<Call>, pool: Addr, t: Token)
    requires s.pools == map[] && s.treasury == map[] && FairRun(s, calls) && SteadyList(s, calls, pool)
    ensures var p := PoolOf(After(s, calls), pool);
            AllEntered(p) && Shortfall(p, t) <= Losses(s, calls, pool, t)
  {
    if calls == [] {
      NothingShort(t);
    } else {
      var before, call := calls[..|calls| - 1], calls[|calls| - 1];
      LossesBound(s, before, pool, t);
      FarmingIsSolvent(s, before);
      if call.pool == pool && Made(After(s, before), call).Ok? {
        StepLoses(After(s, before), call, t);
      }
    }
  }

  /**
   * Over every run against a fair farm whose list is steady: settled rewards and open claims reach
   * the credited rewards but for one unit per staked token and one token in each call, and for
   * rewards that arrived while nobody was staked.
   */
  lemma RewardsReachStakers(s: State, calls: seq<Call>, pool: Addr, t: Token)
    requires s.pools == map[] && s.treasury == map[] && FairRun(s, calls) && SteadyList(s, calls, pool)
    ensures 0 <= Shortfall(PoolOf(After(s, calls), pool), t) <= Losses(s, calls, pool, t)
  {
    FarmingIsSolvent(s, calls);
    EmptyPoolIsLawful();
    LossesBound(s, calls, pool, t);
    NeverNegative(PoolOf(After(s, calls), pool), t);
  }

  /** A token that comes into use finds either nobody staked, or everybody entered. */
  lemma UnlistedIsEntered(p: Pool, t: Token, tokens: seq<Token>)
    requires AllEntered(p) && NoNewToken(p, tokens) && t in tokens && Total(p.staked) == p.totalStaked
    ensures Entered(p, t)
  {
    forall a | a in p.staked && 0 < p.staked[a] ensures (a, t) in p.info {
      EntryWithinTotal(p.staked, a);
    }
  }
}
