/**
 * Whole calls and runs of the farming wrapper, against a farm that pays exactly what it reported
 * and whose token list for a pool never drops a token.
 */
module FarmingRuns {
  import opened Prelude
  import opened Decimals
  import opened MapSums
  import opened Farming
  import opened FarmingLaws

  // ----- what the farm promises

  predicate DistinctTokens(tokens: seq<Token>) {
    forall i, j :: 0 <= i < j < |tokens| ==> tokens[i] != tokens[j]
  }

  predicate OnceEach(amounts: Amounts) {
    forall i, j :: 0 <= i < j < |amounts| ==> amounts[i].0 != amounts[j].0
  }

  predicate Mentions(tokens: seq<Token>, amounts: Amounts) {
    forall a :: a in amounts ==> a.0 in tokens
  }

  /** The list names each token once and covers every token ever credited or reported. */
  predicate FarmKeepsList(p: Pool, tokens: seq<Token>, reported: Amounts) {
    && DistinctTokens(tokens) && OnceEach(reported)
    && Mentions(tokens, reported) && Mentions(tokens, p.pending)
    && forall t :: t in p.weights ==> t in tokens
  }

  /** Credited rewards have been paid by the farm or are reported as pending there. */
  predicate Accounted(p: Pool, t: Token) {
    Get(p.received, t) + First(p.pending, t) == Get(p.rewards, t)
  }

  ghost predicate Law(p: Pool) {
    PoolLaw(p) && OnceEach(p.pending) && forall t: Token :: Accounted(p, t) && Get(p.gross, t) <= Get(p.received, t)
  }

  // ----- the reported deltas

  lemma {:induction false} FirstMissing(amounts: Amounts, t: Token)
    requires forall a :: a in amounts ==> a.0 != t
    ensures First(amounts, t) == 0
  {
    if amounts != [] {
      assert amounts[0] in amounts;
      FirstMissing(amounts[1..], t);
    }
  }

  /** With each token named once, the loop takes off exactly the earlier figure. */
  lemma {:induction false} TakeOffIs(current: nat, pending: Amounts, t: Token, strict: bool)
    requires OnceEach(pending) && TakeOff(current, pending, t, strict).Ok?
    ensures TakeOff(current, pending, t, strict).value == current - First(pending, t)
  {
    if pending != [] {
      if pending[0].0 != t {
        TakeOffIs(current, pending[1..], t, strict);
      } else {
        forall a | a in pending[1..] ensures a.0 != t {
        }
        FirstMissing(pending[1..], t);
        TakeOffIs(current - pending[0].1, pending[1..], t, strict);
      }
    }
  }

  // ----- what one token of a call leaves alone

  /** A step for token `t` of `user`. */
  ghost predicate Stepped(p: Pool, p1: Pool, user: Addr, t: Token, reported: Amounts) {
    && p1.staked == p.staked && p1.totalStaked == p.totalStaked && p1.pending == p.pending && p1.received == p.received
    && (forall u: Token :: Get(p1.rewards, u) == Get(p.rewards, u) + if u == t then First(reported, t) - First(p.pending, t) else 0)
    && (forall u: Token :: u in p1.weights <==> u in p.weights || u == t)
    && (forall u: Token :: u != t ==> Weight(p1, u) == Weight(p, u))
    && (user, t) in p1.info && p1.info[(user, t)].weight == Weight(p1, t)
    && p1.info == p.info[(user, t) := p1.info[(user, t)]]
  }

  lemma GrowMoves(p: Pool, t: Token, delta: nat, weigh: bool)
    requires PoolLaw(p) && Grow(p, t, delta, weigh).Ok? && (weigh || p.totalStaked == 0)
    ensures var p1 := Grow(p, t, delta, weigh).value;
            && p1 == p.(rewards := p1.rewards, weights := p1.weights)
            && (forall u: Token :: Get(p1.rewards, u) == Get(p.rewards, u) + if u == t then delta else 0)
            && (forall u: Token :: u in p1.weights <==> u in p.weights || u == t)
            && (forall u: Token :: u != t ==> Weight(p1, u) == Weight(p, u))
  {
    GrowKeeps(p, t, delta, weigh);
  }

  /** Growth by the reported delta, then one entry written at the new weight. */
  lemma GrowThenWrite(p: Pool, p1: Pool, p2: Pool, user: Addr, t: Token, reported: Amounts, weigh: bool, x: nat)
    requires PoolLaw(p) && (weigh || p.totalStaked == 0) && First(p.pending, t) <= First(reported, t)
    requires Grow(p, t, First(reported, t) - First(p.pending, t), weigh) == Ok(p1)
    requires p2 == p1.(info := p1.info[(user, t) := RewardInfo(Weight(p1, t), x)], gross := p2.gross, shares := p2.shares, fees := p2.fees)
    ensures Stepped(p, p2, user, t, reported)
  {
    GrowMoves(p, t, First(reported, t) - First(p.pending, t), weigh);
  }

  lemma StakeTokenSteps(p: Pool, user: Addr, t: Token, reported: Amounts)
    requires PoolLaw(p) && OnceEach(p.pending) && StakeToken(p, user, t, reported).Ok?
    ensures Stepped(p, StakeToken(p, user, t, reported).value, user, t, reported)
  {
    var delta := Accrued(p, reported, t, false).value;
    TakeOffIs(First(reported, t), p.pending, t, false);
    var p1 := Grow(p, t, delta, p.totalStaked > 0).value;
    if p.totalStaked == 0 {
      GrowKeeps(p, t, delta, false);
      EmptyPoolWeights(p1, user, t);
      GrowThenWrite(p, p1, StakeToken(p, user, t, reported).value, user, t, reported, false, InfoOf(p1, user, t).pending);
    } else {
      GrowThenWrite(p, p1, StakeToken(p, user, t, reported).value, user, t, reported, true, EarnedBy(p1, user, t, false).value);
    }
  }

  lemma EmptyPoolWeights(p: Pool, user: Addr, t: Token)
    requires TokenLaw(p, t) && p.totalStaked == 0
    ensures InfoOf(p, user, t).weight == Weight(p, t) == 0
  {
  }

  lemma PayTokenSteps(c: Config, p: Pool, user: Addr, t: Token, reported: Amounts, claim: bool)
    requires PoolLaw(p) && OnceEach(p.pending) && PayToken(c, p, user, t, reported, claim).Ok?
    ensures Stepped(p, PayToken(c, p, user, t, reported, claim).value, user, t, reported)
  {
    TakeOffIs(First(reported, t), p.pending, t, claim);
    var p1 := Grow(p, t, Accrued(p, reported, t, claim).value, true).value;
    GrowThenWrite(p, p1, PayToken(c, p, user, t, reported, claim).value, user, t, reported, true, 0);
  }

  // ----- the loops

  /** After the loop over `tokens`: their rewards are credited and the user's entries are current. */
  ghost predicate Looped(p: Pool, p1: Pool, user: Addr, tokens: seq<Token>, reported: Amounts) {
    && PoolLaw(p1)
    && p1.staked == p.staked && p1.totalStaked == p.totalStaked && p1.pending == p.pending && p1.received == p.received
    && (forall u: Token :: Get(p1.rewards, u) == Get(p.rewards, u) + if u in tokens then First(reported, u) - First(p.pending, u) else 0)
    && (forall u: Token :: u in p1.weights <==> u in p.weights || u in tokens)
    && (forall u: Token :: u in tokens ==> (user, u) in p1.info && p1.info[(user, u)].weight == Weight(p1, u))
  }

  lemma LoopStep(p: Pool, p1: Pool, p2: Pool, user: Addr, tokens: seq<Token>, t: Token, reported: Amounts)
    requires Looped(p, p1, user, tokens, reported) && t !in tokens
    requires Stepped(p1, p2, user, t, reported) && PoolLaw(p2)
    ensures Looped(p, p2, user, tokens + [t], reported)
  {
    forall u: Token ensures u in tokens + [t] <==> u in tokens || u == t {
    }
    forall u: Token | u in tokens ensures (user, u) in p2.info && p2.info[(user, u)].weight == Weight(p2, u) {
      EntryStays(p1, p2, user, t, u);
    }
  }

  lemma EntryStays(p1: Pool, p2: Pool, user: Addr, t: Token, u: Token)
    requires (user, u) in p1.info && u != t
    requires (user, t) in p2.info && p2.info == p1.info[(user, t) := p2.info[(user, t)]]
    ensures (user, u) in p2.info && p2.info[(user, u)] == p1.info[(user, u)]
  {
  }

  lemma StakeLoopStep(p: Pool, p1: Pool, user: Addr, tokens: seq<Token>, t: Token, reported: Amounts)
    requires Looped(p, p1, user, tokens, reported) && t !in tokens && OnceEach(p.pending)
    requires StakeToken(p1, user, t, reported).Ok?
    ensures Looped(p, StakeToken(p1, user, t, reported).value, user, tokens + [t], reported)
  {
    StakeTokenKeeps(p1, user, t, reported);
    StakeTokenSteps(p1, user, t, reported);
    LoopStep(p, p1, StakeToken(p1, user, t, reported).value, user, tokens, t, reported);
  }

  lemma PayLoopStep(c: Config, p: Pool, p1: Pool, user: Addr, tokens: seq<Token>, t: Token, reported: Amounts, claim: bool)
    requires Looped(p, p1, user, tokens, reported) && t !in tokens && OnceEach(p.pending)
    requires PayToken(c, p1, user, t, reported, claim).Ok?
    ensures Looped(p, PayToken(c, p1, user, t, reported, claim).value, user, tokens + [t], reported)
  {
    PayTokenKeeps(c, p1, user, t, reported, claim);
    PayTokenSteps(c, p1, user, t, reported, claim);
    LoopStep(p, p1, PayToken(c, p1, user, t, reported, claim).value, user, tokens, t, reported);
  }

  lemma LastIsNew(tokens: seq<Token>)
    requires DistinctTokens(tokens) && tokens != []
    ensures DistinctTokens(tokens[..|tokens| - 1]) && tokens[|tokens| - 1] !in tokens[..|tokens| - 1]
    ensures tokens == tokens[..|tokens| - 1] + [tokens[|tokens| - 1]]
  {
  }

  lemma {:induction false} StakeTokensKeep(p: Pool, user: Addr, tokens: seq<Token>, reported: Amounts)
    requires PoolLaw(p) && OnceEach(p.pending) && DistinctTokens(tokens) && StakeTokens(p, user, tokens, reported).Ok?
    ensures Looped(p, StakeTokens(p, user, tokens, reported).value, user, tokens, reported)
  {
    if tokens != [] {
      var before, t := tokens[..|tokens| - 1], tokens[|tokens| - 1];
      LastIsNew(tokens);
      StakeTokensKeep(p, user, before, reported);
      StakeLoopStep(p, StakeTokens(p, user, before, reported).value, user, before, t, reported);
    }
  }

  lemma {:induction false} PayTokensKeep(c: Config, p: Pool, user: Addr, tokens: seq<Token>, reported: Amounts, claim: bool)
    requires PoolLaw(p) && OnceEach(p.pending) && DistinctTokens(tokens) && PayTokens(c, p, user, tokens, reported, claim).Ok?
    ensures Looped(p, PayTokens(c, p, user, tokens, reported, claim).value, user, tokens, reported)
  {
    if tokens != [] {
      var before, t := tokens[..|tokens| - 1], tokens[|tokens| - 1];
      LastIsNew(tokens);
      PayTokensKeep(c, p, user, before, reported, claim);
      PayLoopStep(c, p, PayTokens(c, p, user, before, reported, claim).value, user, before, t, reported, claim);
    }
  }

  // ----- the calls

  /** Changing the stake of a user whose entries are all current leaves every claim as it is. */
  lemma RestakeKeeps(p: Pool, p1: Pool, user: Addr, own: nat)
    requires PoolLaw(p) && p1.info == p.info && p1.weights == p.weights && p1.rewards == p.rewards
    requires p1.gross == p.gross && p1.shares == p.shares && p1.fees == p.fees
    requires p1.staked == p.staked[user := own] && p1.totalStaked == p.totalStaked - Get(p.staked, user) + own
    requires p1.totalStaked == 0 ==> p.totalStaked == 0
    requires forall u: Token :: (user, u) in p.info ==> p.info[(user, u)].weight == Weight(p, u)
    ensures PoolLaw(p1)
  {
    TotalUpdate(p.staked, user, own);
    forall t: Token ensures TokenLaw(p1, t) {
      assert TokenLaw(p, t);
      RestakeClaims(p, p1, user, own, t);
    }
  }

  lemma RestakedEntry(p: Pool, p1: Pool, user: Addr, own: nat, k: (Addr, Token))
    requires p1.info == p.info && p1.weights == p.weights && p1.staked == p.staked[user := own]
    requires k in p.info && (k.0 == user ==> p.info[k].weight == Weight(p, k.1))
    ensures Claimable(p1, k.0, k.1) == Claimable(p, k.0, k.1)
  {
    assert k == (k.0, k.1);
  }

  lemma RestakeClaims(p: Pool, p1: Pool, user: Addr, own: nat, t: Token)
    requires p1.info == p.info && p1.weights == p.weights && p1.staked == p.staked[user := own]
    requires forall u: Token :: (user, u) in p.info ==> p.info[(user, u)].weight == Weight(p, u)
    ensures ClaimMap(p1, t) == ClaimMap(p, t)
  {
    forall k | k in p.info && k.1 == t ensures Claimable(p1, k.0, t) == Claimable(p, k.0, t) {
      assert k == (k.0, t);
      RestakedEntry(p, p1, user, own, k);
    }
  }

  lemma SyncedAfterLoop(p: Pool, p1: Pool, user: Addr, tokens: seq<Token>, reported: Amounts)
    requires Looped(p, p1, user, tokens, reported) && forall t :: t in p.weights ==> t in tokens
    ensures forall u: Token :: (user, u) in p1.info ==> p1.info[(user, u)].weight == Weight(p1, u)
  {
  }

  lemma UserStakeWithinTotal(p: Pool, user: Addr)
    requires Total(p.staked) == p.totalStaked
    ensures Get(p.staked, user) <= p.totalStaked
  {
    EntryWithinTotal(p.staked, user);
  }

  /** Nothing the farm pays or reports is lost or counted twice. */
  lemma AccountedAfterStake(p: Pool, p1: Pool, user: Addr, tokens: seq<Token>, reported: Amounts, t: Token)
    requires Looped(p, p1, user, tokens, reported) && FarmKeepsList(p, tokens, reported) && Accounted(p, t)
    ensures Get(p1.received, t) + First(reported, t) == Get(p1.rewards, t)
  {
    if t !in tokens {
      FirstMissing(reported, t);
      FirstMissing(p.pending, t);
    }
  }

  lemma {:induction false} ReceiveIs(received: map<Token, nat>, tokens: seq<Token>, reported: Amounts, t: Token)
    requires DistinctTokens(tokens)
    ensures Get(Receive(received, tokens, reported), t) == Get(received, t) + if t in tokens then First(reported, t) else 0
  {
    if tokens != [] {
      LastIsNew(tokens);
      ReceiveIs(received, tokens[..|tokens| - 1], reported, t);
    }
  }

  lemma GrossWithinRewards(p: Pool, t: Token)
    requires TokenLaw(p, t)
    ensures Get(p.gross, t) <= Get(p.rewards, t)
  {
    forall k | k in p.info && k.1 == t ensures 0 <= Claimable(p, k.0, t) {
      assert k == (k.0, t);
      GapTimesStake(Weight(p, t), p.info[k].weight, Get(p.staked, k.0));
    }
    TotalNonNegative(ClaimMap(p, t));
  }

  lemma GapTimesStake(weight: nat, mine: nat, stake: nat)
    requires mine <= weight
    ensures 0 <= (weight - mine) * stake
  {
  }

  lemma StakePoolKeeps(p: Pool, p1: Pool, user: Addr, amount: nat, tokens: seq<Token>, reported: Amounts)
    requires Law(p) && FarmKeepsList(p, tokens, reported) && Stake(p, user, amount, tokens, reported).Ok?
    requires StakeTokens(p, user, tokens, reported) == Ok(p1) && Looped(p, p1, user, tokens, reported)
    ensures PoolLaw(Stake(p, user, amount, tokens, reported).value)
  {
    SyncedAfterLoop(p, p1, user, tokens, reported);
    RestakeKeeps(p1, Stake(p, user, amount, tokens, reported).value, user, Get(p.staked, user) + amount);
  }

  lemma StakeKeeps(p: Pool, user: Addr, amount: nat, tokens: seq<Token>, reported: Amounts)
    requires Law(p) && FarmKeepsList(p, tokens, reported) && Stake(p, user, amount, tokens, reported).Ok?
    ensures Law(Stake(p, user, amount, tokens, reported).value)
  {
    StakeTokensKeep(p, user, tokens, reported);
    var p1 := StakeTokens(p, user, tokens, reported).value;
    StakePoolKeeps(p, p1, user, amount, tokens, reported);
    StakeAccounts(p, p1, user, tokens, reported);
    var p2 := Stake(p, user, amount, tokens, reported).value;
    forall t: Token ensures Accounted(p2, t) && Get(p2.gross, t) <= Get(p2.received, t) {
      assert Accounted(p1.(pending := reported), t) && Get(p1.gross, t) <= Get(p1.received, t);
    }
  }

  lemma StakeAccounts(p: Pool, p1: Pool, user: Addr, tokens: seq<Token>, reported: Amounts)
    requires Law(p) && FarmKeepsList(p, tokens, reported) && Looped(p, p1, user, tokens, reported)
    requires StakeTokens(p, user, tokens, reported) == Ok(p1)
    ensures forall t: Token :: Accounted(p1.(pending := reported), t) && Get(p1.gross, t) <= Get(p1.received, t)
  {
    forall t: Token ensures Accounted(p1.(pending := reported), t) && Get(p1.gross, t) <= Get(p1.received, t) {
      assert Accounted(p, t) && Get(p.gross, t) <= Get(p.received, t);
      AccountedAfterStake(p, p1, user, tokens, reported, t);
      StakeSettlesNothing(p, user, tokens, reported, t);
    }
  }

  lemma {:induction false} StakeSettlesNothing(p: Pool, user: Addr, tokens: seq<Token>, reported: Amounts, t: Token)
    requires StakeTokens(p, user, tokens, reported).Ok?
    ensures Get(StakeTokens(p, user, tokens, reported).value.gross, t) == Get(p.gross, t)
  {
    if tokens != [] {
      StakeSettlesNothing(p, user, tokens[..|tokens| - 1], reported, t);
    }
  }

  /** What a call that makes the farm pay leaves behind: everything credited has been received. */
  lemma PaidKeeps(p: Pool, p1: Pool, p2: Pool, user: Addr, tokens: seq<Token>, reported: Amounts)
    requires Looped(p, p1, user, tokens, reported) && FarmKeepsList(p, tokens, reported) && Law(p)
    requires PoolLaw(p2) && p2.gross == p1.gross && p2.rewards == p1.rewards && p2.pending == []
    requires p2.received == Receive(p1.received, tokens, reported)
    ensures Law(p2)
  {
    forall t: Token ensures Accounted(p2, t) && Get(p2.gross, t) <= Get(p2.received, t) {
      AccountedAfterStake(p, p1, user, tokens, reported, t);
      ReceiveIs(p1.received, tokens, reported, t);
      if t !in tokens {
        FirstMissing(reported, t);
      }
      assert TokenLaw(p2, t);
      GrossWithinRewards(p2, t);
    }
  }

  lemma ClaimKeeps(c: Config, p: Pool, user: Addr, tokens: seq<Token>, reported: Amounts)
    requires Law(p) && FarmKeepsList(p, tokens, reported) && Claim(c, p, user, tokens, reported).Ok?
    ensures Law(Claim(c, p, user, tokens, reported).value)
  {
    PayTokensKeep(c, p, user, tokens, reported, true);
    var p1 := PayTokens(c, p, user, tokens, reported, true).value;
    var p2 := Claim(c, p, user, tokens, reported).value;
    SameClaims(p1, p2);
    PaidKeeps(p, p1, p2, user, tokens, reported);
  }

  lemma SameClaims(p: Pool, p1: Pool)
    requires PoolLaw(p) && p1 == p.(pending := p1.pending, received := p1.received)
    ensures PoolLaw(p1)
  {
    forall t: Token ensures TokenLaw(p1, t) {
      assert TokenLaw(p, t);
      assert ClaimMap(p1, t) == ClaimMap(p, t);
    }
  }

  /** An unstake has to leave something, so the pool it is taken from does not empty. */
  lemma UnstakeShape(c: Config, p: Pool, user: Addr, amount: nat, tokens: seq<Token>, reported: Amounts) returns (p1: Pool, own: nat)
    requires Total(p.staked) == p.totalStaked && Unstake(c, p, user, amount, tokens, reported).Ok?
    ensures PayTokens(c, p, user, tokens, reported, false) == Ok(p1)
    ensures own == Get(p.staked, user) - amount && 0 < own && amount < p.totalStaked
    ensures Unstake(c, p, user, amount, tokens, reported).value
         == p1.(pending := [], received := Receive(p1.received, tokens, reported),
                staked := p1.staked[user := own], totalStaked := p.totalStaked - amount)
  {
    p1 := PayTokens(c, p, user, tokens, reported, false).value;
    own := Get(p.staked, user) - amount;
    UserStakeWithinTotal(p, user);
  }

  lemma UnstakeKeeps(c: Config, p: Pool, user: Addr, amount: nat, tokens: seq<Token>, reported: Amounts)
    requires Law(p) && FarmKeepsList(p, tokens, reported) && Unstake(c, p, user, amount, tokens, reported).Ok?
    ensures Law(Unstake(c, p, user, amount, tokens, reported).value)
  {
    var p1, own := UnstakeShape(c, p, user, amount, tokens, reported);
    PayTokensKeep(c, p, user, tokens, reported, false);
    SyncedAfterLoop(p, p1, user, tokens, reported);
    UnstakeTail(p, p1, Unstake(c, p, user, amount, tokens, reported).value, user, own, tokens, reported);
  }

  lemma UnstakeTail(p: Pool, p1: Pool, p2: Pool, user: Addr, own: nat, tokens: seq<Token>, reported: Amounts)
    requires Law(p) && Looped(p, p1, user, tokens, reported) && FarmKeepsList(p, tokens, reported)
    requires forall u: Token :: (user, u) in p1.info ==> p1.info[(user, u)].weight == Weight(p1, u)
    requires p2 == p1.(pending := [], received := Receive(p1.received, tokens, reported),
                       staked := p1.staked[user := own], totalStaked := p2.totalStaked)
    requires 0 < p2.totalStaked && p2.totalStaked == p.totalStaked - Get(p.staked, user) + own
    ensures Law(p2)
  {
    RestakeKeeps(p1, p2, user, own);
    PaidKeeps(p, p1, p2, user, tokens, reported);
  }

  // ----- runs over all pools

  ghost predicate Lawful(s: State) {
    forall a :: a in s.pools ==> Law(s.pools[a])
  }

  ghost function FeesOf(s: State, t: Token): map<Addr, int> {
    map a | a in s.pools :: Get(s.pools[a].fees, t)
  }

  /** The treasury is the sum of the pools' fees; it is shared by all of them. */
  ghost predicate TreasuryHolds(s: State) {
    forall t: Token :: Get(s.treasury, t) == Total(FeesOf(s, t))
  }

  predicate Fair(s: State, call: Call) {
    FarmKeepsList(PoolOf(s, call.pool), call.tokens, call.reported)
  }

  lemma EmptyPoolIsLawful()
    ensures Law(EMPTY_POOL)
  {
  }

  lemma CallKeeps(s: State, call: Call)
    requires Lawful(s) && Fair(s, call) && AfterCall(s.cfg, PoolOf(s, call.pool), call).Ok?
    ensures Law(AfterCall(s.cfg, PoolOf(s, call.pool), call).value)
  {
    EmptyPoolIsLawful();
    var p := PoolOf(s, call.pool);
    match call
    case CallStake(_, user, amount, tokens, reported) => StakeKeeps(p, user, amount, tokens, reported);
    case CallUnstake(_, user, amount, tokens, reported) => UnstakeKeeps(s.cfg, p, user, amount, tokens, reported);
    case CallClaim(_, user, tokens, reported) => ClaimKeeps(s.cfg, p, user, tokens, reported);
  }

  // ----- fees

  lemma {:induction false} CollectIs(treasury: map<Token, nat>, before: Pool, after: Pool, tokens: seq<Token>, t: Token)
    requires DistinctTokens(tokens) && Collect(treasury, before, after, tokens).Ok?
    requires Get(before.fees, t) <= Get(after.fees, t)
    ensures Get(Collect(treasury, before, after, tokens).value, t)
         == Get(treasury, t) + if t in tokens then Get(after.fees, t) - Get(before.fees, t) else 0
  {
    if tokens != [] {
      LastIsNew(tokens);
      CollectIs(treasury, before, after, tokens[..|tokens| - 1], t);
    }
  }

  lemma PayTokenFees(c: Config, p: Pool, user: Addr, last: Token, reported: Amounts, claim: bool, t: Token)
    requires PayToken(c, p, user, last, reported, claim).Ok?
    ensures var p1 := PayToken(c, p, user, last, reported, claim).value;
            Get(p.fees, t) <= Get(p1.fees, t) && (t != last ==> Get(p1.fees, t) == Get(p.fees, t))
  {
    var _, _ := SplitIsExact(c, p, user, last, reported, claim);
  }

  lemma {:induction false} PayFees(c: Config, p: Pool, user: Addr, tokens: seq<Token>, reported: Amounts, claim: bool, t: Token)
    requires PayTokens(c, p, user, tokens, reported, claim).Ok?
    ensures var p1 := PayTokens(c, p, user, tokens, reported, claim).value;
            && Get(p.fees, t) <= Get(p1.fees, t)
            && (t !in tokens ==> Get(p1.fees, t) == Get(p.fees, t))
  {
    if tokens != [] {
      var before, last := tokens[..|tokens| - 1], tokens[|tokens| - 1];
      PayFees(c, p, user, before, reported, claim, t);
      PayTokenFees(c, PayTokens(c, p, user, before, reported, claim).value, user, last, reported, claim, t);
      assert t in tokens <==> t in before || t == last;
    }
  }

  lemma {:induction false} StakeFees(p: Pool, user: Addr, tokens: seq<Token>, reported: Amounts)
    requires StakeTokens(p, user, tokens, reported).Ok?
    ensures StakeTokens(p, user, tokens, reported).value.fees == p.fees
  {
    if tokens != [] {
      StakeFees(p, user, tokens[..|tokens| - 1], reported);
    }
  }

  lemma CallFees(s: State, call: Call, t: Token)
    requires Fair(s, call) && Made(s, call).Ok?
    ensures var p, p1 := PoolOf(s, call.pool), PoolOf(Made(s, call).value, call.pool);
            Get(Made(s, call).value.treasury, t) == Get(s.treasury, t) + Get(p1.fees, t) - Get(p.fees, t)
  {
    var p := PoolOf(s, call.pool);
    var p1 := AfterCall(s.cfg, p, call).value;
    match call
    case CallStake(_, user, amount, tokens, reported) => StakeFees(p, user, tokens, reported);
    case CallUnstake(_, user, amount, tokens, reported) =>
      PayFees(s.cfg, p, user, tokens, reported, false, t);
      CollectIs(s.treasury, p, p1, tokens, t);
    case CallClaim(_, user, tokens, reported) =>
      PayFees(s.cfg, p, user, tokens, reported, true, t);
      CollectIs(s.treasury, p, p1, tokens, t);
  }

  lemma MadeKeeps(s: State, call: Call)
    requires Lawful(s) && TreasuryHolds(s) && Fair(s, call) && Made(s, call).Ok?
    ensures Lawful(Made(s, call).value) && TreasuryHolds(Made(s, call).value)
  {
    CallKeeps(s, call);
    var s1 := Made(s, call).value;
    forall t: Token ensures Get(s1.treasury, t) == Total(FeesOf(s1, t)) {
      CallFees(s, call, t);
      FeesMove(s, s1, call.pool, t);
    }
  }

  lemma FeesMove(s: State, s1: State, a: Addr, t: Token)
    requires a in s1.pools && s1.pools == s.pools[a := s1.pools[a]]
    ensures Total(FeesOf(s1, t)) == Total(FeesOf(s, t)) + Get(s1.pools[a].fees, t) - Get(PoolOf(s, a).fees, t)
  {
    var fee := Get(s1.pools[a].fees, t);
    var m, m1 := FeesOf(s, t), FeesOf(s1, t);
    assert m1.Keys == m[a := fee].Keys;
    assert m1 == m[a := fee];
    TotalUpdate(m, a, fee);
  }

  function After(s: State, calls: seq<Call>): State {
    if calls == [] then s
    else
      var s1 := After(s, calls[..|calls| - 1]);
      match Made(s1, calls[|calls| - 1]) case Ok(s2) => s2 case Err => s1
  }

  predicate FairRun(s: State, calls: seq<Call>) {
    calls == [] || (FairRun(s, calls[..|calls| - 1]) && Fair(After(s, calls[..|calls| - 1]), calls[|calls| - 1]))
  }

  /**
   * Solvency of every pool in every token, over every run against a fair farm: what has been
   * settled plus what users can still claim stays within the rewards credited; those have been
   * received or are reported pending; settlements split into shares and fees exactly; what has
   * been settled is covered by what was received; and the treasury is the sum of all fees.
   */
  lemma {:induction false} FarmingIsSolvent(s: State, calls: seq<Call>)
    requires s.pools == map[] && s.treasury == map[] && FairRun(s, calls)
    ensures Lawful(After(s, calls)) && TreasuryHolds(After(s, calls))
  {
    if calls == [] {
      forall t: Token ensures Total(FeesOf(s, t)) == 0 {
        assert FeesOf(s, t) == map[];
      }
    } else {
      var before, call := calls[..|calls| - 1], calls[|calls| - 1];
      FarmingIsSolvent(s, before);
      if Made(After(s, before), call).Ok? {
        MadeKeeps(After(s, before), call);
      }
    }
  }

  // ----- leaving

  lemma {:induction false} StakeLeavesStakes(p: Pool, u: Addr, tokens: seq<Token>, reported: Amounts)
    requires StakeTokens(p, u, tokens, reported).Ok?
    ensures StakeTokens(p, u, tokens, reported).value.staked == p.staked
  {
    if tokens != [] {
      StakeLeavesStakes(p, u, tokens[..|tokens| - 1], reported);
    }
  }

  lemma {:induction false} PayLeavesStakes(c: Config, p: Pool, u: Addr, tokens: seq<Token>, reported: Amounts, claim: bool)
    requires PayTokens(c, p, u, tokens, reported, claim).Ok?
    ensures PayTokens(c, p, u, tokens, reported, claim).value.staked == p.staked
  {
    if tokens != [] {
      PayLeavesStakes(c, p, u, tokens[..|tokens| - 1], reported, claim);
    }
  }

  lemma CallStaked(c: Config, p: Pool, call: Call, user: Addr)
    requires AfterCall(c, p, call).Ok? && 0 < Get(p.staked, user)
    ensures 0 < Get(AfterCall(c, p, call).value.staked, user)
  {
    match call
    case CallStake(_, u, _, tokens, reported) => StakeLeavesStakes(p, u, tokens, reported);
    case CallUnstake(_, u, _, tokens, reported) => PayLeavesStakes(c, p, u, tokens, reported, false);
    case CallClaim(_, u, tokens, reported) => PayLeavesStakes(c, p, u, tokens, reported, true);
  }

  /** Unstaking demands strictly more than is taken out: once staked, never fully out. */
  lemma {:induction false} NobodyLeaves(s: State, calls: seq<Call>, pool: Addr, user: Addr)
    requires 0 < Get(PoolOf(s, pool).staked, user)
    ensures 0 < Get(PoolOf(After(s, calls), pool).staked, user)
  {
    if calls != [] {
      var before, call := calls[..|calls| - 1], calls[|calls| - 1];
      NobodyLeaves(s, before, pool, user);
      var s1 := After(s, before);
      if Made(s1, call).Ok? && call.pool == pool {
        CallStaked(s1.cfg, PoolOf(s1, pool), call, user);
      }
    }
  }
}
