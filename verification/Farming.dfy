/**
 * The farming wrapper: users' stakes pooled into one stake at an upstream farm, and the farm's
 * growing "pending reward" figure turned, token by token, into a weight accumulator. A call stores
 * what the farm reports, sends it a message, and settles in the reply; here one call is one step.
 */
module Farming {
  import opened Prelude
  import opened Decimals

  type Token = Addr

  datatype Config = Config(fee: nat, multiplier: nat)

  /** `USER_REWARD_INFO_MAP`: the weight at the last settlement, and what was settled unpaid. */
  datatype RewardInfo = RewardInfo(weight: nat, pending: nat)

  /** A list of amounts per token, as the farm reports it. */
  type Amounts = seq<(Token, nat)>

  /**
   * One pool. The last four maps are history: gross rewards settled, the users' shares and the
   * treasury fees they were split into, and what the farm has paid.
   */
  datatype Pool = Pool(
    staked: map<Addr, nat>, totalStaked: nat,
    rewards: map<Token, nat>, weights: map<Token, nat>, pending: Amounts,
    info: map<(Addr, Token), RewardInfo>,
    gross: map<Token, nat>, shares: map<Token, nat>, fees: map<Token, nat>, received: map<Token, nat>)

  const EMPTY_POOL := Pool(map[], 0, map[], map[], [], map[], map[], map[], map[], map[])

  /** `find(..).unwrap_or_default().1` */
  function First(amounts: Amounts, t: Token): nat {
    if amounts == [] then 0
    else if amounts[0].0 == t then amounts[0].1
    else First(amounts[1..], t)
  }

  /** The loop that takes every earlier entry of the token off; a claim insists on real growth. */
  function TakeOff(current: nat, pending: Amounts, t: Token, strict: bool): Result<nat> {
    if pending == [] then Ok(current)
    else if pending[0].0 != t then TakeOff(current, pending[1..], t, strict)
    else if strict && current <= pending[0].1 then Err
    else
      var left :- SubU128(current, pending[0].1);
      TakeOff(left, pending[1..], t, strict)
  }

  /** The reward that accrued for `t` since the last report. */
  function Accrued(p: Pool, reported: Amounts, t: Token, strict: bool): Result<nat> {
    TakeOff(First(reported, t), p.pending, t, strict)
  }

  /** The new reward joins the totals; with somebody staked it raises the weight. */
  function Grow(p: Pool, t: Token, delta: nat, weigh: bool): Result<Pool> {
    var rewards :- AddU128(Get(p.rewards, t), delta);
    var inc :- if weigh then Div(delta, p.totalStaked) else Ok(0);
    var weight :- AddU128(Get(p.weights, t), inc);
    Ok(p.(rewards := p.rewards[t := rewards], weights := p.weights[t := weight]))
  }

  /** A user without an entry starts at the current weight. */
  function InfoOf(p: Pool, user: Addr, t: Token): RewardInfo {
    if (user, t) in p.info then p.info[(user, t)] else RewardInfo(Get(p.weights, t), 0)
  }

  /** What the user has earned in `t`, settled and not: the gap times the stake, floored. */
  function EarnedBy(p: Pool, user: Addr, t: Token, lenient: bool): Result<nat> {
    var i := InfoOf(p, user, t);
    var gap :- if lenient && i.weight > Get(p.weights, t) then Ok(0) else SubU128(Get(p.weights, t), i.weight);
    var stake :- FromInt(Get(p.staked, user));
    var product :- Mul(gap, stake);
    AddU128(i.pending, Floor(product))
  }

  /** One token of `handle_stake_reply`. */
  function StakeToken(p: Pool, user: Addr, t: Token, reported: Amounts): Result<Pool> {
    var delta :- Accrued(p, reported, t, false);
    var p1 :- Grow(p, t, delta, p.totalStaked > 0);
    if p.totalStaked == 0 then Ok(p1.(info := p1.info[(user, t) := InfoOf(p1, user, t)]))
    else
      var earned :- EarnedBy(p1, user, t, false);
      Ok(p1.(info := p1.info[(user, t) := RewardInfo(Get(p1.weights, t), earned)]))
  }

  /** The user's part of a settlement; the rest is the treasury's fee. */
  function ShareOf(c: Config, earned: nat): Result<nat> {
    var rate :- SubU128(c.multiplier, c.fee);
    MulRatio(earned, rate, c.multiplier)
  }

  function Paid(p: Pool, user: Addr, t: Token, earned: nat, share: nat): Pool {
    var fee := if share <= earned then earned - share else 0;
    p.(info := p.info[(user, t) := RewardInfo(Get(p.weights, t), 0)],
       gross := p.gross[t := Get(p.gross, t) + earned],
       shares := p.shares[t := Get(p.shares, t) + share],
       fees := p.fees[t := Get(p.fees, t) + fee])
  }

  /** One token of the unstake and claim replies: the earnings are split and paid. */
  function PayToken(c: Config, p: Pool, user: Addr, t: Token, reported: Amounts, claim: bool): Result<Pool> {
    var delta :- Accrued(p, reported, t, claim);
    var p1 :- Grow(p, t, delta, true);
    var earned :- EarnedBy(p1, user, t, claim);
    var share :- ShareOf(c, earned);
    Ok(Paid(p1, user, t, earned, share))
  }

  function StakeTokens(p: Pool, user: Addr, tokens: seq<Token>, reported: Amounts): Result<Pool> {
    if tokens == [] then Ok(p)
    else
      var p1 :- StakeTokens(p, user, tokens[..|tokens| - 1], reported);
      StakeToken(p1, user, tokens[|tokens| - 1], reported)
  }

  function PayTokens(c: Config, p: Pool, user: Addr, tokens: seq<Token>, reported: Amounts, claim: bool): Result<Pool> {
    if tokens == [] then Ok(p)
    else
      var p1 :- PayTokens(c, p, user, tokens[..|tokens| - 1], reported, claim);
      PayToken(c, p1, user, tokens[|tokens| - 1], reported, claim)
  }

  /** What the farm pays when asked: for each distributed token, exactly what it reported. */
  function Receive(received: map<Token, nat>, tokens: seq<Token>, reported: Amounts): map<Token, nat> {
    if tokens == [] then received
    else
      var r := Receive(received, tokens[..|tokens| - 1], reported);
      var t := tokens[|tokens| - 1];
      r[t := Get(r, t) + First(reported, t)]
  }

  // ----- the calls, each with its reply; `tokens` and `reported` are the farm's answers

  function Stake(p: Pool, user: Addr, amount: nat, tokens: seq<Token>, reported: Amounts): Result<Pool> {
    var p1 :- StakeTokens(p, user, tokens, reported);
    var own :- AddU128(Get(p.staked, user), amount);
    var total :- AddU128(p.totalStaked, amount);
    Ok(p1.(pending := reported, staked := p1.staked[user := own], totalStaked := total))
  }

  function Unstake(c: Config, p: Pool, user: Addr, amount: nat, tokens: seq<Token>, reported: Amounts): Result<Pool> {
    if amount == 0 || Get(p.staked, user) <= amount then Err
    else
      var p1 :- PayTokens(c, p, user, tokens, reported, false);
      var total :- SubU128(p.totalStaked, amount);
      Ok(p1.(pending := [], received := Receive(p1.received, tokens, reported),
             staked := p1.staked[user := Get(p.staked, user) - amount], totalStaked := total))
  }

  function Claim(c: Config, p: Pool, user: Addr, tokens: seq<Token>, reported: Amounts): Result<Pool> {
    var p1 :- PayTokens(c, p, user, tokens, reported, true);
    Ok(p1.(pending := [], received := Receive(p1.received, tokens, reported)))
  }

  // ----- all pools, and the treasury they share

  datatype State = State(cfg: Config, pools: map<Addr, Pool>, treasury: map<Token, nat>)

  function PoolOf(s: State, a: Addr): Pool {
    if a in s.pools then s.pools[a] else EMPTY_POOL
  }

  datatype Call =
    | CallStake(pool: Addr, user: Addr, amount: nat, tokens: seq<Token>, reported: Amounts)
    | CallUnstake(pool: Addr, user: Addr, amount: nat, tokens: seq<Token>, reported: Amounts)
    | CallClaim(pool: Addr, user: Addr, tokens: seq<Token>, reported: Amounts)

  function AfterCall(c: Config, p: Pool, call: Call): Result<Pool> {
    match call
    case CallStake(_, user, amount, tokens, reported) => Stake(p, user, amount, tokens, reported)
    case CallUnstake(_, user, amount, tokens, reported) => Unstake(c, p, user, amount, tokens, reported)
    case CallClaim(_, user, tokens, reported) => Claim(c, p, user, tokens, reported)
  }

  /** The fees a call added, entered into `TREASURY_REWARDS` token by token. */
  function Collect(treasury: map<Token, nat>, before: Pool, after: Pool, tokens: seq<Token>): Result<map<Token, nat>> {
    if tokens == [] then Ok(treasury)
    else
      var t := tokens[|tokens| - 1];
      var m :- Collect(treasury, before, after, tokens[..|tokens| - 1]);
      var fee := if Get(before.fees, t) <= Get(after.fees, t) then Get(after.fees, t) - Get(before.fees, t) else 0;
      var total :- AddU128(Get(m, t), fee);
      Ok(m[t := total])
  }

  function Made(s: State, call: Call): Result<State> {
    var p := PoolOf(s, call.pool);
    var p1 :- AfterCall(s.cfg, p, call);
    var treasury :- Collect(s.treasury, p, p1, if call.CallStake? then [] else call.tokens);
    Ok(s.(pools := s.pools[call.pool := p1], treasury := treasury))
  }
}
