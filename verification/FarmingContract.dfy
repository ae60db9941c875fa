/**
 * The farming wrapper as it runs, for one pool: a call stores what it is about, the farm's answer
 * arrives in the reply, and the reply loops over the distributed tokens updating storage in place.
 */
module FarmingContract {
  import opened Prelude
  import opened Decimals
  import opened Farming

  /** `CURRENT_STAKE_INFO`, `CURRENT_UNSTAKE_INFO`, `CURRENT_CLAIM_REWARD_INFO` */
  datatype Current =
    | Nothing
    | Staking(user: Addr, amount: nat, reported: Amounts)
    | Unstaking(user: Addr, amount: nat, reported: Amounts)
    | Claiming(user: Addr, reported: Amounts)

  lemma {:induction false} StakeTokensPrefix(p: Pool, user: Addr, tokens: seq<Token>, reported: Amounts, k: nat)
    requires k <= |tokens|
    ensures StakeTokens(p, user, tokens[..k], reported).Err? ==> StakeTokens(p, user, tokens, reported).Err?
    decreases |tokens|
  {
    if k == |tokens| {
      assert tokens[..k] == tokens;
    } else {
      var less := tokens[..|tokens| - 1];
      assert less[..k] == tokens[..k];
      StakeTokensPrefix(p, user, less, reported, k);
    }
  }

  lemma StakeTokensStep(p: Pool, user: Addr, tokens: seq<Token>, reported: Amounts, i: nat, p1: Pool)
    requires i < |tokens| && StakeTokens(p, user, tokens[..i], reported) == Ok(p1)
    ensures StakeTokens(p, user, tokens[..i + 1], reported) == StakeToken(p1, user, tokens[i], reported)
    ensures StakeToken(p1, user, tokens[i], reported).Err? ==> StakeTokens(p, user, tokens, reported).Err?
  {
    assert tokens[..i + 1][..i] == tokens[..i];
    StakeTokensPrefix(p, user, tokens, reported, i + 1);
  }

  lemma {:induction false} PayTokensPrefix(c: Config, p: Pool, user: Addr, tokens: seq<Token>, reported: Amounts, claim: bool, k: nat)
    requires k <= |tokens|
    ensures PayTokens(c, p, user, tokens[..k], reported, claim).Err? ==> PayTokens(c, p, user, tokens, reported, claim).Err?
    decreases |tokens|
  {
    if k == |tokens| {
      assert tokens[..k] == tokens;
    } else {
      var less := tokens[..|tokens| - 1];
      assert less[..k] == tokens[..k];
      PayTokensPrefix(c, p, user, less, reported, claim, k);
    }
  }

  lemma PayTokensStep(c: Config, p: Pool, user: Addr, tokens: seq<Token>, reported: Amounts, claim: bool, i: nat, p1: Pool)
    requires i < |tokens| && PayTokens(c, p, user, tokens[..i], reported, claim) == Ok(p1)
    ensures PayTokens(c, p, user, tokens[..i + 1], reported, claim) == PayToken(c, p1, user, tokens[i], reported, claim)
    ensures PayToken(c, p1, user, tokens[i], reported, claim).Err? ==> PayTokens(c, p, user, tokens, reported, claim).Err?
  {
    assert tokens[..i + 1][..i] == tokens[..i];
    PayTokensPrefix(c, p, user, tokens, reported, claim, i + 1);
  }

  class Storage {
    const cfg: Config
    var staked: map<Addr, nat>
    var totalStaked: nat
    var rewards: map<Token, nat>
    var weights: map<Token, nat>
    var pending: Amounts
    var info: map<(Addr, Token), RewardInfo>
    var gross: map<Token, nat>
    var shares: map<Token, nat>
    var fees: map<Token, nat>
    var received: map<Token, nat>
    var current: Current

    function Abs(): Pool
      reads this
    {
      Pool(staked, totalStaked, rewards, weights, pending, info, gross, shares, fees, received)
    }

    constructor (cfg: Config)
      ensures this.cfg == cfg && Abs() == EMPTY_POOL && current == Nothing
    {
      this.cfg := cfg;
      staked, totalStaked, rewards, weights, pending, info := map[], 0, map[], map[], [], map[];
      gross, shares, fees, received, current := map[], map[], map[], map[], Nothing;
    }

    // ----- one token

    /** The reported figure less what had been reported before. */
    method CurrentReward(reported: Amounts, t: Token, strict: bool) returns (r: Result<nat>)
      ensures r == Accrued(Abs(), reported, t, strict)
    {
      var reward := First(reported, t);
      var i := 0;
      assert pending[0..] == pending;
      while i < |pending|
        invariant 0 <= i <= |pending|
        invariant Accrued(Abs(), reported, t, strict) == TakeOff(reward, pending[i..], t, strict)
      {
        assert pending[i..][1..] == pending[i + 1..];
        if pending[i].0 == t {
          if strict && reward <= pending[i].1 {
            return Err;
          }
          reward :- SubU128(reward, pending[i].1);
        }
        i := i + 1;
      }
      return Ok(reward);
    }

    method GrowWeight(t: Token, delta: nat, weigh: bool) returns (r: Result<nat>)
      modifies this`rewards, this`weights
      ensures r.Ok? == Grow(old(Abs()), t, delta, weigh).Ok?
      ensures r.Ok? ==> Grow(old(Abs()), t, delta, weigh) == Ok(Abs()) && r.value == Get(weights, t)
    {
      var total :- AddU128(Get(rewards, t), delta);
      rewards := rewards[t := total];
      var weight := Get(weights, t);
      if weigh {
        var inc :- Div(delta, totalStaked);
        weight :- AddU128(weight, inc);
      } else if weight >= U128 {
        return Err;
      }
      weights := weights[t := weight];
      return Ok(weight);
    }

    method StakeOne(user: Addr, t: Token, reported: Amounts) returns (r: Result<nat>)
      modifies this`rewards, this`weights, this`info
      ensures r.Ok? == StakeToken(old(Abs()), user, t, reported).Ok?
      ensures r.Ok? ==> StakeToken(old(Abs()), user, t, reported) == Ok(Abs())
    {
      var reward :- CurrentReward(reported, t, false);
      var weight :- GrowWeight(t, reward, totalStaked > 0);
      var userInfo := if (user, t) in info then info[(user, t)] else RewardInfo(weight, 0);
      if totalStaked > 0 {
        var earned :- EarnedBy(Abs(), user, t, false);
        userInfo := RewardInfo(weight, earned);
      }
      info := info[(user, t) := userInfo];
      return Ok(0);
    }

    method RecordPayment(user: Addr, t: Token, earned: nat, share: nat)
      modifies this`info, this`gross, this`shares, this`fees
      ensures Abs() == Paid(old(Abs()), user, t, earned, share)
    {
      ghost var before := Abs();
      var fee := if share <= earned then earned - share else 0;
      var settled := RewardInfo(Get(weights, t), 0);
      gross := gross[t := Get(gross, t) + earned];
      shares := shares[t := Get(shares, t) + share];
      fees := fees[t := Get(fees, t) + fee];
      info := info[(user, t) := settled];
      assert Abs() == before.(info := info, gross := gross, shares := shares, fees := fees);
    }

    /** Settles one token and returns the user's share, which becomes a transfer when positive. */
    method PayOne(user: Addr, t: Token, reported: Amounts, claim: bool) returns (r: Result<nat>)
      modifies this`rewards, this`weights, this`info, this`gross, this`shares, this`fees
      ensures r.Ok? == PayToken(cfg, old(Abs()), user, t, reported, claim).Ok?
      ensures r.Ok? ==> PayToken(cfg, old(Abs()), user, t, reported, claim) == Ok(Abs())
      ensures r.Ok? ==> Get(shares, t) == Get(old(shares), t) + r.value
    {
      var reward :- CurrentReward(reported, t, claim);
      var _ :- GrowWeight(t, reward, true);
      var earned :- EarnedBy(Abs(), user, t, claim);
      var share :- ShareOf(cfg, earned);
      RecordPayment(user, t, earned, share);
      return Ok(share);
    }

    // ----- the loops

    method StakeLoop(user: Addr, tokens: seq<Token>, reported: Amounts) returns (ok: bool)
      modifies this`rewards, this`weights, this`info
      ensures ok == StakeTokens(old(Abs()), user, tokens, reported).Ok?
      ensures ok ==> StakeTokens(old(Abs()), user, tokens, reported) == Ok(Abs())
    {
      ghost var start := Abs();
      for i := 0 to |tokens|
        invariant StakeTokens(start, user, tokens[..i], reported) == Ok(Abs())
      {
        StakeTokensStep(start, user, tokens, reported, i, Abs());
        var r := StakeOne(user, tokens[i], reported);
        if r.Err? {
          return false;
        }
      }
      assert tokens[..|tokens|] == tokens;
      return true;
    }

    method PayLoop(user: Addr, tokens: seq<Token>, reported: Amounts, claim: bool) returns (ok: bool)
      modifies this`rewards, this`weights, this`info, this`gross, this`shares, this`fees
      ensures ok == PayTokens(cfg, old(Abs()), user, tokens, reported, claim).Ok?
      ensures ok ==> PayTokens(cfg, old(Abs()), user, tokens, reported, claim) == Ok(Abs())
    {
      ghost var start := Abs();
      for i := 0 to |tokens|
        invariant PayTokens(cfg, start, user, tokens[..i], reported, claim) == Ok(Abs())
      {
        PayTokensStep(cfg, start, user, tokens, reported, claim, i, Abs());
        var r := PayOne(user, tokens[i], reported, claim);
        if r.Err? {
          return false;
        }
      }
      assert tokens[..|tokens|] == tokens;
      return true;
    }

    /** The farm pays what it reported, and has nothing pending any more. */
    method PayOut(user: Addr, tokens: seq<Token>, reported: Amounts, claim: bool) returns (ok: bool)
      modifies this`rewards, this`weights, this`info, this`gross, this`shares, this`fees, this`pending, this`received
      ensures ok == PayTokens(cfg, old(Abs()), user, tokens, reported, claim).Ok?
      ensures ok ==>
        var paid := PayTokens(cfg, old(Abs()), user, tokens, reported, claim).value;
        Abs() == paid.(pending := [], received := Receive(paid.received, tokens, reported))
    {
      ok := PayLoop(user, tokens, reported, claim);
      if ok {
        pending := [];
        received := Receive(received, tokens, reported);
      }
    }

    // ----- calls and their replies

    method HandleStake(user: Addr, amount: nat, reported: Amounts)
      modifies this`current
      ensures current == Staking(user, amount, reported)
    {
      current := Staking(user, amount, reported);
    }

    method HandleStakeReply(tokens: seq<Token>) returns (ok: bool)
      requires current.Staking?
      modifies this
      ensures ok == Stake(old(Abs()), old(current).user, old(current).amount, tokens, old(current).reported).Ok?
      ensures ok ==> Stake(old(Abs()), old(current).user, old(current).amount, tokens, old(current).reported) == Ok(Abs())
    {
      var user, amount, reported := current.user, current.amount, current.reported;
      ok := StakeLoop(user, tokens, reported);
      if !ok || Get(staked, user) + amount >= U128 || totalStaked + amount >= U128 {
        return false;
      }
      pending := reported;
      staked := staked[user := Get(staked, user) + amount];
      totalStaked := totalStaked + amount;
    }

    method HandleUnstakeAndClaim(user: Addr, amount: nat, reported: Amounts) returns (ok: bool)
      modifies this`current
      ensures ok == (amount > 0)
      ensures ok ==> current == Unstaking(user, amount, reported)
    {
      if amount == 0 {
        return false;
      }
      current := Unstaking(user, amount, reported);
      return true;
    }

    method HandleUnstakeAndClaimReply(tokens: seq<Token>) returns (ok: bool)
      requires current.Unstaking? && current.amount > 0
      modifies this
      ensures ok == Unstake(cfg, old(Abs()), old(current).user, old(current).amount, tokens, old(current).reported).Ok?
      ensures ok ==> Unstake(cfg, old(Abs()), old(current).user, old(current).amount, tokens, old(current).reported) == Ok(Abs())
    {
      var user, amount, reported := current.user, current.amount, current.reported;
      var userStaked := Get(staked, user);
      if userStaked <= amount {
        return false;
      }
      ok := PayOut(user, tokens, reported, false);
      if !ok || totalStaked < amount {
        return false;
      }
      staked := staked[user := userStaked - amount];
      totalStaked := totalStaked - amount;
    }

    method HandleClaim(user: Addr, reported: Amounts)
      modifies this`current
      ensures current == Claiming(user, reported)
    {
      current := Claiming(user, reported);
    }

    method HandleClaimRewardReply(tokens: seq<Token>) returns (ok: bool)
      requires current.Claiming?
      modifies this
      ensures ok == Claim(cfg, old(Abs()), old(current).user, tokens, old(current).reported).Ok?
      ensures ok ==> Claim(cfg, old(Abs()), old(current).user, tokens, old(current).reported) == Ok(Abs())
    {
      var user, reported := current.user, current.reported;
      ok := PayOut(user, tokens, reported, true);
    }
  }
}
