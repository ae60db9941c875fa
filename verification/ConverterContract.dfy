/** The converter as the contract runs it: message vectors built by successive pushes. */
module ConverterContract {
  import opened Prelude
  import opened Messages
  import opened Chain

  class Converter {
    const c: Contracts
    const kind: Kind

    constructor (c: Contracts, kind: Kind)
      ensures this.c == c && this.kind == kind
    {
      this.c, this.kind := c, kind;
    }

    /** `execute_convert_token`; `waiting` is what the staking module answers to the query. */
    method ExecuteConvertToken(waiting: nat, from: Addr, user: Addr, amount: nat) returns (r: Result<seq<Msg>>)
      ensures forall w: World :: w.c == c && w.kind == kind && w.waiting == waiting ==>
                r == ConvertMessages(w, from, user, amount)
    {
      if from != c.underlying || amount == 0 {
        return Err;
      }
      var messages := [];
      match kind {
        case Bwynd => messages := messages + [UnderlyingDelegate(c.converter, amount)];
        case Bloop => messages := messages + [StakingStake(c.converter, amount)];
      }
      messages := messages + [TokenMint(c.converter, user, amount)];
      if waiting > 0 {
        if kind == Bwynd {
          messages := messages + [StakingWithdraw(c.converter)];
          messages := messages + [UnderlyingDelegate(c.converter, waiting)];
        }
        messages := messages + [TokenMint(c.converter, c.converter, waiting)];
        messages := messages + [TokenSend(c.converter, c.vault, waiting, DistributeHook(Some(user)))];
      } else {
        messages := messages + [VaultDistribute(c.converter, user)];
      }
      forall w: World | w.c == c && w.kind == kind && w.waiting == waiting
        ensures ConvertMessages(w, from, user, amount) == Ok(messages) {
        assert ConvertMessages(w, from, user, amount).value == messages;
      }
      return Ok(messages);
    }

    /** `execute_withdraw_rewards` */
    method ExecuteWithdrawRewards(waiting: nat) returns (r: Result<seq<Msg>>)
      ensures forall w: World :: w.c == c && w.kind == kind && w.waiting == waiting ==> r == WithdrawMessages(w)
    {
      if waiting == 0 {
        return Err;
      }
      var messages := [];
      match kind {
        case Bwynd => messages := messages + [StakingWithdraw(c.converter), UnderlyingDelegate(c.converter, waiting)];
        case Bloop => messages := messages + [StakingRestake(c.converter)];
      }
      messages := messages + [TokenMint(c.converter, c.converter, waiting)];
      messages := messages + [TokenSend(c.converter, c.vault, waiting, DistributeHook(None))];
      forall w: World | w.c == c && w.kind == kind && w.waiting == waiting
        ensures WithdrawMessages(w) == Ok(messages) {
        assert WithdrawMessages(w).value == messages;
      }
      return Ok(messages);
    }
  }
}
