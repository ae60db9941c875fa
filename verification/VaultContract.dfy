/**
 * The vault as the contract runs it: storage updated field by field, messages pushed one by one.
 * Each entry point leaves the storage and sends the messages its specification in `Vault` gives;
 * when it fails the chain throws the half-written storage away.
 */
module VaultContract {
  import opened Prelude
  import opened Decimals
  import opened Messages
  import opened Vault

  class Storage {
    const c: Contracts
    var cfg: Config
    var staked: nat
    var treasury: nat
    var syne: nat
    var power: nat
    var stakes: map<Addr, Stake>
    var action: Action

    function Abs(): State
      reads this
    {
      State(cfg, staked, treasury, syne, power, stakes, action)
    }

    constructor (c: Contracts)
      ensures this.c == c && Abs() == INITIAL
    {
      this.c := c;
      cfg, staked, treasury, syne, power, stakes, action := INITIAL_CONFIG, 0, 0, 0, 0, map[], NoAction;
    }

    /** This call did what `spec` says, or failed because `spec` fails. */
    ghost predicate Did(spec: Result<Reply>, r: Result<seq<Msg>>)
      reads this
    {
      r.Ok? == spec.Ok? && (r.Ok? ==> Abs() == spec.value.state && r.value == spec.value.msgs)
    }

    ghost predicate Paid(spec: Result<(State, nat)>, r: Result<nat>)
      reads this
    {
      r.Ok? == spec.Ok? && (r.Ok? ==> Abs() == spec.value.0 && r.value == spec.value.1)
    }

    // ----- storage operations

    method UpdateTotalRewards(reward: nat) returns (r: Result<nat>)
      modifies this`treasury, this`syne, this`power
      ensures r.Ok? == Vault.UpdateTotalRewards(old(Abs()), reward).Ok?
      ensures r.Ok? ==> Abs() == Vault.UpdateTotalRewards(old(Abs()), reward).value
    {
      var treasuryRewards :- FeeOf(reward, cfg.treasuryFee);
      var syneRewards :- FeeOf(reward, cfg.syneFee);
      treasury :- AddU128(treasury, treasuryRewards);
      syne :- AddU128(syne, syneRewards);
      if staked > 0 {
        var afterTreasury :- SubU128(reward, treasuryRewards);
        var net :- SubU128(afterTreasury, syneRewards);
        var n :- FromInt(net);
        var d :- FromInt(staked);
        var perToken :- Div(n, d);
        power :- AddU128(power, perToken);
      }
      return Ok(0);
    }

    method UpdateRewards(user: Addr) returns (r: Result<nat>)
      modifies this`stakes
      ensures Paid(Apply(old(Abs()), Settle(user)), r)
    {
      var info := if user in stakes then stakes[user] else NO_STAKE;
      var pending :- PendingReward(power, info);
      info := info.(powerDiff := power);
      stakes := stakes[user := info];
      return Ok(pending);
    }

    method AddStake(user: Addr, amount: nat) returns (r: Result<nat>)
      modifies this`stakes, this`staked
      ensures Paid(Apply(old(Abs()), Deposit(user, amount)), r)
    {
      var info := if user in stakes then stakes[user] else NO_STAKE;
      var pending :- PendingReward(power, info);
      info := info.(stake := AddOrZero(info.stake, amount));
      info := info.(powerDiff := power);
      stakes := stakes[user := info];
      staked := AddOrZero(staked, amount);
      return Ok(pending);
    }

    method RemoveStake(user: Addr, amount: nat) returns (r: Result<nat>)
      modifies this`stakes, this`staked
      ensures Paid(Apply(old(Abs()), Redeem(user, amount)), r)
    {
      var info := if user in stakes then stakes[user] else NO_STAKE;
      var pending :- PendingReward(power, info);
      info := info.(stake := SubOrZero(info.stake, amount));
      info := info.(powerDiff := power);
      stakes := stakes[user := info];
      staked := SubOrZero(staked, amount);
      return Ok(pending);
    }

    method UpdateTreasuryAmounts(from: Addr, share: Option<nat>) returns (r: Result<nat>)
      modifies this`treasury
      ensures Paid(TakeTreasury(old(Abs()), c, from, share), r)
    {
      if from != c.converter {
        return Err;
      }
      var amount := if share.Some? then share.value else treasury;
      treasury :- SubU128(treasury, amount);
      return Ok(amount);
    }

    method UpdateSyneStakingAmounts(from: Addr, share: Option<nat>) returns (r: Result<nat>)
      modifies this`syne
      ensures Paid(TakeSyne(old(Abs()), c, from, share), r)
    {
      if from != c.converter {
        return Err;
      }
      var amount := if share.Some? then share.value else syne;
      syne :- SubU128(syne, amount);
      return Ok(amount);
    }

    // ----- entry points

    method ParkAction(next: Action) returns (r: Result<seq<Msg>>)
      modifies this`action
      ensures Did(Park(old(Abs()), c, next), r)
    {
      if action != NoAction {
        return Err;
      }
      action := next;
      return Ok([ConverterWithdraw(c.vault)]);
    }

    method ExecuteStake(waiting: nat, user: Addr, amount: nat) returns (r: Result<seq<Msg>>)
      modifies this
      ensures Did(OnReceive(old(Abs()), c, waiting, c.token, user, amount, StakeHook), r)
    {
      if waiting > 0 {
        r := ParkAction(StakeFor(user, amount));
      } else {
        var reward :- AddStake(user, amount);
        var msgs := [];
        if reward > 0 {
          msgs := msgs + [TokenTransfer(c.vault, user, reward)];
        }
        r := Ok(msgs);
      }
    }

    method ExecuteWithdrawRewards(waiting: nat, user: Addr) returns (r: Result<seq<Msg>>)
      modifies this
      ensures Did(OnWithdraw(old(Abs()), c, waiting, user), r)
    {
      if waiting > 0 {
        r := ParkAction(RewardTo(user));
      } else {
        var reward :- UpdateRewards(user);
        r := Ok([TokenTransfer(c.vault, user, reward)]);
      }
    }

    method ExecuteDistributeUserRewards(user: Addr) returns (r: Result<seq<Msg>>)
      modifies this
      ensures Did(SettleNow(old(Abs()), c, user), r)
    {
      var reward :- UpdateRewards(user);
      var msgs := [];
      if reward > 0 {
        msgs := msgs + [TokenTransfer(c.vault, user, reward)];
      }
      r := Ok(msgs);
    }

    method ExecuteUnstake(waiting: nat, from: Addr, amount: nat) returns (r: Result<seq<Msg>>)
      modifies this
      ensures Did(OnUnstake(old(Abs()), c, waiting, from, amount), r)
    {
      var stake := if from in stakes then stakes[from] else NO_STAKE;
      if amount == 0 || amount > stake.stake {
        return Err;
      }
      if waiting > 0 {
        r := ParkAction(UnstakeFor(from, amount));
      } else {
        var reward :- RemoveStake(from, amount);
        var msgs := [TokenTransfer(c.vault, from, amount)];
        if reward > 0 {
          msgs := msgs + [TokenTransfer(c.vault, from, reward)];
        }
        r := Ok(msgs);
      }
    }

    method ExecuteWithdrawTreasury(waiting: nat, from: Addr, share: Option<nat>) returns (r: Result<seq<Msg>>)
      modifies this
      ensures Did(OnWithdrawTreasury(old(Abs()), c, waiting, from, share), r)
    {
      if cfg.treasuryWithdrawer != Some(from) {
        return Err;
      }
      if waiting > 0 {
        r := ParkAction(TreasuryWithdraw(share));
      } else {
        var amount :- UpdateTreasuryAmounts(from, share);
        if amount == 0 || cfg.treasuryWallet.None? {
          return Err;
        }
        r := Ok([TokenTransfer(c.vault, cfg.treasuryWallet.value, amount)]);
      }
    }

    method ExecuteWithdrawSyne(waiting: nat, from: Addr, share: Option<nat>) returns (r: Result<seq<Msg>>)
      modifies this
      ensures Did(OnWithdrawSyne(old(Abs()), c, waiting, from, share), r)
    {
      if waiting > 0 {
        r := ParkAction(SyneWithdraw(share));
      } else {
        var amount :- UpdateSyneStakingAmounts(from, share);
        if amount == 0 || cfg.syneDistributor.None? {
          return Err;
        }
        r := Ok([TokenTransfer(c.vault, cfg.syneDistributor.value, amount)]);
      }
    }

    /** The `match` of `execute_distribute_rewards`. */
    method FinishAction(from: Addr, pending: Action) returns (r: Result<seq<Msg>>)
      modifies this
      ensures Did(Finish(old(Abs()), c, from, pending), r)
    {
      var msgs := [];
      match pending {
        case NoAction =>
        case RewardTo(user) =>
          var reward :- UpdateRewards(user);
          if reward > 0 {
            msgs := msgs + [TokenTransfer(c.vault, user, reward)];
          }
        case StakeFor(user, amount) =>
          var reward :- AddStake(user, amount);
          if reward > 0 {
            msgs := msgs + [TokenTransfer(c.vault, user, reward)];
          }
        case TreasuryWithdraw(share) =>
          var amount :- UpdateTreasuryAmounts(from, share);
          if cfg.treasuryWallet.None? {
            return Err;
          }
          msgs := msgs + [TokenTransfer(c.vault, cfg.treasuryWallet.value, amount)];
        case SyneWithdraw(share) =>
          var amount :- UpdateSyneStakingAmounts(from, share);
          if cfg.syneDistributor.None? {
            return Err;
          }
          msgs := msgs + [TokenTransfer(c.vault, cfg.syneDistributor.value, amount)];
        case UnstakeFor(user, amount) =>
          var reward :- RemoveStake(user, amount);
          msgs := msgs + [TokenTransfer(c.vault, user, amount)];
          if reward > 0 {
            msgs := msgs + [TokenTransfer(c.vault, user, reward)];
          }
      }
      return Ok(msgs);
    }

    method ExecuteDistributeRewards(from: Addr, amount: nat, user: Option<Addr>) returns (r: Result<seq<Msg>>)
      modifies this
      ensures Did(OnDistribute(old(Abs()), c, from, amount, user), r)
    {
      var pending := action;
      var _ :- UpdateTotalRewards(amount);
      if user.Some? {
        pending := RewardTo(user.value);
      }
      var msgs :- FinishAction(from, pending);
      action := NoAction;
      return Ok(msgs);
    }
  }
}
