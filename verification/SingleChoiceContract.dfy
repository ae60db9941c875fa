/** The single-choice contract as it runs: tallies, ballots and deposits changed in place. */
module SingleChoiceContract {
  import opened Prelude
  import opened Expirations
  import opened SingleChoice

  class Tally {
    var yes: nat
    var no: nat
    var abstain: nat

    function Value(): Votes
      reads this
    {
      Votes(yes, no, abstain)
    }

    constructor (v: Votes)
      ensures Value() == v
    {
      yes, no, abstain := v.yes, v.no, v.abstain;
    }

    method Add(vote: Vote, power: nat) returns (ok: bool)
      modifies this
      ensures ok == AddVote(old(Value()), vote, power).Ok?
      ensures ok ==> AddVote(old(Value()), vote, power) == Ok(Value())
    {
      match vote {
        case Yes => yes := yes + power; ok := yes < U128;
        case No => no := no + power; ok := no < U128;
        case Abstain => abstain := abstain + power; ok := abstain < U128;
      }
    }

    method Remove(vote: Vote, power: nat) returns (ok: bool)
      modifies this
      ensures ok == RemoveVote(old(Value()), vote, power).Ok?
      ensures ok ==> RemoveVote(old(Value()), vote, power) == Ok(Value())
    {
      match vote {
        case Yes => ok := power <= yes; if ok { yes := yes - power; }
        case No => ok := power <= no; if ok { no := no - power; }
        case Abstain => ok := power <= abstain; if ok { abstain := abstain - power; }
      }
    }
  }

  class Storage {
    const threshold: Threshold
    const limit: nat
    const holdSeconds: nat
    var count: nat
    var proposals: map<Id, Proposal>
    var ballots: map<(Id, Addr), Ballot>
    var locked: map<Addr, nat>

    function Abs(): State
      reads this
    {
      State(threshold, limit, holdSeconds, count, proposals, ballots, locked)
    }

    constructor (threshold: Threshold, limit: nat, holdSeconds: nat)
      ensures Abs() == State(threshold, limit, holdSeconds, 0, map[], map[], map[])
    {
      this.threshold, this.limit, this.holdSeconds := threshold, limit, holdSeconds;
      count, proposals, ballots, locked := 0, map[], map[], map[];
    }

    method ExecutePropose(b: Block, sender: Addr, power: nat, expiration: Expiration) returns (r: Result<Id>)
      modifies this`count, this`proposals, this`locked
      ensures r.Ok? == Propose(old(Abs()), b, sender, power, expiration).Ok?
      ensures r.Ok? ==> r.value == count && Propose(old(Abs()), b, sender, power, expiration) == Ok(Abs())
    {
      if power == 0 {
        return Err;
      }
      var lockedAmount := Get(locked, sender);
      var free :- SubU128(power, lockedAmount);
      if free < limit {
        return Err;
      }
      lockedAmount :- AddU128(lockedAmount, limit);
      locked := locked[sender := lockedAmount];
      var proposal := Proposal(sender, expiration, threshold, Open, NO_VOTES, false, 0, b.time / NANOS);
      proposal :- Updated(proposal, b);
      count := count + 1;
      proposals := proposals[count := proposal];
      return Ok(count);
    }

    method ExecuteVote(b: Block, id: Id, sender: Addr, power: nat, total: nat, vote: Vote) returns (ok: bool)
      modifies this`proposals, this`ballots
      ensures ok == CastVote(old(Abs()), b, id, sender, power, total, vote).Ok?
      ensures ok ==> CastVote(old(Abs()), b, id, sender, power, total, vote) == Ok(Abs())
    {
      if id !in proposals || power == 0 {
        return false;
      }
      var prop := proposals[id];
      if prop.expiration.IsExpired(b) || prop.status == Executed || prop.status == Closed {
        return false;
      }
      var votes := new Tally(prop.votes);
      if (id, sender) in ballots {
        var current := ballots[(id, sender)];
        if prop.allowRevoting && current.vote == vote {
          return false;
        }
        ok := votes.Remove(current.vote, current.power);
        if !ok {
          return false;
        }
      }
      ballots := ballots[(id, sender) := Ballot(power, vote)];
      ok := votes.Add(vote, power);
      if !ok {
        return false;
      }
      prop := prop.(votes := votes.Value());
      prop := prop.(totalPower := total);
      var updated := Updated(prop, b);
      if updated.Err? {
        return false;
      }
      proposals := proposals[id := updated.value];
      return true;
    }

    method ReleaseDeposit(proposer: Addr) returns (ok: bool)
      modifies this`locked
      ensures ok == Release(old(Abs()), proposer).Ok?
      ensures ok ==> Release(old(Abs()), proposer) == Ok(Abs())
    {
      var lockedAmount := Get(locked, proposer);
      if lockedAmount < limit {
        return false;
      }
      locked := locked[proposer := lockedAmount - limit];
      return true;
    }

    method ExecuteExecute(b: Block, id: Id, power: nat) returns (ok: bool)
      modifies this`proposals, this`locked
      ensures ok == Execute(old(Abs()), b, id, power).Ok?
      ensures ok ==> Execute(old(Abs()), b, id, power) == Ok(Abs())
    {
      if id !in proposals || power == 0 {
        return false;
      }
      var prop := proposals[id];
      ok := ReleaseDeposit(prop.proposer);
      if !ok {
        return false;
      }
      var passed := IsPassed(prop, b);
      if passed.Err? || passed.value.1 {
        return false;
      }
      var updated := Updated(prop, b);
      if updated.Err? || updated.value.status != Passed {
        return false;
      }
      prop := updated.value.(status := Executed);
      proposals := proposals[id := prop];
      return true;
    }

    method ExecuteClose(b: Block, id: Id) returns (ok: bool)
      modifies this`proposals, this`locked
      ensures ok == Close(old(Abs()), b, id).Ok?
      ensures ok ==> Close(old(Abs()), b, id) == Ok(Abs())
    {
      if id !in proposals {
        return false;
      }
      var prop := proposals[id];
      if prop.start + holdSeconds > b.time / NANOS {
        return false;
      }
      var updated := Updated(prop, b);
      if updated.Err? || updated.value.status != Rejected {
        return false;
      }
      ok := ReleaseDeposit(prop.proposer);
      if !ok {
        return false;
      }
      proposals := proposals[id := updated.value.(status := Closed)];
    }
  }
}
