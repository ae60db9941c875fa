/**
 * The multiple-choice contract as it runs: a proposal loaded, changed field by field in loops, and
 * saved at the end, or not saved at all when an execution meets a newer upstream period.
 */
module MultipleChoiceContract {
  import opened Prelude
  import opened Expirations
  import opened Apportionment
  import opened MultipleChoice

  /** The in-memory copy a handler works on. */
  class Draft {
    var expiration: Expiration
    var pendingPeriod: Duration
    var status: Status
    var allowRevoting: bool
    var totalPower: nat
    var votingStart: nat
    var choices: seq<Choice>

    function Value(): Proposal
      reads this
    {
      Proposal(expiration, pendingPeriod, status, allowRevoting, totalPower, votingStart, choices)
    }

    constructor (p: Proposal)
      ensures Value() == p
    {
      expiration, pendingPeriod, status, allowRevoting := p.expiration, p.pendingPeriod, p.status, p.allowRevoting;
      totalPower, votingStart, choices := p.totalPower, p.votingStart, p.choices;
    }

    method RemoveVote(i: nat, power: nat) returns (ok: bool)
      requires i < |choices|
      modifies this`choices
      ensures ok == (power <= old(choices[i].power))
      ensures ok ==> choices == old(choices)[i := old(choices[i]).(power := old(choices[i].power) - power)]
    {
      if choices[i].power < power {
        return false;
      }
      choices := choices[i := choices[i].(power := choices[i].power - power)];
      return true;
    }

    method AddVote(i: nat, power: nat, percentage: nat) returns (ok: bool)
      requires i < |choices|
      modifies this`choices
      ensures ok == (old(choices[i].power) + Assigned(power, percentage) < U128)
      ensures ok ==> choices == old(choices)[i := old(choices[i]).(power := old(choices[i].power) + Assigned(power, percentage))]
    {
      var given := Assigned(power, percentage);
      if choices[i].power + given >= U128 {
        return false;
      }
      choices := choices[i := choices[i].(power := choices[i].power + given)];
      return true;
    }

    method UpdateStatus(b: Block)
      modifies this`status
      ensures Value() == Refreshed(old(Value()), b)
    {
      if status == Open && expiration.IsExpired(b) {
        status := VotingClosed;
      }
    }
  }

  class Storage {
    var prop: Proposal
    var version: nat
    var ballots: map<Key, Ballot>
    var history: map<nat, Snapshot>

    function Abs(): State
      reads this
    {
      State(prop, version, ballots, history)
    }

    constructor (p: Proposal)
      ensures Abs() == State(p, 1, map[], map[])
    {
      prop, version, ballots, history := p, 1, map[], map[];
    }

    method UpgradeProposalHistory(p: Proposal)
      modifies this`history
      ensures Abs() == Record(old(Abs()), p)
    {
      history := history[version := Snapshot(p.status, p.totalPower, p.choices, p.votingStart, p.expiration)];
    }

    method AdvanceProposalVersion() returns (ok: bool)
      modifies this`version
      ensures ok == (old(version) + 1 < U128)
      ensures ok ==> version == old(version) + 1
    {
      if version + 1 >= U128 {
        return false;
      }
      version := version + 1;
      return true;
    }

    /** `update_props`: the draft restarts; only the history is saved here. */
    method UpdateProps(up: Upstream, draft: Draft)
      modifies this`history, draft
      ensures Abs() == Record(old(Abs()), old(draft.Value()).(status := TimeOut))
      ensures draft.Value() == Restarted(old(draft.Value()), up)
    {
      draft.status := TimeOut;
      UpgradeProposalHistory(draft.Value());
      draft.status := Open;
      draft.votingStart := up.votingStart;
      draft.expiration := up.expiration;
      draft.totalPower := 0;
      var choices: seq<Choice> := [];
      for i := 0 to |draft.choices|
        invariant choices == Zeroed(draft.choices)[..i]
      {
        choices := choices + [draft.choices[i].(power := 0)];
      }
      draft.choices := choices;
    }

    /** One turn of the voting loop: the stored ballot is replaced, the choice's power adjusted. */
    method CastItem(draft: Draft, voter: Addr, power: nat, item: Share) returns (ok: bool)
      modifies this`ballots, draft`choices, draft`totalPower
      ensures ok == CastOne(old(draft.Value()), old(ballots), version, voter, power, item).Ok?
      ensures ok ==> CastOne(old(draft.Value()), old(ballots), version, voter, power, item) == Ok((draft.Value(), ballots))
    {
      var i := Position(draft.choices, item.pool);
      if i == |draft.choices| {
        return false;
      }
      var key := (version, voter, item.pool);
      if key in ballots {
        var current := ballots[key];
        if draft.allowRevoting && current.vote == item {
          return false;
        }
        ok := draft.RemoveVote(i, current.power);
        if !ok || draft.totalPower < current.power {
          return false;
        }
        draft.totalPower := draft.totalPower - current.power;
      }
      ballots := ballots[key := Ballot(Assigned(power, item.percentage), item)];
      ok := draft.AddVote(i, power, item.percentage);
      if ok {
        assert draft.choices == old(draft.choices)[i := draft.choices[i]];
      }
    }

    /** The loop over the votes, the total, the status, the save. */
    method CastAndSave(draft: Draft, b: Block, voter: Addr, power: nat, items: seq<Share>) returns (ok: bool)
      modifies this`prop, this`ballots, draft
      ensures ok == CastVote(old(Abs()).(prop := old(draft.Value())), b, voter, power, items).Ok?
      ensures ok ==> CastVote(old(Abs()).(prop := old(draft.Value())), b, voter, power, items) == Ok(Abs())
    {
      if Percents(items) > 100 {
        return false;
      }
      ghost var p0, ballots0 := draft.Value(), ballots;
      var i := 0;
      while i < |items|
        invariant 0 <= i <= |items|
        invariant CastAll(p0, ballots0, version, voter, power, items[..i]) == Ok((draft.Value(), ballots))
      {
        CastAllStep(p0, ballots0, version, voter, power, items, i, draft.Value(), ballots);
        ok := CastItem(draft, voter, power, items[i]);
        if !ok {
          return false;
        }
        i := i + 1;
      }
      assert items[..i] == items;
      if draft.totalPower + power >= U128 {
        return false;
      }
      draft.totalPower := draft.totalPower + power;
      draft.UpdateStatus(b);
      prop := draft.Value();
      return true;
    }

    /** `execute_vote` */
    method ExecuteVote(b: Block, up: Upstream, voter: Addr, power: nat, items: seq<Share>) returns (ok: bool)
      modifies this
      ensures ok == Vote(old(Abs()), b, up, voter, power, items).Ok?
      ensures ok ==> Vote(old(Abs()), b, up, voter, power, items) == Ok(Abs())
    {
      var draft := new Draft(prop);
      if |items| > |prop.choices| || power == 0 {
        return false;
      }
      var status := CurrentStatus(prop, b);
      if status == Closed {
        return false;
      }
      if MustRoll(status) {
        if !up.expiration.Later(prop.expiration) {
          return false;
        }
        ok := AdvanceProposalVersion();
        if !ok {
          return false;
        }
        UpdateProps(up, draft);
      }
      ok := CastAndSave(draft, b, voter, power, items);
    }

    /** `execute_execute`: on a rollover the restarted draft is dropped. */
    method ExecuteExecute(b: Block, up: Upstream, power: nat) returns (r: Result<seq<Share>>)
      modifies this
      ensures r.Ok? == Execute(old(Abs()), b, up, power).Ok?
      ensures r.Ok? ==> Execute(old(Abs()), b, up, power) == Ok((Abs(), r.value))
    {
      if power == 0 || CurrentStatus(prop, b) != VotingClosed {
        return Err;
      }
      var draft := new Draft(prop);
      if up.expiration.Later(prop.expiration) {
        var ok := AdvanceProposalVersion();
        if !ok {
          return Err;
        }
        UpdateProps(up, draft);
        return Ok([]);
      }
      r := GetExecutionVotes(draft.choices, draft.totalPower);
      if r.Ok? {
        draft.status := Executed;
        prop := draft.Value();
        UpgradeProposalHistory(prop);
      }
    }

    /** `execute_reject` */
    method ExecuteReject(b: Block, up: Upstream, power: nat) returns (ok: bool)
      modifies this
      ensures ok == Reject(old(Abs()), b, up, power).Ok?
      ensures ok ==> Reject(old(Abs()), b, up, power) == Ok(Abs())
    {
      if power == 0 || CurrentStatus(prop, b) != VotingClosed {
        return false;
      }
      var draft := new Draft(prop);
      if up.expiration.Later(prop.expiration) {
        ok := AdvanceProposalVersion();
        if ok {
          UpdateProps(up, draft);
        }
        return;
      }
      draft.status := Rejected;
      prop := draft.Value();
      UpgradeProposalHistory(prop);
      return true;
    }

    /** `execute_add_multiple_choice_options` */
    method ExecuteAddOptions(up: Upstream, pools: seq<Pool>) returns (ok: bool)
      modifies this`prop
      ensures ok == AddChoices(old(Abs()), up, pools).Ok?
      ensures ok ==> AddChoices(old(Abs()), up, pools) == Ok(Abs())
    {
      for i := 0 to |pools|
        invariant forall j :: 0 <= j < i ==> pools[j] in up.pools && Position(prop.choices, pools[j]) == |prop.choices|
        invariant prop == old(prop)
      {
        if pools[i] !in up.pools || Position(prop.choices, pools[i]) < |prop.choices| {
          assert pools[i] in pools;
          return false;
        }
      }
      var choices := prop.choices;
      for i := 0 to |pools|
        invariant choices == prop.choices + NewChoices(pools)[..i]
      {
        choices := choices + [Choice(pools[i], 0)];
      }
      assert NewChoices(pools)[..|pools|] == NewChoices(pools);
      prop := prop.(choices := choices);
      return true;
    }

    /** `execute_remove_multiple_choice_options` */
    method ExecuteRemoveOptions(pools: seq<Pool>)
      modifies this`prop
      ensures Abs() == RemoveChoices(old(Abs()), pools)
    {
      var choices: seq<Choice> := [];
      for i := 0 to |prop.choices|
        invariant choices == Without(prop.choices[..i], pools)
      {
        assert prop.choices[..i + 1][..i] == prop.choices[..i];
        if prop.choices[i].pool !in pools {
          choices := choices + [prop.choices[i]];
        }
      }
      assert prop.choices[..|prop.choices|] == prop.choices;
      prop := prop.(choices := choices);
    }
  }

  lemma CastAllStep(p: Proposal, ballots: map<Key, Ballot>, version: nat, voter: Addr, power: nat, items: seq<Share>, i: nat, p1: Proposal, ballots1: map<Key, Ballot>)
    requires i < |items| && CastAll(p, ballots, version, voter, power, items[..i]) == Ok((p1, ballots1))
    ensures CastAll(p, ballots, version, voter, power, items[..i + 1]) == CastOne(p1, ballots1, version, voter, power, items[i])
    ensures CastOne(p1, ballots1, version, voter, power, items[i]).Err? ==> CastAll(p, ballots, version, voter, power, items).Err?
  {
    assert items[..i + 1][..i] == items[..i];
    CastAllPrefix(p, ballots, version, voter, power, items, i + 1);
  }

  lemma {:induction false} CastAllPrefix(p: Proposal, ballots: map<Key, Ballot>, version: nat, voter: Addr, power: nat, items: seq<Share>, k: nat)
    requires k <= |items|
    ensures CastAll(p, ballots, version, voter, power, items[..k]).Err? ==> CastAll(p, ballots, version, voter, power, items).Err?
    decreases |items|
  {
    if k == |items| {
      assert items[..k] == items;
    } else {
      var less := items[..|items| - 1];
      assert less[..k] == items[..k];
      CastAllPrefix(p, ballots, version, voter, power, less, k);
    }
  }
}
