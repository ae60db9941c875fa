/** The group contract as it runs: a running total and a growing list of diffs over two loops. */
module GroupContract {
  import opened Prelude
  import opened Snapshots
  import opened Group

  lemma {:induction false} AddAllPrefix(s: State, adds: seq<Member>, height: nat, k: nat)
    requires k <= |adds|
    ensures AddAll(s, adds[..k], height).Err? ==> AddAll(s, adds, height).Err?
    decreases |adds|
  {
    if k == |adds| {
      assert adds[..k] == adds;
    } else {
      var less := adds[..|adds| - 1];
      assert less[..k] == adds[..k];
      AddAllPrefix(s, less, height, k);
    }
  }

  /** The loop's next turn, and that an abort there aborts the whole. */
  lemma AddAllStep(s: State, adds: seq<Member>, height: nat, i: nat, s1: State, sum: nat, diffs: seq<Diff>)
    requires i < |adds| && AddAll(s, adds[..i], height) == Ok((s1, sum, diffs))
    ensures var m := adds[i];
            var was := Now(s1.members, m.addr);
            var weight := if was.Some? then was.value else 0;
            if weight <= sum && sum - weight + m.weight < U64
            then AddAll(s, adds[..i + 1], height)
              == Ok((s1.(members := Write(s1.members, m.addr, Some(m.weight), height)), sum - weight + m.weight,
                     diffs + [Diff(m.addr, was, Some(m.weight))]))
            else AddAll(s, adds, height).Err?
  {
    assert adds[..i + 1][..i] == adds[..i] && adds[..i + 1][i] == adds[i];
    AddAllPrefix(s, adds, height, i + 1);
  }

  lemma {:induction false} RemoveAllPrefix(s: State, total: nat, removes: seq<Addr>, height: nat, k: nat)
    requires k <= |removes|
    ensures RemoveAll(s, total, removes[..k], height).Err? ==> RemoveAll(s, total, removes, height).Err?
    decreases |removes|
  {
    if k == |removes| {
      assert removes[..k] == removes;
    } else {
      var less := removes[..|removes| - 1];
      assert less[..k] == removes[..k];
      RemoveAllPrefix(s, total, less, height, k);
    }
  }

  class Storage {
    const admin: Option<Addr>
    var members: Snapshot<Addr>
    var total: Snapshot<()>

    function Abs(): State
      reads this
    {
      State(admin, members, total)
    }

    constructor (admin: Option<Addr>)
      ensures Abs() == EMPTY.(admin := admin)
    {
      this.admin, members, total := admin, Snapshot(map[], map[]), Snapshot(map[], map[]);
    }

    method AddMembers(adds: seq<Member>, height: nat) returns (r: Result<(nat, seq<Diff>)>)
      modifies this`members
      ensures r.Ok? == AddAll(old(Abs()), adds, height).Ok?
      ensures r.Ok? ==> AddAll(old(Abs()), adds, height) == Ok((Abs(), r.value.0, r.value.1))
    {
      ghost var start := Abs();
      var sum := Get(total.current, ());
      var diffs: seq<Diff> := [];
      for i := 0 to |adds|
        invariant AddAll(start, adds[..i], height) == Ok((Abs(), sum, diffs))
      {
        AddAllStep(start, adds, height, i, Abs(), sum, diffs);
        var m := adds[i];
        var was := Now(members, m.addr);
        var weight := if was.Some? then was.value else 0;
        if sum < weight || sum - weight + m.weight >= U64 {
          return Err;
        }
        sum := sum - weight + m.weight;
        diffs := diffs + [Diff(m.addr, was, Some(m.weight))];
        members := Write(members, m.addr, Some(m.weight), height);
      }
      assert adds[..|adds|] == adds;
      return Ok((sum, diffs));
    }

    method RemoveMembers(sum0: nat, removes: seq<Addr>, height: nat) returns (r: Result<(nat, seq<Diff>)>)
      modifies this`members
      ensures r.Ok? == RemoveAll(old(Abs()), sum0, removes, height).Ok?
      ensures r.Ok? ==> RemoveAll(old(Abs()), sum0, removes, height) == Ok((Abs(), r.value.0, r.value.1))
    {
      ghost var start := Abs();
      var sum := sum0;
      var diffs: seq<Diff> := [];
      for i := 0 to |removes|
        invariant RemoveAll(start, sum0, removes[..i], height) == Ok((Abs(), sum, diffs))
      {
        assert removes[..i + 1][..i] == removes[..i];
        RemoveAllPrefix(start, sum0, removes, height, i + 1);
        var was := Now(members, removes[i]);
        if was.Some? {
          if sum < was.value {
            return Err;
          }
          diffs := diffs + [Diff(removes[i], was, None)];
          sum := sum - was.value;
          members := Write(members, removes[i], None, height);
        }
      }
      assert removes[..|removes|] == removes;
      return Ok((sum, diffs));
    }

    /** `update_members`; the array holds the members to add and is sorted on the way. */
    method UpdateMembers(height: nat, sender: Addr, adds: array<Member>, removes: seq<Addr>) returns (r: Result<seq<Diff>>)
      modifies this`members, this`total, adds
      ensures r.Ok? == Group.UpdateMembers(old(Abs()), height, sender, old(adds[..]), removes).Ok?
      ensures r.Ok? ==> Group.UpdateMembers(old(Abs()), height, sender, old(adds[..]), removes) == Ok((Abs(), r.value))
    {
      SortCheckIsUniqueness(adds[..]);
      var ok := ValidateUniqueMembers(adds);
      if !ok || admin != Some(sender) {
        return Err;
      }
      var added :- AddMembers(adds[..], height);
      var removed :- RemoveMembers(added.0, removes, height);
      total := Write(total, (), Some(removed.0), height);
      return Ok(added.1 + removed.1);
    }
  }
}
