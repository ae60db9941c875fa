/**
 * The gauge contract as it runs: loops over updates, votes and index entries, hash maps visited
 * in an order nobody fixes, storage maps written one by one.
 */
module GaugeContract {
  import opened Prelude
  import opened Decimals
  import opened GaugeTally
  import opened GaugeSelection
  import opened GaugeVoting

  lemma AscendingStep(s: set<GaugeId>, m: GaugeId)
    requires Least(m, s)
    ensures Ascending(s) == [m] + Ascending(s - {m})
  {
  }

  lemma DescendingStep(s: set<Entry>, m: Entry)
    requires Top(m, s)
    ensures Descending(s) == [m] + Descending(s - {m})
  {
    HasTop(s);
    var n :| Top(n, s) && Descending(s) == [n] + Descending(s - {n});
    AboveOrder(m, n);
  }

  /** Once the loop has aborted, the rest of the updates cannot save it. */
  lemma {:induction false} BumpAllPrefix(t: Tallies, g: GaugeId, ups: seq<Update>, k: nat)
    requires k <= |ups| && BumpAll(t, g, ups[..k]).Err?
    ensures BumpAll(t, g, ups).Err?
    decreases |ups|
  {
    if k == |ups| {
      assert ups[..k] == ups;
    } else {
      var before := ups[..|ups| - 1];
      assert before[..k] == ups[..k];
      BumpAllPrefix(t, g, before, k);
    }
  }

  /** The loop's next turn, and that an abort there aborts the whole. */
  lemma BumpAllStep(t: Tallies, g: GaugeId, ups: seq<Update>, i: nat, t1: Tallies, was: nat, now: nat)
    requires i < |ups| && BumpAll(t, g, ups[..i]) == Ok((t1, was, now))
    ensures var u := ups[i];
            if was + u.was < U128 && now + u.now < U128 && Bump(t1, g, u).Ok?
            then BumpAll(t, g, ups[..i + 1]) == Ok((Bump(t1, g, u).value, was + u.was, now + u.now))
            else BumpAll(t, g, ups).Err?
  {
    assert ups[..i + 1][..i] == ups[..i] && ups[..i + 1][i] == ups[i];
    if BumpAll(t, g, ups[..i + 1]).Err? {
      BumpAllPrefix(t, g, ups, i + 1);
    }
  }

  lemma {:induction false} ReweighAllPrefix(s: State, voter: Addr, gs: seq<GaugeId>, k: nat, before: nat, after: nat)
    requires k <= |gs| && HasBallots(s, voter, gs) && HasBallots(s, voter, gs[..k])
    requires ReweighAll(s, voter, gs[..k], before, after).Err?
    ensures ReweighAll(s, voter, gs, before, after).Err?
    decreases |gs|
  {
    if k == |gs| {
      assert gs[..k] == gs;
    } else {
      var less := gs[..|gs| - 1];
      assert less[..k] == gs[..k];
      ReweighAllPrefix(s, voter, less, k, before, after);
    }
  }

  /** The loop's next turn, and that an abort there aborts the whole. */
  lemma ReweighAllStep(s: State, voter: Addr, gs: seq<GaugeId>, i: nat, before: nat, after: nat, s1: State)
    requires i < |gs| && HasBallots(s, voter, gs) && HasBallots(s, voter, gs[..i])
    requires ReweighAll(s, voter, gs[..i], before, after) == Ok(s1)
    ensures HasBallots(s, voter, gs[..i + 1]) && (voter, gs[i]) in s1.ballots
    ensures ReweighAll(s, voter, gs[..i + 1], before, after) == Reweigh(s1, voter, gs[i], before, after)
    ensures Reweigh(s1, voter, gs[i], before, after).Err? ==> ReweighAll(s, voter, gs, before, after).Err?
  {
    assert gs[..i + 1][..i] == gs[..i] && gs[..i + 1][i] == gs[i];
    assert gs[i] in gs;
    if Reweigh(s1, voter, gs[i], before, after).Err? {
      ReweighAllPrefix(s, voter, gs, i + 1, before, after);
    }
  }

  lemma {:induction false} MembersChangedPrefix(s: State, sender: Addr, diffs: seq<MemberDiff>, k: nat)
    requires k <= |diffs|
    ensures MembersChanged(s, sender, diffs[..k]).Err? ==> MembersChanged(s, sender, diffs).Err?
    decreases |diffs|
  {
    if k == |diffs| {
      assert diffs[..k] == diffs;
    } else {
      var less := diffs[..|diffs| - 1];
      assert less[..k] == diffs[..k];
      MembersChangedPrefix(s, sender, less, k);
    }
  }

  class Storage {
    const owner: Addr
    const votingPowers: Addr
    var gauges: map<GaugeId, Gauge>
    var tally: map<(GaugeId, Name), nat>
    var total: map<GaugeId, nat>
    var index: set<(GaugeId, nat, Name)>
    var ballots: map<(Addr, GaugeId), Ballot>
    var lastEpoch: map<GaugeId, nat>
    var history: map<(GaugeId, nat), EpochRecord>

    function Tallies_(): Tallies
      reads this
    {
      Tallies(tally, total, index)
    }

    function Abs(): State
      reads this
    {
      State(owner, votingPowers, gauges, Tallies_(), ballots, lastEpoch, history)
    }

    ghost predicate Valid()
      reads this
    {
      Indexed(Tallies_())
    }

    constructor (owner: Addr, votingPowers: Addr)
      ensures Valid() && Abs() == State(owner, votingPowers, map[], NO_TALLIES, map[], map[], map[])
    {
      this.owner, this.votingPowers := owner, votingPowers;
      gauges, tally, total, index, ballots, lastEpoch, history := map[], map[], map[], {}, map[], map[], map[];
    }

    // ----- the tally store

    /** The body of the loop of `update_tallies`: one count and its index entry. */
    method BumpOne(g: GaugeId, u: Update) returns (ok: bool)
      modifies this`tally, this`index
      ensures ok == Bump(old(Tallies_()), g, u).Ok?
      ensures ok ==> Bump(old(Tallies_()), g, u) == Ok(Tallies_())
    {
      var oldCount := if (g, u.option) in tally then Some(tally[(g, u.option)]) else None;
      var count := if oldCount.Some? then oldCount.value else 0;
      if count + u.now >= U128 || count + u.now < u.was {
        return false;
      }
      count := count + u.now - u.was;
      tally := tally[(g, u.option) := count];
      if oldCount.Some? {
        index := index - {(g, oldCount.value, u.option)};
      }
      index := index + {(g, count, u.option)};
      return true;
    }

    /** The loop of `update_tallies`, with its two running sums. */
    method BumpEach(g: GaugeId, updates: seq<Update>) returns (ok: bool, oldVotes: nat, newVotes: nat)
      modifies this`tally, this`index
      ensures ok == BumpAll(old(Tallies_()), g, updates).Ok?
      ensures ok ==> BumpAll(old(Tallies_()), g, updates) == Ok((Tallies_(), oldVotes, newVotes))
    {
      oldVotes, newVotes := 0, 0;
      var i := 0;
      ghost var start := Tallies_();
      while i < |updates|
        invariant 0 <= i <= |updates|
        invariant BumpAll(start, g, updates[..i]) == Ok((Tallies_(), oldVotes, newVotes))
      {
        var u := updates[i];
        BumpAllStep(start, g, updates, i, Tallies_(), oldVotes, newVotes);
        if oldVotes + u.was >= U128 || newVotes + u.now >= U128 {
          return false, 0, 0;
        }
        oldVotes := oldVotes + u.was;
        newVotes := newVotes + u.now;
        ok := BumpOne(g, u);
        if !ok {
          return false, 0, 0;
        }
        i := i + 1;
      }
      assert updates[..i] == updates;
      ok := true;
    }

    /** `update_tallies` */
    method UpdateTallies(g: GaugeId, updates: seq<Update>) returns (ok: bool)
      requires Valid()
      modifies this`tally, this`total, this`index
      ensures ok == GaugeTally.UpdateTallies(old(Tallies_()), g, updates).Ok?
      ensures ok ==> Valid() && GaugeTally.UpdateTallies(old(Tallies_()), g, updates) == Ok(Tallies_())
    {
      var oldVotes, newVotes;
      ok, oldVotes, newVotes := BumpEach(g, updates);
      if !ok {
        return false;
      }
      BumpAllEffect(old(Tallies_()), g, updates);
      var sum := Get(total, g);
      if sum + newVotes >= U128 || sum + newVotes < oldVotes {
        return false;
      }
      total := total[g := sum + newVotes - oldVotes];
    }

    /** `remove_tally` */
    method RemoveTally(g: GaugeId, option: Name) returns (ok: bool)
      modifies this`tally, this`total, this`index
      ensures ok == GaugeTally.RemoveTally(old(Tallies_()), g, option).Ok?
      ensures ok ==> GaugeTally.RemoveTally(old(Tallies_()), g, option) == Ok(Tallies_())
    {
      var oldVote := if (g, option) in tally then Some(tally[(g, option)]) else None;
      tally := tally - {(g, option)};
      if oldVote.Some? {
        if Get(total, g) < oldVote.value {
          return false;
        }
        total := total[g := Get(total, g) - oldVote.value];
        index := index - {(g, oldVote.value, option)};
      } else {
        assert tally == old(tally);
      }
      return true;
    }

    // ----- queries

    /** `query_votes_by_voter`, as the hook calls it: gauge ids upwards, at most a hundred. */
    method VotesByVoter(voter: Addr) returns (gs: seq<GaugeId>)
      ensures gs == Reached(Abs(), voter)
    {
      gs := [];
      var rest := GaugesOf(Abs(), voter);
      ghost var all := Ascending(rest);
      while rest != {} && |gs| < MAX_LIMIT
        invariant |gs| <= MAX_LIMIT
        invariant gs + Ascending(rest) == all
        decreases |rest|
      {
        HasLeast(rest);
        var m: GaugeId :| m in rest && forall g :: g in rest ==> m <= g;
        AscendingStep(rest, m);
        assert gs + ([m] + Ascending(rest - {m})) == gs + [m] + Ascending(rest - {m});
        gs := gs + [m];
        rest := rest - {m};
      }
      assert all[..|gs|] == gs;
      assert rest == {} ==> all == gs;
    }

    /** Walks the entries from the highest down until enough options are taken. */
    method TakeFromTop(gauge: Gauge, cast: nat, entries: set<Entry>) returns (votes: seq<(Name, nat)>)
      requires 0 < cast
      ensures var w := Take(EligibleOf(gauge, cast, Descending(entries)), gauge.maxOptions);
              |votes| == |w| && forall i :: 0 <= i < |w| ==> votes[i] == (w[i].1, Capped(gauge, cast, w[i].0))
    {
      var rest := entries;
      ghost var all := EligibleOf(gauge, cast, Descending(rest));
      ghost var chosen: seq<Entry> := [];
      votes := [];
      while rest != {} && |votes| < gauge.maxOptions
        invariant |chosen| == |votes| <= gauge.maxOptions
        invariant all == chosen + EligibleOf(gauge, cast, Descending(rest))
        invariant forall i :: 0 <= i < |chosen| ==> votes[i] == (chosen[i].1, Capped(gauge, cast, chosen[i].0))
        decreases |rest|
      {
        HasTop(rest);
        var m: Entry :| m in rest && forall e :: e in rest ==> e == m || Above(m, e);
        DescendingStep(rest, m);
        var tail := rest - {m};
        assert ([m] + Descending(tail))[1..] == Descending(tail);
        if Eligible(gauge, cast, m.0) {
          assert chosen + ([m] + EligibleOf(gauge, cast, Descending(tail)))
              == chosen + [m] + EligibleOf(gauge, cast, Descending(tail));
          chosen := chosen + [m];
          votes := votes + [(m.1, Capped(gauge, cast, m.0))];
        } else {
          assert [] + EligibleOf(gauge, cast, Descending(tail)) == EligibleOf(gauge, cast, Descending(tail));
        }
        rest := tail;
      }
      assert all[..|chosen|] == chosen;
      assert rest == {} ==> all == chosen;
    }

    /** `selected_set` */
    method SelectedSet(g: GaugeId) returns (r: Result<seq<(Name, nat)>>)
      requires g in gauges
      ensures r == GaugeSelection.SelectedSet(Tallies_(), g, gauges[g])
    {
      if g !in total {
        return Err;
      }
      if total[g] == 0 {
        return Ok([]);
      }
      var entries: set<Entry> := set e | e in index && e.0 == g :: (e.1, e.2);
      assert entries == EntriesOf(Tallies_(), g);
      var votes := TakeFromTop(gauges[g], total[g], entries);
      assert votes == GaugeSelection.SelectedSet(Tallies_(), g, gauges[g]).value;
      return Ok(votes);
    }

    /** The ratios of the selected options. */
    method Normalise(selected: seq<(Name, nat)>) returns (r: Result<seq<Vote>>)
      ensures r == Normalised(selected, PowerSum(selected))
    {
      var sum := 0;
      var i := |selected|;
      while i > 0
        invariant 0 <= i <= |selected|
        invariant sum == PowerSum(selected[i..])
      {
        i := i - 1;
        assert selected[i..][1..] == selected[i + 1..];
        sum := sum + selected[i].1;
      }
      assert selected[0..] == selected;
      if selected != [] && sum == 0 {
        return Err;
      }
      var votes := [];
      i := |selected|;
      while i > 0
        invariant 0 <= i <= |selected|
        invariant Normalised(selected[i..], sum) == Ok(votes)
      {
        i := i - 1;
        assert selected[i..][1..] == selected[i + 1..];
        votes := [Vote(selected[i].0, Ratio(selected[i].1, sum))] + votes;
      }
      return Ok(votes);
    }

    // ----- calls

    /** `update_epoch` */
    method UpdateEpoch(g: GaugeId, gauge: Gauge, next: nat, votes: seq<Vote>, executed: bool) returns (ok: bool)
      modifies this`history, this`lastEpoch, this`gauges
      ensures ok == RollEpoch(old(Abs()), g, gauge, next, votes, executed).Ok?
      ensures ok ==> RollEpoch(old(Abs()), g, gauge, next, votes, executed) == Ok(Abs())
    {
      if g !in lastEpoch {
        return false;
      }
      var last := lastEpoch[g];
      history := history[(g, last) := EpochRecord(gauge.epoch, gauge.nextEpoch, votes, executed)];
      if last + 1 >= U128 {
        return false;
      }
      lastEpoch := lastEpoch[g := last + 1];
      gauges := gauges[g := gauge.(nextEpoch := next)];
      return true;
    }

    /** The hash map of changes, built from the old votes and then the new. */
    method BuildDiff(before: Ballot, power: nat, votes: seq<Vote>) returns (diff: map<Name, (nat, nat)>)
      ensures diff == Diff(before, power, votes)
    {
      diff := map[];
      var i := 0;
      while i < |before.votes|
        invariant 0 <= i <= |before.votes|
        invariant diff == OldSide(before.power, before.votes[..i])
      {
        var v := before.votes[i];
        assert before.votes[..i + 1][..i] == before.votes[..i];
        diff := diff[v.option := (Points(before.power, v.weight), 0)];
        i := i + 1;
      }
      assert before.votes[..i] == before.votes;
      i := 0;
      while i < |votes|
        invariant 0 <= i <= |votes|
        invariant diff == Diff(before, power, votes[..i])
      {
        var v := votes[i];
        assert votes[..i + 1][..i] == votes[..i];
        var was := if v.option in diff then diff[v.option].0 else 0;
        diff := diff[v.option := (was, Points(power, v.weight))];
        i := i + 1;
      }
      assert votes[..i] == votes;
    }

    /** Visiting the hash map: every entry once, in any order. */
    method Visit(diff: map<Name, (nat, nat)>) returns (updates: seq<Update>)
      ensures Lists(updates, diff)
    {
      updates := [];
      var left := diff.Keys;
      while left != {}
        invariant left <= diff.Keys
        invariant forall u :: u in updates ==> u.option in diff && u.option !in left && diff[u.option] == (u.was, u.now)
        invariant forall i, j :: 0 <= i < j < |updates| ==> updates[i].option != updates[j].option
        invariant forall o :: o in diff && o !in left ==> Update(o, diff[o].0, diff[o].1) in updates
        decreases |left|
      {
        var o :| o in left;
        forall i | 0 <= i < |updates| ensures updates[i].option != o {
          assert updates[i] in updates;
        }
        updates := updates + [Update(o, diff[o].0, diff[o].1)];
        left := left - {o};
      }
    }

    method Recast(voter: Addr, g: GaugeId, votes: seq<Vote>, power: nat) returns (ok: bool)
      requires Valid()
      modifies this`tally, this`total, this`index, this`ballots
      ensures ok == Revote(old(Abs()), voter, g, votes, power).Ok?
      ensures ok ==> Valid() && Revote(old(Abs()), voter, g, votes, power) == Ok(Abs())
    {
      if WeightSum(votes) > ONE || power == 0 || ((voter, g) !in ballots && votes == []) {
        return false;
      }
      var previous := if (voter, g) in ballots then ballots[(voter, g)] else NO_BALLOT;
      var diff := BuildDiff(previous, power, votes);
      if exists o :: o in diff && diff[o].0 == 0 && (g, o) !in tally {
        return false;
      }
      var updates := Visit(diff);
      VisitOrder(Tallies_(), g, updates, diff);
      ok := UpdateTallies(g, updates);
      if !ok {
        return false;
      }
      if votes == [] {
        ballots := ballots - {(voter, g)};
      } else {
        ballots := ballots[(voter, g) := Ballot(power, votes)];
      }
    }

    /** One turn of the hook's inner loop: a ballot takes on the new power. */
    method ReweighOne(voter: Addr, g: GaugeId, before: nat, after: nat) returns (ok: bool)
      requires Valid() && (voter, g) in ballots
      modifies this`tally, this`total, this`index, this`ballots
      ensures ok == Reweigh(old(Abs()), voter, g, before, after).Ok?
      ensures ok ==> Valid() && Reweigh(old(Abs()), voter, g, before, after) == Ok(Abs())
    {
      if g !in gauges {
        return false;
      }
      var vote := ballots[(voter, g)];
      ok := UpdateTallies(g, Reweighing(vote.votes, before, after));
      if ok {
        vote := vote.(power := after);
        ballots := ballots[(voter, g) := vote];
      }
    }

    /** The hook's work for one member. */
    method ChangeMember(voter: Addr, before: nat, after: nat) returns (ok: bool)
      requires Valid()
      modifies this`tally, this`total, this`index, this`ballots
      ensures ok == ReweighAll(old(Abs()), voter, Reached(old(Abs()), voter), before, after).Ok?
      ensures ok ==> Valid() && ReweighAll(old(Abs()), voter, Reached(old(Abs()), voter), before, after) == Ok(Abs())
    {
      ghost var start := Abs();
      var gs := VotesByVoter(voter);
      var i := 0;
      while i < |gs|
        invariant 0 <= i <= |gs|
        invariant Valid() && HasBallots(start, voter, gs[..i])
        invariant ReweighAll(start, voter, gs[..i], before, after) == Ok(Abs())
      {
        ReweighAllStep(start, voter, gs, i, before, after, Abs());
        ok := ReweighOne(voter, gs[i], before, after);
        if !ok {
          return false;
        }
        i := i + 1;
      }
      assert gs[..i] == gs;
      return true;
    }

    /** `member_changed` */
    method MemberChanged(sender: Addr, diffs: seq<MemberDiff>) returns (ok: bool)
      requires Valid()
      modifies this`tally, this`total, this`index, this`ballots
      ensures ok == MembersChanged(old(Abs()), sender, diffs).Ok?
      ensures ok ==> Valid() && MembersChanged(old(Abs()), sender, diffs) == Ok(Abs())
    {
      MembersChangedPrefix(Abs(), sender, diffs, 0);
      if sender != votingPowers {
        return false;
      }
      ghost var start := Abs();
      var i := 0;
      while i < |diffs|
        invariant 0 <= i <= |diffs|
        invariant Valid()
        invariant MembersChanged(start, sender, diffs[..i]) == Ok(Abs())
      {
        assert diffs[..i + 1][..i] == diffs[..i] && diffs[..i + 1][i] == diffs[i];
        MembersChangedPrefix(start, sender, diffs, i + 1);
        ok := ChangeMember(diffs[i].key, diffs[i].Before(), diffs[i].After());
        if !ok {
          return false;
        }
        i := i + 1;
      }
      assert diffs[..i] == diffs;
      return true;
    }

    /** `place_votes` */
    method PlaceVotes(now: nat, upstream: nat, voter: Addr, g: GaugeId, votes: seq<Vote>, power: nat) returns (ok: bool)
      requires Valid()
      modifies this
      ensures ok == GaugeVoting.PlaceVotes(old(Abs()), now, upstream, voter, g, votes, power).Ok?
      ensures ok ==> Valid() && GaugeVoting.PlaceVotes(old(Abs()), now, upstream, voter, g, votes, power) == Ok(Abs())
    {
      if g !in gauges {
        return false;
      }
      var gauge := gauges[g];
      var pending := Pending(gauge, now, upstream);
      if pending.Err? || pending.value {
        return false;
      }
      if gauge.nextEpoch < now < upstream {
        var selected := SelectedSet(g);
        if selected.Err? {
          return false;
        }
        var ratios := Normalise(selected.value);
        if ratios.Err? {
          return false;
        }
        ok := UpdateEpoch(g, gauge, upstream, ratios.value, false);
        if !ok {
          return false;
        }
      }
      ok := Recast(voter, g, votes, power);
    }

    /** `execute` */
    method Execute(now: nat, upstream: nat, g: GaugeId) returns (r: Result<seq<Vote>>)
      modifies this
      ensures r.Ok? == GaugeVoting.Execute(old(Abs()), now, upstream, g).Ok?
      ensures r.Ok? ==> GaugeVoting.Execute(old(Abs()), now, upstream, g) == Ok((Abs(), r.value))
    {
      if g !in gauges || gauges[g].isStopped {
        return Err;
      }
      var gauge := gauges[g];
      var pending :- Pending(gauge, now, upstream);
      if !pending {
        return Err;
      }
      var selected := SelectedSet(g);
      if selected.Err? {
        return Err;
      }
      gauge := gauge.(lastSet := Some(selected.value));
      r := Normalise(selected.value);
      if r.Err? {
        return Err;
      }
      gauges := gauges[g := gauge];
      var ok := UpdateEpoch(g, gauge, upstream, r.value, true);
      if !ok {
        return Err;
      }
      assert old(gauges)[g := gauge][g := gauge.(nextEpoch := upstream)] == old(gauges)[g := gauge.(nextEpoch := upstream)];
    }
  }

  lemma VisitOrder(t: Tallies, g: GaugeId, ups: seq<Update>, diff: map<Name, (nat, nat)>)
    requires Indexed(t) && Lists(ups, diff)
    ensures UpdateByDiff(t, g, diff) == GaugeTally.UpdateTallies(t, g, ups)
  {
    Listable(diff);
    var other: seq<Update> :| Lists(other, diff) && UpdateByDiff(t, g, diff) == GaugeTally.UpdateTallies(t, g, other);
    OrderDoesNotMatter(t, g, ups, other, diff);
  }
}
