/**
 * The gauge contract's calls: voting, re-voting, changes of voting power, adding and removing
 * options, executing. The upstream gauge's next epoch, the clock and the voting power are
 * arguments; the reset machinery is off (`reset` stays `None`).
 */
module GaugeVoting {
  import opened Prelude
  import opened Decimals
  import opened GaugeTally
  import opened GaugeSelection

  datatype Ballot = Ballot(power: nat, votes: seq<Vote>)

  const NO_BALLOT := Ballot(0, [])

  datatype EpochRecord = EpochRecord(epoch: nat, nextEpoch: nat, votes: seq<Vote>, executed: bool)

  datatype State = State(
    owner: Addr, votingPowers: Addr,
    gauges: map<GaugeId, Gauge>, tallies: Tallies, ballots: map<(Addr, GaugeId), Ballot>,
    lastEpoch: map<GaugeId, nat>, history: map<(GaugeId, nat), EpochRecord>)

  datatype MemberDiff = MemberDiff(key: Addr, old_: Option<nat>, new_: Option<nat>)
  {
    function Before(): nat { if old_.Some? then old_.value else 0 }
    function After(): nat { if new_.Some? then new_.value else 0 }
  }

  /** `Uint128 * Decimal`; weights are at most one, so the product never exceeds the power. */
  function Points(power: nat, weight: nat): nat {
    power * weight / ONE
  }

  // ----- epochs

  /** `is_pending`: the subtraction is of unsigned integers and aborts below zero. */
  function Pending(gauge: Gauge, now: nat, upstream: nat): Result<bool> {
    var opens :- SubU128(gauge.nextEpoch, gauge.pendingSize);
    Ok((opens < now <= gauge.nextEpoch) || (now > gauge.nextEpoch && now > upstream))
  }

  function RollEpoch(s: State, g: GaugeId, gauge: Gauge, next: nat, votes: seq<Vote>, executed: bool): Result<State> {
    if g !in s.lastEpoch then Err
    else
      var last := s.lastEpoch[g];
      var later :- AddU128(last, 1);
      Ok(s.(history := s.history[(g, last) := EpochRecord(gauge.epoch, gauge.nextEpoch, votes, executed)],
            lastEpoch := s.lastEpoch[g := later],
            gauges := s.gauges[g := gauge.(nextEpoch := next)]))
  }

  ghost function SelectedVotes(s: State, g: GaugeId, gauge: Gauge): Result<seq<Vote>> {
    var selected :- SelectedSet(s.tallies, g, gauge);
    Normalised(selected, PowerSum(selected))
  }

  /** `execute`: the normalised selection becomes a `PlaceVotes` to the staker. */
  ghost function Execute(s: State, now: nat, upstream: nat, g: GaugeId): Result<(State, seq<Vote>)> {
    if g !in s.gauges || s.gauges[g].isStopped then Err
    else
      var gauge := s.gauges[g];
      var pending :- Pending(gauge, now, upstream);
      if !pending then Err
      else
        var selected :- SelectedSet(s.tallies, g, gauge);
        var votes :- Normalised(selected, PowerSum(selected));
        var s1 :- RollEpoch(s, g, gauge.(lastSet := Some(selected)), upstream, votes, true);
        Ok((s1, votes))
  }

  // ----- voting

  /** The diff's old side: collected into a hash map, so the last listing of an option wins. */
  function OldSide(power: nat, votes: seq<Vote>): map<Name, (nat, nat)> {
    if votes == [] then map[]
    else
      var v := votes[|votes| - 1];
      OldSide(power, votes[..|votes| - 1])[v.option := (Points(power, v.weight), 0)]
  }

  /** The diff with the new votes entered one by one. */
  function Diff(before: Ballot, power: nat, votes: seq<Vote>): map<Name, (nat, nat)> {
    if votes == [] then OldSide(before.power, before.votes)
    else
      var v := votes[|votes| - 1];
      var d := Diff(before, power, votes[..|votes| - 1]);
      d[v.option := (if v.option in d then d[v.option].0 else 0, Points(power, v.weight))]
  }

  lemma {:induction false} Listable(diff: map<Name, (nat, nat)>)
    ensures exists ups :: Lists(ups, diff)
    decreases |diff|
  {
    if diff == map[] {
      assert Lists([], diff);
    } else {
      var o :| o in diff;
      Listable(diff - {o});
      var ups: seq<Update> :| Lists(ups, diff - {o});
      ListOneMore(ups, diff, o);
    }
  }

  lemma ListOneMore(ups: seq<Update>, diff: map<Name, (nat, nat)>, o: Name)
    requires o in diff && Lists(ups, diff - {o})
    ensures Lists(ups + [Update(o, diff[o].0, diff[o].1)], diff)
  {
    var u := Update(o, diff[o].0, diff[o].1);
    forall i | 0 <= i < |ups| ensures ups[i].option != o {
      assert ups[i] in ups;
    }
    assert u in ups + [u];
    forall p | p in diff ensures Update(p, diff[p].0, diff[p].1) in ups + [u] {
      assert p == o || p in diff - {o};
    }
  }

  /** Applying a hash map of changes, in some order. */
  ghost function UpdateByDiff(t: Tallies, g: GaugeId, diff: map<Name, (nat, nat)>): Result<Tallies> {
    Listable(diff);
    var ups: seq<Update> :| Lists(ups, diff);
    UpdateTallies(t, g, ups)
  }

  function BallotOf(s: State, voter: Addr, g: GaugeId): Ballot {
    if (voter, g) in s.ballots then s.ballots[(voter, g)] else NO_BALLOT
  }

  /** The part of `place_votes` after the epoch checks. */
  ghost function Revote(s: State, voter: Addr, g: GaugeId, votes: seq<Vote>, power: nat): Result<State> {
    if WeightSum(votes) > ONE || power == 0 then Err
    else if (voter, g) !in s.ballots && votes == [] then Err
    else
      var diff := Diff(BallotOf(s, voter, g), power, votes);
      if exists o :: o in diff && diff[o].0 == 0 && (g, o) !in s.tallies.tally then Err
      else
        var tallies :- UpdateByDiff(s.tallies, g, diff);
        Ok(s.(tallies := tallies,
              ballots := if votes == [] then s.ballots - {(voter, g)} else s.ballots[(voter, g) := Ballot(power, votes)]))
  }

  ghost function PlaceVotes(s: State, now: nat, upstream: nat, voter: Addr, g: GaugeId, votes: seq<Vote>, power: nat): Result<State> {
    if g !in s.gauges then Err
    else
      var gauge := s.gauges[g];
      var pending :- Pending(gauge, now, upstream);
      if pending then Err
      else if gauge.nextEpoch < now < upstream then
        var selected :- SelectedVotes(s, g, gauge);
        var s1 :- RollEpoch(s, g, gauge, upstream, selected, false);
        Revote(s1, voter, g, votes, power)
      else Revote(s, voter, g, votes, power)
  }

  // ----- changes of voting power

  const MAX_LIMIT := 100

  /** The gauges a voter has a ballot on. */
  function GaugesOf(s: State, voter: Addr): set<GaugeId> {
    set k | k in s.ballots && k.0 == voter :: k.1
  }

  ghost predicate Least(m: GaugeId, s: set<GaugeId>) {
    m in s && forall g :: g in s ==> m <= g
  }

  lemma {:induction false} HasLeast(s: set<GaugeId>)
    requires s != {}
    ensures exists m :: Least(m, s)
    decreases |s|
  {
    var e :| e in s;
    if s == {e} {
      assert Least(e, s);
    } else {
      assert s - {e} != {} by {
        assert s == {e} + (s - {e});
      }
      HasLeast(s - {e});
      var m :| Least(m, s - {e});
      assert Least(if e < m then e else m, s);
    }
  }

  /** Iterating gauge ids upwards. */
  ghost function Ascending(s: set<GaugeId>): seq<GaugeId>
    decreases |s|
  {
    if s == {} then []
    else
      HasLeast(s);
      var m :| Least(m, s);
      [m] + Ascending(s - {m})
  }

  lemma {:induction false} AscendingIs(s: set<GaugeId>)
    ensures |Ascending(s)| == |s|
    ensures forall g :: g in Ascending(s) <==> g in s
    ensures forall i, j :: 0 <= i < j < |s| ==> Ascending(s)[i] < Ascending(s)[j]
    decreases |s|
  {
    if s != {} {
      HasLeast(s);
      var m :| Least(m, s) && Ascending(s) == [m] + Ascending(s - {m});
      AscendingIs(s - {m});
      LeastFirst(s, m, Ascending(s - {m}));
    }
  }

  lemma LeastFirst(s: set<GaugeId>, m: GaugeId, rest: seq<GaugeId>)
    requires Least(m, s) && |rest| == |s - {m}|
    requires forall g :: g in rest <==> g in s - {m}
    requires forall i, j :: 0 <= i < j < |rest| ==> rest[i] < rest[j]
    ensures |[m] + rest| == |s|
    ensures forall g :: g in [m] + rest <==> g in s
    ensures forall i, j :: 0 <= i < j < |s| ==> ([m] + rest)[i] < ([m] + rest)[j]
  {
    forall j | 0 <= j < |rest| ensures m < rest[j] {
      assert rest[j] in rest;
    }
  }

  function Reweighing(votes: seq<Vote>, before: nat, after: nat): (ups: seq<Update>)
    ensures |ups| == |votes|
    ensures forall i :: 0 <= i < |votes| ==>
      ups[i] == Update(votes[i].option, Points(before, votes[i].weight), Points(after, votes[i].weight))
  {
    seq(|votes|, i requires 0 <= i < |votes| =>
      Update(votes[i].option, Points(before, votes[i].weight), Points(after, votes[i].weight)))
  }

  /** One ballot takes on the new power. */
  function Reweigh(s: State, voter: Addr, g: GaugeId, before: nat, after: nat): Result<State>
    requires (voter, g) in s.ballots
  {
    if g !in s.gauges then Err
    else
      var votes := s.ballots[(voter, g)].votes;
      var tallies :- UpdateTallies(s.tallies, g, Reweighing(votes, before, after));
      Ok(s.(tallies := tallies, ballots := s.ballots[(voter, g) := Ballot(after, votes)]))
  }

  ghost predicate HasBallots(s: State, voter: Addr, gs: seq<GaugeId>) {
    forall g :: g in gs ==> (voter, g) in s.ballots
  }

  ghost function ReweighAll(s: State, voter: Addr, gs: seq<GaugeId>, before: nat, after: nat): (r: Result<State>)
    requires HasBallots(s, voter, gs)
    ensures r.Ok? ==> r.value.ballots.Keys == s.ballots.Keys
  {
    if gs == [] then Ok(s)
    else
      var g := gs[|gs| - 1];
      assert forall h :: h in gs[..|gs| - 1] ==> h in gs;
      var s1 :- ReweighAll(s, voter, gs[..|gs| - 1], before, after);
      assert (voter, g) in s1.ballots;
      Reweigh(s1, voter, g, before, after)
  }

  /** The gauges one hook call reaches: the first hundred by id. */
  ghost function Reached(s: State, voter: Addr): (gs: seq<GaugeId>)
    ensures HasBallots(s, voter, gs)
  {
    AscendingIs(GaugesOf(s, voter));
    assert forall g :: g in Take(Ascending(GaugesOf(s, voter)), MAX_LIMIT) ==> g in GaugesOf(s, voter);
    assert forall g :: g in GaugesOf(s, voter) ==> (voter, g) in s.ballots;
    Take(Ascending(GaugesOf(s, voter)), MAX_LIMIT)
  }

  ghost function MembersChanged(s: State, sender: Addr, diffs: seq<MemberDiff>): Result<State> {
    if sender != s.votingPowers then Err
    else if diffs == [] then Ok(s)
    else
      var d := diffs[|diffs| - 1];
      var s1 :- MembersChanged(s, sender, diffs[..|diffs| - 1]);
      ReweighAll(s1, d.key, Reached(s1, d.key), d.Before(), d.After())
  }

  // ----- options

  /** `check`: the adapter accepts the option and the sender has voting power. */
  function AddOption(s: State, g: GaugeId, option: Name, check: bool): Result<State> {
    if (g, option) in s.tallies.tally || !check then Err
    else
      var tallies :- UpdateTallies(s.tallies, g, [Update(option, 0, 0)]);
      Ok(s.(tallies := tallies))
  }

  function RemoveOption(s: State, sender: Addr, g: GaugeId, option: Name): Result<State> {
    if (g, option) !in s.tallies.tally || sender != s.owner then Err
    else
      var tallies :- RemoveTally(s.tallies, g, option);
      Ok(s.(tallies := tallies))
  }
}
