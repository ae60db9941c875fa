/**
 * What a gauge's calls give each option: the points a ballot is worth, and the weight, name and
 * rank an executed option leaves with.
 */
module GaugeOutcomes {
  import opened Prelude
  import opened Decimals
  import opened MapSums
  import opened GaugeTally
  import opened GaugeSelection
  import opened GaugeVoting
  import opened GaugeBallots
  import opened GaugeHooks

  // ----- voting

  /** `n` is the whole part of `power * weight`. */
  predicate WholeShare(n: int, power: nat, weight: nat) {
    n * ONE <= power * weight < n * ONE + ONE
  }

  /** A ballot is worth, to each option, the whole part of its power at the last weight listed for it. */
  lemma GivenIsWholeShare(b: Ballot, i: nat)
    requires i < |b.votes| && forall j :: i < j < |b.votes| ==> b.votes[j].option != b.votes[i].option
    ensures WholeShare(Given(b, b.votes[i].option), b.power, b.votes[i].weight)
  {
    LastOfCounts(b.power, b.votes, b.votes[i].option);
    DivBounds(b.power * b.votes[i].weight, ONE);
    assert b == Ballot(b.power, b.votes);
  }

  lemma UnlistedIsNothing(b: Ballot, o: Name)
    requires forall i :: 0 <= i < |b.votes| ==> b.votes[i].option != o
    ensures Given(b, o) == 0
  {
    LastOfCounts(b.power, b.votes, o);
    assert b == Ballot(b.power, b.votes);
  }

  /**
   * A vote that goes through is stored as cast, and moves the tally of every option by what the new
   * ballot is worth to it less what the old one was; other gauges' tallies stay.
   */
  lemma VoteMovesTally(s: State, voter: Addr, g: GaugeId, votes: seq<Vote>, power: nat, o: Name)
    requires Law(s) && Revote(s, voter, g, votes, power).Ok?
    ensures var s1 := Revote(s, voter, g, votes, power).value;
            && Get(s1.tallies.tally, (g, o))
                 == Get(s.tallies.tally, (g, o)) + Given(Ballot(power, votes), o) - Given(BallotOf(s, voter, g), o)
            && (forall h: GaugeId, p: Name :: h != g ==> Get(s1.tallies.tally, (h, p)) == Get(s.tallies.tally, (h, p)))
            && s1.ballots == (if votes == [] then s.ballots - {(voter, g)} else s.ballots[(voter, g) := Ballot(power, votes)])
            && s1.gauges == s.gauges
  {
    var ups := UpdatesOf(s.tallies, g, Diff(BallotOf(s, voter, g), power, votes));
    VoteChanges(BallotOf(s, voter, g), power, votes, ups);
    UpdateAgrees(s.tallies, g, ups);
  }

  // ----- executing

  /** The power left of `power` under a cap on the share of `total`, to the last whole point. */
  predicate CutTo(cap: Option<nat>, total: nat, power: nat, cut: nat) {
    if cap.Some? && (cap.value + 1) * total <= power * ONE
    then cut * ONE <= total * cap.value < cut * ONE + ONE
    else cut == power
  }

  /** A share of `total` that reaches the minimum, or any share but none when there is no minimum. */
  predicate Reaches(least: Option<nat>, total: nat, power: nat) {
    if least.Some? then least.value * total <= power * ONE else 0 < power
  }

  lemma RatioReaches(power: nat, total: nat, p: nat)
    requires 0 < total
    ensures p <= Ratio(power, total) <==> p * total <= power * ONE
  {
    DivBounds(power * ONE, total);
    MulMono(p, Ratio(power, total), total);
    MulMono(Ratio(power, total) + 1, p, total);
  }

  lemma CappedIsCut(gauge: Gauge, total: nat, power: nat)
    requires 0 < total
    ensures CutTo(gauge.maxPercent, total, power, Capped(gauge, total, power))
  {
    if gauge.maxPercent.Some? {
      RatioReaches(power, total, gauge.maxPercent.value + 1);
      DivBounds(total * gauge.maxPercent.value, ONE);
    }
  }

  lemma EligibleReaches(gauge: Gauge, total: nat, power: nat)
    requires 0 < total
    ensures Eligible(gauge, total, power) <==> Reaches(gauge.minPercent, total, power)
  {
    if gauge.minPercent.Some? {
      RatioReaches(power, total, gauge.minPercent.value);
    }
  }

  /** Option `i` of the set is an option of the tally with enough points, cut to the cap. */
  ghost predicate Earned(t: Tallies, g: GaugeId, gauge: Gauge, e: (Name, nat)) {
    && (g, e.0) in t.tally
    && Reaches(gauge.minPercent, Get(t.total, g), t.tally[(g, e.0)])
    && CutTo(gauge.maxPercent, Get(t.total, g), t.tally[(g, e.0)], e.1)
  }

  ghost predicate Ranked(t: Tallies, g: GaugeId, a: Name, b: Name) {
    (g, a) in t.tally && (g, b) in t.tally && Above((t.tally[(g, a)], a), (t.tally[(g, b)], b))
  }

  /** The best options in order, each with its own points; a good option is left out of a full set only. */
  ghost predicate BestSet(t: Tallies, g: GaugeId, gauge: Gauge, chosen: seq<(Name, nat)>) {
    && |chosen| <= gauge.maxOptions
    && (forall i :: 0 <= i < |chosen| ==> Earned(t, g, gauge, chosen[i]))
    && (forall i, j :: 0 <= i < j < |chosen| ==> Ranked(t, g, chosen[i].0, chosen[j].0))
    && forall o :: (g, o) in t.tally && Reaches(gauge.minPercent, Get(t.total, g), t.tally[(g, o)]) ==>
         || (exists i :: 0 <= i < |chosen| && chosen[i].0 == o)
         || (|chosen| == gauge.maxOptions && forall i :: 0 <= i < |chosen| ==> Ranked(t, g, chosen[i].0, o))
  }

  lemma WinnerOf(t: Tallies, g: GaugeId, gauge: Gauge, e: Entry)
    requires Indexed(t) && 0 < Get(t.total, g) && e in Winners(t, g, gauge)
    ensures (g, e.1) in t.tally && t.tally[(g, e.1)] == e.0
    ensures Earned(t, g, gauge, (e.1, Capped(gauge, Get(t.total, g), e.0)))
  {
    SelectionIsBest(t, g, gauge, e.1);
    EligibleReaches(gauge, Get(t.total, g), e.0);
    CappedIsCut(gauge, Get(t.total, g), e.0);
  }

  lemma LeftOut(t: Tallies, g: GaugeId, gauge: Gauge, chosen: seq<(Name, nat)>, o: Name)
    requires Indexed(t) && 0 < Get(t.total, g) && SelectedSet(t, g, gauge) == Ok(chosen)
    requires (g, o) in t.tally && Reaches(gauge.minPercent, Get(t.total, g), t.tally[(g, o)])
    ensures || (exists i :: 0 <= i < |chosen| && chosen[i].0 == o)
            || (|chosen| == gauge.maxOptions && forall i :: 0 <= i < |chosen| ==> Ranked(t, g, chosen[i].0, o))
  {
    var w := Winners(t, g, gauge);
    SelectionIsBest(t, g, gauge, o);
    EligibleReaches(gauge, Get(t.total, g), t.tally[(g, o)]);
    if (t.tally[(g, o)], o) in w {
      var i :| 0 <= i < |w| && w[i] == (t.tally[(g, o)], o);
      assert chosen[i].0 == o;
    } else {
      forall i | 0 <= i < |chosen| ensures Ranked(t, g, chosen[i].0, o) {
        assert w[i] in w;
        assert w[i] == (w[i].0, w[i].1);
      }
    }
  }

  lemma SelectedIsBest(t: Tallies, g: GaugeId, gauge: Gauge)
    requires Indexed(t) && 0 < Get(t.total, g) && SelectedSet(t, g, gauge).Ok?
    ensures BestSet(t, g, gauge, SelectedSet(t, g, gauge).value)
  {
    var w, chosen := Winners(t, g, gauge), SelectedSet(t, g, gauge).value;
    SelectionIsBest(t, g, gauge, "");
    forall i | 0 <= i < |w| ensures (g, w[i].1) in t.tally && t.tally[(g, w[i].1)] == w[i].0 && Earned(t, g, gauge, chosen[i]) {
      assert w[i] in w;
      WinnerOf(t, g, gauge, w[i]);
    }
    forall i, j | 0 <= i < j < |chosen| ensures Ranked(t, g, chosen[i].0, chosen[j].0) {
      assert w[i] == (w[i].0, w[i].1) && w[j] == (w[j].0, w[j].1);
    }
    forall o | (g, o) in t.tally && Reaches(gauge.minPercent, Get(t.total, g), t.tally[(g, o)])
      ensures || (exists i :: 0 <= i < |chosen| && chosen[i].0 == o)
              || (|chosen| == gauge.maxOptions && forall i :: 0 <= i < |chosen| ==> Ranked(t, g, chosen[i].0, o)) {
      LeftOut(t, g, gauge, chosen, o);
    }
  }

  /** Each vote carries the option's own name and the floor of its own part of the set's power. */
  predicate Shared(chosen: seq<(Name, nat)>, votes: seq<Vote>, sum: nat) {
    && |votes| == |chosen|
    && forall i :: 0 <= i < |votes| ==>
         votes[i].option == chosen[i].0 && votes[i].weight * sum <= chosen[i].1 * ONE < (votes[i].weight + 1) * sum
  }

  lemma {:induction false} NormalisedShares(chosen: seq<(Name, nat)>, sum: nat)
    requires Normalised(chosen, sum).Ok?
    ensures Shared(chosen, Normalised(chosen, sum).value, sum)
  {
    if chosen != [] {
      NormalisedShares(chosen[1..], sum);
      DivBounds(chosen[0].1 * ONE, sum);
      var votes, rest := Normalised(chosen, sum).value, Normalised(chosen[1..], sum).value;
      assert votes == [Vote(chosen[0].0, Ratio(chosen[0].1, sum))] + rest;
      forall i | 0 <= i < |votes|
        ensures votes[i].option == chosen[i].0 && votes[i].weight * sum <= chosen[i].1 * ONE < (votes[i].weight + 1) * sum {
        if 0 < i {
          assert votes[i] == rest[i - 1] && chosen[i] == chosen[1..][i - 1];
        }
      }
    }
  }

  /** What the epoch's end writes: the finished epoch under its number, the next number, the next deadline. */
  ghost predicate EpochClosed(s: State, s1: State, g: GaugeId, upstream: nat, votes: seq<Vote>, executed: bool) {
    && g in s.gauges && g in s.lastEpoch
    && s1 == s.(gauges := s1.gauges, lastEpoch := s1.lastEpoch, history := s1.history)
    && s1.lastEpoch == s.lastEpoch[g := s.lastEpoch[g] + 1]
    && s1.history == s.history[(g, s.lastEpoch[g]) := EpochRecord(s.gauges[g].epoch, s.gauges[g].nextEpoch, votes, executed)]
    && g in s1.gauges && s1.gauges == s.gauges[g := s1.gauges[g]]
    && s1.gauges[g] == s.gauges[g].(nextEpoch := upstream, lastSet := s1.gauges[g].lastSet)
  }

  /**
   * `execute`: the best options, ranked, each cut by the cap on its own points; each is voted for
   * under its own name with the floor of its part of their sum; the set and the epoch are recorded.
   */
  lemma ExecuteOutcome(s: State, now: nat, upstream: nat, g: GaugeId)
    requires Indexed(s.tallies) && Execute(s, now, upstream, g).Ok?
    ensures var (s1, votes) := Execute(s, now, upstream, g).value;
            && EpochClosed(s, s1, g, upstream, votes, true)
            && s1.gauges[g].lastSet.Some?
            && Shared(s1.gauges[g].lastSet.value, votes, PowerSum(s1.gauges[g].lastSet.value))
            && (0 < Get(s.tallies.total, g) ==> BestSet(s.tallies, g, s.gauges[g], s1.gauges[g].lastSet.value))
            && (Get(s.tallies.total, g) == 0 ==> votes == [])
  {
    var selected := SelectedSet(s.tallies, g, s.gauges[g]).value;
    NormalisedShares(selected, PowerSum(selected));
    if 0 < Get(s.tallies.total, g) {
      SelectedIsBest(s.tallies, g, s.gauges[g]);
    }
  }

  /** A vote that finds an epoch missed closes it first, with the selection of that moment and nothing executed. */
  lemma MissedEpochClosed(s: State, now: nat, upstream: nat, voter: Addr, g: GaugeId, votes: seq<Vote>, power: nat)
    requires Indexed(s.tallies) && PlaceVotes(s, now, upstream, voter, g, votes, power).Ok?
    requires s.gauges[g].nextEpoch < now < upstream
    ensures SelectedSet(s.tallies, g, s.gauges[g]).Ok?
    ensures exists s0, shares :: EpochClosed(s, s0, g, upstream, shares, false) && s0.gauges[g].lastSet == s.gauges[g].lastSet
              && Shared(SelectedSet(s.tallies, g, s.gauges[g]).value, shares, PowerSum(SelectedSet(s.tallies, g, s.gauges[g]).value))
              && PlaceVotes(s, now, upstream, voter, g, votes, power) == Revote(s0, voter, g, votes, power)
  {
    var gauge := s.gauges[g];
    var selected := SelectedSet(s.tallies, g, gauge).value;
    NormalisedShares(selected, PowerSum(selected));
    var shares := SelectedVotes(s, g, gauge).value;
    var s0 := RollEpoch(s, g, gauge, upstream, shares, false).value;
    assert EpochClosed(s, s0, g, upstream, shares, false);
  }

  // ----- options

  /** An option is added without points unless it is there already or the adapter refuses it; nothing else changes. */
  lemma AddOptionOutcome(s: State, g: GaugeId, option: Name, check: bool)
    requires Agrees(s.tallies) && Get(s.tallies.total, g) < U128
    ensures AddOption(s, g, option, check).Ok? <==> check && (g, option) !in s.tallies.tally
    ensures AddOption(s, g, option, check).Ok? ==>
      var s1 := AddOption(s, g, option, check).value;
      && s1 == s.(tallies := s1.tallies) && s1.tallies.tally == s.tallies.tally[(g, option) := 0]
      && forall h: GaugeId :: Get(s1.tallies.total, h) == Get(s.tallies.total, h)
  {
    var u := Update(option, 0, 0);
    assert [u][..0] == [];
    assert BumpAll(s.tallies, g, []) == Ok((s.tallies, 0, 0));
    if (g, option) !in s.tallies.tally {
      assert BumpAll(s.tallies, g, [u]).Ok?;
    }
  }

  /** Only the owner removes an option, and only one that is there; it takes its points with it and leaves all others. */
  lemma RemoveOptionOutcome(s: State, sender: Addr, g: GaugeId, option: Name)
    requires Agrees(s.tallies)
    ensures RemoveOption(s, sender, g, option).Ok? <==> sender == s.owner && (g, option) in s.tallies.tally
    ensures RemoveOption(s, sender, g, option).Ok? ==>
      var s1 := RemoveOption(s, sender, g, option).value;
      && s1 == s.(tallies := s1.tallies) && s1.tallies.tally == s.tallies.tally - {(g, option)}
      && forall h: GaugeId :: Get(s1.tallies.total, h)
           == Get(s.tallies.total, h) - if h == g then Get(s.tallies.tally, (g, option)) else 0
  {
    RemoveAgrees(s.tallies, g, option);
  }
}
