/**
 * The hook that tells the gauge about changes of voting power: when it keeps the tally equal to
 * the ballots, and when it aborts. It adds up every listing of a ballot, while a vote counts the
 * last listing of an option only, so ballots that repeat an option are where the two can part.
 */
module GaugeHooks {
  import opened Prelude
  import opened Decimals
  import opened MapSums
  import opened GaugeTally
  import opened GaugeSelection
  import opened GaugeVoting
  import opened GaugeBallots

  // ----- a change of power, listing by listing

  /** What all listings of `o` add up to; `Given` counts the last one only. */
  function Listed(power: nat, votes: seq<Vote>, o: Name): nat {
    if votes == [] then 0
    else
      var v := votes[|votes| - 1];
      Listed(power, votes[..|votes| - 1], o) + if v.option == o then Points(power, v.weight) else 0
  }

  function Shares(power: nat, votes: seq<Vote>): nat {
    if votes == [] then 0 else Shares(power, votes[..|votes| - 1]) + Points(power, votes[|votes| - 1].weight)
  }

  lemma {:induction false} ReweighingNet(votes: seq<Vote>, before: nat, after: nat)
    ensures var ups := Reweighing(votes, before, after);
            && (forall o: Name :: NetOf(ups, o) == Listed(after, votes, o) - Listed(before, votes, o))
            && News(ups) == Shares(after, votes) && Olds(ups) == Shares(before, votes)
  {
    if votes != [] {
      var ups := Reweighing(votes, before, after);
      ReweighingNet(votes[..|votes| - 1], before, after);
      assert ups[..|ups| - 1] == Reweighing(votes[..|votes| - 1], before, after);
    }
  }

  /** Adding up all listings changes by exactly what the ballot comes to count for. */
  ghost predicate NoDrift(votes: seq<Vote>, stored: nat, before: nat, after: nat) {
    && (forall o: Name :: Listed(after, votes, o) - Listed(before, votes, o)
                          == Given(Ballot(after, votes), o) - Given(Ballot(stored, votes), o))
    && Shares(after, votes) - Shares(before, votes) == Cast(Ballot(after, votes)) - Cast(Ballot(stored, votes))
  }

  /**
   * Repeated options are counted once per listing here and once per option when voting, and `before`
   * need not be the stored power: the books survive when the two ways of counting move alike.
   */
  lemma ReweighKeepsLawWithoutDrift(s: State, voter: Addr, g: GaugeId, before: nat, after: nat)
    requires Law(s) && (voter, g) in s.ballots && Reweigh(s, voter, g, before, after).Ok?
    ensures Law(Reweigh(s, voter, g, before, after).value)
       <==> NoDrift(s.ballots[(voter, g)].votes, s.ballots[(voter, g)].power, before, after)
  {
    var b := s.ballots[(voter, g)];
    var s1 := Reweigh(s, voter, g, before, after).value;
    var ups := Reweighing(b.votes, before, after);
    ReweighingNet(b.votes, before, after);
    if NoDrift(b.votes, b.power, before, after) {
      ChangeKeepsLaw(s, s1, voter, g, Ballot(after, b.votes), ups);
    }
    if Law(s1) {
      UpdateAgrees(s.tallies, g, ups);
      forall o: Name ensures NetOf(ups, o) == Given(Ballot(after, b.votes), o) - Given(b, o) {
        BallotWritten(s, s1, (voter, g), Ballot(after, b.votes), g, o);
        assert Get(s1.tallies.tally, (g, o)) == Total(GivenMap(s1, g, o));
      }
      CastWritten(s, s1, (voter, g), Ballot(after, b.votes), g);
    }
  }

  // ----- what repeated listings hide

  /** Points of listings of `o` that a later listing of `o` replaces. */
  ghost function Superseded(power: nat, votes: seq<Vote>, o: Name): int {
    if votes == [] then 0
    else
      var before, v := votes[..|votes| - 1], votes[|votes| - 1];
      Superseded(power, before, o) + if v.option == o then Given(Ballot(power, before), o) else 0
  }

  ghost function AllSuperseded(power: nat, votes: seq<Vote>): int {
    if votes == [] then 0
    else
      var before, v := votes[..|votes| - 1], votes[|votes| - 1];
      AllSuperseded(power, before) + Given(Ballot(power, before), v.option)
  }

  /** Adding up all listings counts the replaced ones on top of what the ballot is worth. */
  lemma {:induction false} ListedIs(power: nat, votes: seq<Vote>)
    ensures forall o: Name :: Listed(power, votes, o) == Given(Ballot(power, votes), o) + Superseded(power, votes, o)
    ensures Shares(power, votes) == Cast(Ballot(power, votes)) + AllSuperseded(power, votes)
  {
    if votes == [] {
      assert Effective(power, votes) == map[];
    } else {
      var before, v := votes[..|votes| - 1], votes[|votes| - 1];
      ListedIs(power, before);
      TotalUpdate(Effective(power, before), v.option, Points(power, v.weight));
    }
  }

  /** The listing of `o` that counts, or -1. */
  function LastOf(votes: seq<Vote>, o: Name): int {
    if votes == [] then -1
    else if votes[|votes| - 1].option == o then |votes| - 1
    else LastOf(votes[..|votes| - 1], o)
  }

  lemma {:induction false} LastOfCounts(power: nat, votes: seq<Vote>, o: Name)
    ensures var k := LastOf(votes, o);
            && -1 <= k < |votes|
            && (forall i :: 0 <= i < |votes| && votes[i].option == o ==> i <= k)
            && (0 <= k ==> votes[k].option == o && Given(Ballot(power, votes), o) == Points(power, votes[k].weight))
            && (k < 0 ==> Given(Ballot(power, votes), o) == 0)
  {
    if votes != [] {
      var before := votes[..|votes| - 1];
      LastOfCounts(power, before, o);
      assert forall i :: 0 <= i < |before| ==> before[i] == votes[i];
    }
  }

  lemma PointsMono(before: nat, after: nat, weight: nat)
    requires before <= after
    ensures Points(before, weight) <= Points(after, weight)
  {
    MulMono(before, after, weight);
    DivMono(before * weight, after * weight, ONE);
  }

  lemma GivenMono(before: nat, after: nat, votes: seq<Vote>, o: Name)
    requires before <= after
    ensures Given(Ballot(before, votes), o) <= Given(Ballot(after, votes), o)
  {
    var k := LastOf(votes, o);
    LastOfCounts(before, votes, o);
    LastOfCounts(after, votes, o);
    if 0 <= k {
      PointsMono(before, after, votes[k].weight);
    }
  }

  /** Where an option is listed again, the change of power leaves the earlier listing's points alone. */
  predicate Steady(votes: seq<Vote>, before: nat, after: nat) {
    forall i, j :: 0 <= i < j < |votes| && votes[i].option == votes[j].option ==>
      Points(before, votes[i].weight) == Points(after, votes[i].weight)
  }

  lemma SteadyLonger(votes: seq<Vote>, before: nat, after: nat)
    requires votes != []
    ensures var prev, v := votes[..|votes| - 1], votes[|votes| - 1];
            Steady(votes, before, after) <==>
              Steady(prev, before, after) && Given(Ballot(before, prev), v.option) == Given(Ballot(after, prev), v.option)
  {
    var prev, v := votes[..|votes| - 1], votes[|votes| - 1];
    var k := LastOf(prev, v.option);
    LastOfCounts(before, prev, v.option);
    LastOfCounts(after, prev, v.option);
    assert forall i :: 0 <= i < |prev| ==> prev[i] == votes[i];
    if Steady(votes, before, after) && 0 <= k {
      assert votes[k].option == votes[|votes| - 1].option;
    }
    if Steady(prev, before, after) && Given(Ballot(before, prev), v.option) == Given(Ballot(after, prev), v.option) {
      forall i, j | 0 <= i < j < |votes| && votes[i].option == votes[j].option
        ensures Points(before, votes[i].weight) == Points(after, votes[i].weight) {
        if j < |prev| {
          assert prev[i].option == prev[j].option;
        } else if i < k {
          assert prev[i].option == prev[k].option;
        }
      }
    }
  }

  lemma {:induction false} SupersededGrows(votes: seq<Vote>, before: nat, after: nat, o: Name)
    requires before <= after
    ensures Superseded(before, votes, o) <= Superseded(after, votes, o)
  {
    if votes != [] {
      SupersededGrows(votes[..|votes| - 1], before, after, o);
      GivenMono(before, after, votes[..|votes| - 1], o);
    }
  }

  lemma {:induction false} SteadyHidesTheSame(votes: seq<Vote>, before: nat, after: nat)
    requires Steady(votes, before, after)
    ensures forall o: Name :: Superseded(before, votes, o) == Superseded(after, votes, o)
    ensures AllSuperseded(before, votes) == AllSuperseded(after, votes)
  {
    if votes != [] {
      SteadyLonger(votes, before, after);
      SteadyHidesTheSame(votes[..|votes| - 1], before, after);
    }
  }

  lemma {:induction false} HidingTheSameIsSteady(votes: seq<Vote>, before: nat, after: nat)
    requires before <= after
    requires forall o: Name :: Superseded(before, votes, o) == Superseded(after, votes, o)
    ensures Steady(votes, before, after)
  {
    if votes != [] {
      var prev, v := votes[..|votes| - 1], votes[|votes| - 1];
      SteadyLonger(votes, before, after);
      GivenMono(before, after, prev, v.option);
      forall o: Name ensures Superseded(before, prev, o) == Superseded(after, prev, o) {
        SupersededGrows(prev, before, after, o);
        assert Superseded(before, votes, o) == Superseded(after, votes, o);
      }
      assert Superseded(before, votes, v.option) == Superseded(after, votes, v.option);
      HidingTheSameIsSteady(prev, before, after);
    }
  }

  /** A change from the stored power drifts exactly when a listing that is superseded changes its points. */
  lemma DriftsExactlyWhenUnsteady(votes: seq<Vote>, before: nat, after: nat)
    ensures NoDrift(votes, before, before, after) <==> Steady(votes, before, after)
  {
    ListedIs(before, votes);
    ListedIs(after, votes);
    if NoDrift(votes, before, before, after) {
      forall o: Name ensures Superseded(before, votes, o) == Superseded(after, votes, o) {
        assert Listed(after, votes, o) - Listed(before, votes, o)
            == Given(Ballot(after, votes), o) - Given(Ballot(before, votes), o);
      }
      if before <= after {
        HidingTheSameIsSteady(votes, before, after);
      } else {
        HidingTheSameIsSteady(votes, after, before);
      }
    }
    if Steady(votes, before, after) {
      SteadyHidesTheSame(votes, before, after);
      forall o: Name ensures Listed(after, votes, o) - Listed(before, votes, o)
                          == Given(Ballot(after, votes), o) - Given(Ballot(before, votes), o) {
        assert Superseded(before, votes, o) == Superseded(after, votes, o);
      }
    }
  }

  /**
   * A truthful change of power keeps the books exactly when every listing of an option that is
   * listed again later has the same points under both powers.
   */
  lemma ReweighKeepsLawExactly(s: State, voter: Addr, g: GaugeId, before: nat, after: nat)
    requires Law(s) && (voter, g) in s.ballots && s.ballots[(voter, g)].power == before
    requires Reweigh(s, voter, g, before, after).Ok?
    ensures Law(Reweigh(s, voter, g, before, after).value) <==> Steady(s.ballots[(voter, g)].votes, before, after)
  {
    ReweighKeepsLawWithoutDrift(s, voter, g, before, after);
    DriftsExactlyWhenUnsteady(s.ballots[(voter, g)].votes, before, after);
  }

  predicate DistinctVotes(votes: seq<Vote>) {
    forall i, j :: 0 <= i < j < |votes| ==> votes[i].option != votes[j].option
  }

  lemma {:induction false} DistinctHidesNothing(power: nat, votes: seq<Vote>)
    requires DistinctVotes(votes)
    ensures forall o: Name :: Listed(power, votes, o) == Given(Ballot(power, votes), o)
    ensures Shares(power, votes) == Cast(Ballot(power, votes))
  {
    ListedIs(power, votes);
    NothingSuperseded(power, votes);
  }

  lemma {:induction false} NothingSuperseded(power: nat, votes: seq<Vote>)
    requires DistinctVotes(votes)
    ensures forall o: Name :: Superseded(power, votes, o) == 0
    ensures AllSuperseded(power, votes) == 0
  {
    if votes != [] {
      var before, v := votes[..|votes| - 1], votes[|votes| - 1];
      NothingSuperseded(power, before);
      LastOfCounts(power, before, v.option);
      assert forall i :: 0 <= i < |before| ==> before[i] == votes[i];
    }
  }

  /** A change from another power than the stored one keeps the books exactly when no vote can tell the two apart. */
  lemma StaleReweighKeepsLawExactly(s: State, voter: Addr, g: GaugeId, before: nat, after: nat)
    requires Law(s) && (voter, g) in s.ballots && DistinctVotes(s.ballots[(voter, g)].votes)
    requires Reweigh(s, voter, g, before, after).Ok?
    ensures Law(Reweigh(s, voter, g, before, after).value)
       <==> var b := s.ballots[(voter, g)]; forall v :: v in b.votes ==> Points(before, v.weight) == Points(b.power, v.weight)
  {
    var b := s.ballots[(voter, g)];
    ReweighKeepsLawWithoutDrift(s, voter, g, before, after);
    DistinctHidesNothing(before, b.votes);
    DistinctHidesNothing(after, b.votes);
    DistinctHidesNothing(b.power, b.votes);
    if NoDrift(b.votes, b.power, before, after) {
      forall v | v in b.votes ensures Points(before, v.weight) == Points(b.power, v.weight) {
        var i :| 0 <= i < |b.votes| && b.votes[i] == v;
        GivenOfListing(before, b.votes, i);
        GivenOfListing(b.power, b.votes, i);
        assert Listed(after, b.votes, v.option) - Listed(before, b.votes, v.option)
            == Given(Ballot(after, b.votes), v.option) - Given(Ballot(b.power, b.votes), v.option);
      }
    }
    if forall v :: v in b.votes ==> Points(before, v.weight) == Points(b.power, v.weight) {
      SamePoints(before, b.power, b.votes);
    }
  }

  lemma GivenOfListing(power: nat, votes: seq<Vote>, i: nat)
    requires DistinctVotes(votes) && i < |votes|
    ensures Given(Ballot(power, votes), votes[i].option) == Points(power, votes[i].weight)
  {
    LastOfCounts(power, votes, votes[i].option);
  }

  lemma {:induction false} SamePoints(p: nat, q: nat, votes: seq<Vote>)
    requires forall v :: v in votes ==> Points(p, v.weight) == Points(q, v.weight)
    ensures forall o: Name :: Listed(p, votes, o) == Listed(q, votes, o)
    ensures Shares(p, votes) == Shares(q, votes)
  {
    if votes != [] {
      assert votes[|votes| - 1] in votes;
      SamePoints(p, q, votes[..|votes| - 1]);
    }
  }

  /** The same option listed twice, half the power each: doubling the power drifts. */
  lemma RepeatedOptionDrifts()
    ensures var votes := [Vote("a", ONE / 2), Vote("a", ONE / 2)];
            WeightSum(votes) == ONE && !NoDrift(votes, 10, 10, 20)
  {
    var a := Vote("a", ONE / 2);
    var votes := [a, a];
    assert votes[1..] == [a] && [a][1..] == [];
    assert WeightSum([a]) == ONE / 2;
    assert Points(10, votes[0].weight) == 5 && Points(20, votes[0].weight) == 10;
    DriftsExactlyWhenUnsteady(votes, 10, 20);
  }

  // ----- the hook

  /** The voter's ballots on these gauges have the new power; nothing else about ballots or gauges differs. */
  predicate OnlyOn(s: State, s1: State, voter: Addr, gs: seq<GaugeId>, after: nat) {
    && s1.gauges == s.gauges && s1.votingPowers == s.votingPowers
    && s1.ballots.Keys == s.ballots.Keys
    && (forall k :: k in s.ballots ==> s1.ballots[k].votes == s.ballots[k].votes)
    && (forall k :: k in s.ballots && !(k.0 == voter && k.1 in gs) ==> s1.ballots[k] == s.ballots[k])
    && (forall k :: k in s.ballots && k.0 == voter && k.1 in gs ==> s1.ballots[k].power == after)
  }

  ghost predicate SameElsewhere(t: Tallies, t1: Tallies, gs: seq<GaugeId>) {
    && (forall h: GaugeId, o: Name :: h !in gs ==> Get(t1.tally, (h, o)) == Get(t.tally, (h, o)))
    && (forall h: GaugeId :: h !in gs ==> Get(t1.total, h) == Get(t.total, h))
  }

  /** Index and total follow the tally through a change of power, whatever the ballot lists. */
  lemma ReweighAgrees(s: State, voter: Addr, g: GaugeId, before: nat, after: nat)
    requires Agrees(s.tallies) && (voter, g) in s.ballots && Reweigh(s, voter, g, before, after).Ok?
    ensures var s1 := Reweigh(s, voter, g, before, after).value;
            Agrees(s1.tallies) && OnlyOn(s, s1, voter, [g], after) && SameElsewhere(s.tallies, s1.tallies, [g])
  {
    UpdateAgrees(s.tallies, g, Reweighing(s.ballots[(voter, g)].votes, before, after));
  }

  lemma OneMoreGauge(s: State, s0: State, s1: State, voter: Addr, gs: seq<GaugeId>, after: nat)
    requires gs != []
    requires OnlyOn(s, s0, voter, gs[..|gs| - 1], after) && OnlyOn(s0, s1, voter, [gs[|gs| - 1]], after)
    requires SameElsewhere(s.tallies, s0.tallies, gs[..|gs| - 1]) && SameElsewhere(s0.tallies, s1.tallies, [gs[|gs| - 1]])
    ensures OnlyOn(s, s1, voter, gs, after) && SameElsewhere(s.tallies, s1.tallies, gs)
  {
    assert forall h :: h in gs <==> h in gs[..|gs| - 1] || h == gs[|gs| - 1];
  }

  lemma {:induction false} ReweighAllAgrees(s: State, voter: Addr, gs: seq<GaugeId>, before: nat, after: nat)
    requires Agrees(s.tallies) && HasBallots(s, voter, gs) && ReweighAll(s, voter, gs, before, after).Ok?
    ensures var s1 := ReweighAll(s, voter, gs, before, after).value;
            Agrees(s1.tallies) && OnlyOn(s, s1, voter, gs, after) && SameElsewhere(s.tallies, s1.tallies, gs)
  {
    if gs != [] {
      var rest, g := gs[..|gs| - 1], gs[|gs| - 1];
      assert g in gs && forall h :: h in rest ==> h in gs;
      ReweighAllAgrees(s, voter, rest, before, after);
      var s0 := ReweighAll(s, voter, rest, before, after).value;
      ReweighAgrees(s0, voter, g, before, after);
      OneMoreGauge(s, s0, Reweigh(s0, voter, g, before, after).value, voter, gs, after);
    }
  }

  /** The ballots on these gauges carry `before` as their stored power and list no option twice. */
  predicate Carries(s: State, voter: Addr, gs: seq<GaugeId>, before: nat) {
    forall g :: g in gs ==>
      (voter, g) in s.ballots && s.ballots[(voter, g)].power == before && DistinctVotes(s.ballots[(voter, g)].votes)
  }

  predicate Increasing(gs: seq<GaugeId>) {
    forall i, j :: 0 <= i < j < |gs| ==> gs[i] < gs[j]
  }

  lemma {:induction false} ReweighAllKeepsLaw(s: State, voter: Addr, gs: seq<GaugeId>, before: nat, after: nat)
    requires Law(s) && Carries(s, voter, gs, before) && Increasing(gs)
    requires ReweighAll(s, voter, gs, before, after).Ok?
    ensures Law(ReweighAll(s, voter, gs, before, after).value)
  {
    if gs != [] {
      var rest, g := gs[..|gs| - 1], gs[|gs| - 1];
      assert forall h :: h in gs <==> h in rest || h == g;
      ReweighAllKeepsLaw(s, voter, rest, before, after);
      ReweighAllAgrees(s, voter, rest, before, after);
      var s0 := ReweighAll(s, voter, rest, before, after).value;
      assert g in gs && g !in rest;
      assert s0.ballots[(voter, g)] == s.ballots[(voter, g)];
      ReweighStep(s0, voter, g, before, after);
    }
  }

  lemma ReweighStep(s: State, voter: Addr, g: GaugeId, before: nat, after: nat)
    requires Law(s) && (voter, g) in s.ballots && s.ballots[(voter, g)].power == before
    requires DistinctVotes(s.ballots[(voter, g)].votes) && Reweigh(s, voter, g, before, after).Ok?
    ensures var s1 := Reweigh(s, voter, g, before, after).value;
            Law(s1) && s1.ballots == s.ballots[(voter, g) := Ballot(after, s.ballots[(voter, g)].votes)]
  {
    DriftsExactlyWhenUnsteady(s.ballots[(voter, g)].votes, before, after);
    ReweighKeepsLawWithoutDrift(s, voter, g, before, after);
  }

  lemma ReachedIsIncreasing(s: State, voter: Addr)
    ensures Increasing(Reached(s, voter))
    ensures |GaugesOf(s, voter)| <= MAX_LIMIT ==> forall g :: (voter, g) in s.ballots ==> g in Reached(s, voter)
  {
    AscendingIs(GaugesOf(s, voter));
    forall g | (voter, g) in s.ballots ensures g in GaugesOf(s, voter) {
      assert (voter, g).1 == g;
    }
  }

  /** One member's change of power, applied to all gauges the hook reaches. */
  ghost function MemberChanged(s: State, d: MemberDiff): Result<State> {
    ReweighAll(s, d.key, Reached(s, d.key), d.Before(), d.After())
  }

  lemma MemberChangedKeepsLaw(s: State, d: MemberDiff)
    requires Law(s) && Carries(s, d.key, Reached(s, d.key), d.Before()) && MemberChanged(s, d).Ok?
    ensures Law(MemberChanged(s, d).value)
  {
    ReachedIsIncreasing(s, d.key);
    ReweighAllKeepsLaw(s, d.key, Reached(s, d.key), d.Before(), d.After());
  }

  /** A voter on at most a hundred gauges has every ballot brought to the new power. */
  lemma HookReachesAll(s: State, d: MemberDiff, g: GaugeId)
    requires Agrees(s.tallies) && MemberChanged(s, d).Ok?
    requires |GaugesOf(s, d.key)| <= MAX_LIMIT && (d.key, g) in s.ballots
    ensures var s1 := MemberChanged(s, d).value;
            (d.key, g) in s1.ballots && s1.ballots[(d.key, g)].power == d.After()
  {
    ReachedIsIncreasing(s, d.key);
    ReweighAllAgrees(s, d.key, Reached(s, d.key), d.Before(), d.After());
  }

  /** Each diff, when its turn comes, carries the power stored on the ballots it reaches. */
  ghost predicate DiffsCarry(s: State, sender: Addr, diffs: seq<MemberDiff>) {
    diffs == [] ||
      var before := diffs[..|diffs| - 1];
      && DiffsCarry(s, sender, before)
      && (MembersChanged(s, sender, before).Ok? ==>
            var d, s1 := diffs[|diffs| - 1], MembersChanged(s, sender, before).value;
            Carries(s1, d.key, Reached(s1, d.key), d.Before()))
  }

  lemma {:induction false} MembersChangedKeepsLaw(s: State, sender: Addr, diffs: seq<MemberDiff>)
    requires Law(s) && DiffsCarry(s, sender, diffs) && MembersChanged(s, sender, diffs).Ok?
    ensures Law(MembersChanged(s, sender, diffs).value)
  {
    if diffs != [] {
      var before, d := diffs[..|diffs| - 1], diffs[|diffs| - 1];
      MembersChangedKeepsLaw(s, sender, before);
      MemberChangedKeepsLaw(MembersChanged(s, sender, before).value, d);
    }
  }

  // ----- when the hook aborts

  lemma BallotWithinSums(s: State, voter: Addr, g: GaugeId, o: Name)
    requires Law(s)
    ensures 0 <= Given(BallotOf(s, voter, g), o) <= Get(s.tallies.tally, (g, o))
    ensures Cast(BallotOf(s, voter, g)) <= Get(s.tallies.total, g)
  {
    forall k | k in s.ballots ensures 0 <= Given(s.ballots[k], o) && 0 <= Cast(s.ballots[k]) {
      EffectiveNonNegative(s.ballots[k].power, s.ballots[k].votes);
    }
    EntryWithinTotal(GivenMap(s, g, o), (voter, g));
    EntryWithinTotal(CastMap(s, g), (voter, g));
    assert Effective(0, []) == map[];
  }

  lemma {:induction false} SharesBound(power: nat, votes: seq<Vote>)
    ensures Shares(power, votes) * ONE <= power * WeightsOf(votes)
  {
    if votes != [] {
      var v := votes[|votes| - 1];
      SharesBound(power, votes[..|votes| - 1]);
      DivBounds(power * v.weight, ONE);
      Spread(power, WeightsOf(votes[..|votes| - 1]), v.weight);
    }
  }

  lemma SharesWithinPower(power: nat, votes: seq<Vote>)
    requires WeightSum(votes) <= ONE
    ensures Shares(power, votes) <= power
  {
    SharesBound(power, votes);
    WeightsAgree(votes);
    MulMono(WeightSum(votes), ONE, power);
    assert WeightSum(votes) * power == power * WeightSum(votes);
    Unscale(Shares(power, votes), power);
  }

  predicate OneWay(ups: seq<Update>) {
    (forall u :: u in ups ==> u.was <= u.now) || (forall u :: u in ups ==> u.now <= u.was)
  }

  /** Updates that all raise or all lower go through exactly when every option can bear its net change. */
  lemma {:induction false} OneWayFits(t: Tallies, g: GaugeId, ups: seq<Update>, room: nat)
    requires Indexed(t) && OneWay(ups)
    requires forall o: Name :: Get(t.tally, (g, o)) <= room
    requires room + News(ups) < U128 && Olds(ups) < U128
    ensures BumpAll(t, g, ups).Ok? <==> forall o: Name :: 0 <= Get(t.tally, (g, o)) + NetOf(ups, o)
    ensures forall o: Name :: NetOf(ups, o) <= News(ups)
    ensures (forall u :: u in ups ==> u.was <= u.now) ==> forall o: Name :: 0 <= NetOf(ups, o)
  {
    if ups != [] {
      var before, u := ups[..|ups| - 1], ups[|ups| - 1];
      assert u in ups && forall w :: w in before ==> w in ups;
      OneWayFits(t, g, before, room);
      if BumpAll(t, g, before).Ok? {
        BumpAllEffect(t, g, before);
        var t1 := BumpAll(t, g, before).value.0;
        assert Get(t1.tally, (g, u.option)) == Get(t.tally, (g, u.option)) + NetOf(before, u.option);
        assert NetOf(ups, u.option) == NetOf(before, u.option) + u.now - u.was;
      } else {
        var o: Name :| Get(t.tally, (g, o)) + NetOf(before, o) < 0;
        assert NetOf(ups, o) <= NetOf(before, o);
      }
    }
  }

  /** Every option holds the points the ballot's listings would take away from it. */
  ghost predicate Bears(t: Tallies, g: GaugeId, votes: seq<Vote>, before: nat, after: nat) {
    forall o: Name :: Listed(before, votes, o) <= Get(t.tally, (g, o)) + Listed(after, votes, o)
  }

  lemma ReweighingIsOneWay(votes: seq<Vote>, before: nat, after: nat)
    ensures OneWay(Reweighing(votes, before, after))
  {
    var ups := Reweighing(votes, before, after);
    forall u | u in ups ensures if before <= after then u.was <= u.now else u.now <= u.was {
      var i :| 0 <= i < |ups| && ups[i] == u;
      if before <= after {
        PointsMono(before, after, votes[i].weight);
      } else {
        PointsMono(after, before, votes[i].weight);
      }
    }
  }

  /** While the numbers fit, a ballot takes on a new power exactly when its options can bear the listings. */
  lemma ReweighingFitsExactly(t: Tallies, g: GaugeId, votes: seq<Vote>, before: nat, after: nat)
    requires Agrees(t) && WeightSum(votes) <= ONE && before < U128 && Get(t.total, g) + after < U128
    ensures UpdateTallies(t, g, Reweighing(votes, before, after)).Ok? <==> Bears(t, g, votes, before, after)
  {
    var ups := Reweighing(votes, before, after);
    ReweighingNet(votes, before, after);
    ReweighingIsOneWay(votes, before, after);
    SharesWithinPower(before, votes);
    SharesWithinPower(after, votes);
    forall o: Name ensures Get(t.tally, (g, o)) <= Get(t.total, g) {
      CountWithinTotal(t, g, o);
    }
    OneWayFits(t, g, ups, Get(t.total, g));
    forall o: Name ensures NetOf(ups, o) == Listed(after, votes, o) - Listed(before, votes, o) {
    }
    if BumpAll(t, g, ups).Ok? {
      BumpAllEffect(t, g, ups);
      BumpAllTotals(t, g, ups, g);
      TotalNonNegative(OfGauge(BumpAll(t, g, ups).value.0.tally, g));
    }
  }

  /** Each of these gauges exists and can bear the listings of the voter's ballot on it. */
  ghost predicate AllBear(s: State, voter: Addr, gs: seq<GaugeId>, before: nat, after: nat)
    requires HasBallots(s, voter, gs)
  {
    forall g :: g in gs ==> g in s.gauges && Bears(s.tallies, g, s.ballots[(voter, g)].votes, before, after)
  }

  lemma LastFitsExactly(s: State, s0: State, voter: Addr, gs: seq<GaugeId>, g: GaugeId, before: nat, after: nat)
    requires Agrees(s0.tallies) && Weighed(s) && (voter, g) in s.ballots && g !in gs
    requires OnlyOn(s, s0, voter, gs, after) && SameElsewhere(s.tallies, s0.tallies, gs)
    requires before < U128 && Get(s.tallies.total, g) + after < U128
    ensures Reweigh(s0, voter, g, before, after).Ok?
       <==> g in s.gauges && Bears(s.tallies, g, s.ballots[(voter, g)].votes, before, after)
  {
    var votes := s.ballots[(voter, g)].votes;
    assert s0.ballots[(voter, g)].votes == votes;
    ReweighingFitsExactly(s0.tallies, g, votes, before, after);
    SameBears(s.tallies, s0.tallies, gs, g, votes, before, after);
  }

  /** The hook reaches a member's ballots gauge by gauge and goes through exactly when every gauge can bear it. */
  lemma {:induction false} ReweighAllFitsExactly(s: State, voter: Addr, gs: seq<GaugeId>, before: nat, after: nat)
    requires Agrees(s.tallies) && Weighed(s) && HasBallots(s, voter, gs) && Increasing(gs)
    requires before < U128 && forall g :: g in gs ==> Get(s.tallies.total, g) + after < U128
    ensures ReweighAll(s, voter, gs, before, after).Ok? <==> AllBear(s, voter, gs, before, after)
  {
    if gs != [] {
      var rest, g := gs[..|gs| - 1], gs[|gs| - 1];
      assert g in gs && forall h :: h in gs <==> h in rest || h == g;
      ReweighAllFitsExactly(s, voter, rest, before, after);
      if ReweighAll(s, voter, rest, before, after).Ok? {
        ReweighAllAgrees(s, voter, rest, before, after);
        LastFitsExactly(s, ReweighAll(s, voter, rest, before, after).value, voter, rest, g, before, after);
      }
    }
  }

  lemma SameBears(t: Tallies, t1: Tallies, gs: seq<GaugeId>, g: GaugeId, votes: seq<Vote>, before: nat, after: nat)
    requires SameElsewhere(t, t1, gs) && g !in gs
    ensures Bears(t, g, votes, before, after) <==> Bears(t1, g, votes, before, after)
  {
    assert forall o: Name :: Get(t1.tally, (g, o)) == Get(t.tally, (g, o));
  }

  /** A ballot without repetitions, counted at its stored power, is always in the tally it is taken from. */
  lemma CarriersBear(s: State, voter: Addr, gs: seq<GaugeId>, before: nat, after: nat)
    requires Law(s) && Carries(s, voter, gs, before)
    ensures forall g :: g in gs ==> Bears(s.tallies, g, s.ballots[(voter, g)].votes, before, after)
  {
    forall g | g in gs ensures Bears(s.tallies, g, s.ballots[(voter, g)].votes, before, after) {
      var votes := s.ballots[(voter, g)].votes;
      DistinctHidesNothing(before, votes);
      forall o: Name ensures Listed(before, votes, o) <= Get(s.tallies.tally, (g, o)) + Listed(after, votes, o) {
        BallotWithinSums(s, voter, g, o);
        assert Listed(before, votes, o) == Given(Ballot(before, votes), o);
      }
    }
  }

  /** Every point a replaced listing loses is still listed under the new power. */
  ghost predicate HidesLittle(votes: seq<Vote>, before: nat, after: nat) {
    forall o: Name :: Superseded(before, votes, o) <= Listed(after, votes, o)
  }

  /** The ballot of an option's only voter can change power exactly when its replaced listings hide little. */
  lemma SoleVoterBearsExactly(s: State, voter: Addr, g: GaugeId, after: nat)
    requires (voter, g) in s.ballots
    requires forall o: Name :: Get(s.tallies.tally, (g, o)) == Given(s.ballots[(voter, g)], o)
    ensures var b := s.ballots[(voter, g)];
            Bears(s.tallies, g, b.votes, b.power, after) <==> HidesLittle(b.votes, b.power, after)
  {
    var b := s.ballots[(voter, g)];
    ListedIs(b.power, b.votes);
    assert b == Ballot(b.power, b.votes);
    forall o: Name ensures Listed(b.power, b.votes, o) <= Get(s.tallies.tally, (g, o)) + Listed(after, b.votes, o)
                      <==> Superseded(b.power, b.votes, o) <= Listed(after, b.votes, o) {
      assert Get(s.tallies.tally, (g, o)) == Given(s.ballots[(voter, g)], o);
    }
  }

  ghost predicate OnGauges(s: State) {
    forall k :: k in s.ballots ==> k.1 in s.gauges
  }

  function Afters(diffs: seq<MemberDiff>): nat {
    if diffs == [] then 0 else Afters(diffs[..|diffs| - 1]) + diffs[|diffs| - 1].After()
  }

  /** The voters' summed powers, and these on top, fit a `Uint128` on every gauge. */
  ghost predicate Room(s: State, more: nat) {
    forall g: GaugeId :: Total(PowerMap(s, g)) + more < U128
  }

  lemma PowersGrow(s: State, s1: State, voter: Addr, gs: seq<GaugeId>, after: nat, g: GaugeId)
    requires OnlyOn(s, s1, voter, gs, after) && HasBallots(s, voter, gs)
    ensures Total(PowerMap(s1, g)) <= Total(PowerMap(s, g)) + after
  {
    var k := (voter, g);
    if g in gs {
      assert PowerMap(s1, g) == PowerMap(s, g)[k := after];
      TotalUpdate(PowerMap(s, g), k, after);
    } else {
      assert PowerMap(s1, g) == PowerMap(s, g);
    }
  }

  lemma MemberChangedFits(s: State, d: MemberDiff, more: nat)
    requires Law(s) && OnGauges(s) && Carries(s, d.key, Reached(s, d.key), d.Before()) && Room(s, d.After() + more)
    ensures MemberChanged(s, d).Ok?
  {
    var gs := Reached(s, d.key);
    ReachedIsIncreasing(s, d.key);
    if gs != [] {
      forall g | g in gs ensures Get(s.tallies.total, g) + d.After() < U128 && d.Before() < U128 && g in s.gauges {
        TotalWithinPower(s, g);
        assert Total(PowerMap(s, g)) + (d.After() + more) < U128;
        EntryWithinTotal(PowerMap(s, g), (d.key, g));
        assert (d.key, g) in s.ballots && (d.key, g).1 == g;
      }
      assert gs[0] in gs;
      CarriersBear(s, d.key, gs, d.Before(), d.After());
      ReweighAllFitsExactly(s, d.key, gs, d.Before(), d.After());
    }
  }

  lemma MemberChangedLeavesRoom(s: State, d: MemberDiff, more: nat)
    requires Law(s) && OnGauges(s) && Carries(s, d.key, Reached(s, d.key), d.Before()) && Room(s, d.After() + more)
    requires MemberChanged(s, d).Ok?
    ensures var s1 := MemberChanged(s, d).value;
            Law(s1) && OnGauges(s1) && Room(s1, more) && s1.votingPowers == s.votingPowers
  {
    var gs := Reached(s, d.key);
    var s1 := MemberChanged(s, d).value;
    ReachedIsIncreasing(s, d.key);
    ReweighAllKeepsLaw(s, d.key, gs, d.Before(), d.After());
    ReweighAllAgrees(s, d.key, gs, d.Before(), d.After());
    forall g: GaugeId ensures Total(PowerMap(s1, g)) + more < U128 {
      assert Total(PowerMap(s, g)) + (d.After() + more) < U128;
      PowersGrow(s, s1, d.key, gs, d.After(), g);
    }
  }

  /**
   * While the powers fit, the hook never aborts on truthful changes to ballots that list each option
   * once: no subtraction of any tally or total goes below zero.
   */
  lemma {:induction false} HookNeverAborts(s: State, sender: Addr, diffs: seq<MemberDiff>, more: nat)
    requires Law(s) && OnGauges(s) && sender == s.votingPowers && DiffsCarry(s, sender, diffs)
    requires Room(s, Afters(diffs) + more)
    ensures MembersChanged(s, sender, diffs).Ok?
    ensures var s1 := MembersChanged(s, sender, diffs).value;
            Law(s1) && OnGauges(s1) && Room(s1, more) && s1.votingPowers == s.votingPowers
  {
    if diffs != [] {
      var before, d := diffs[..|diffs| - 1], diffs[|diffs| - 1];
      assert Afters(diffs) + more == Afters(before) + (d.After() + more);
      HookNeverAborts(s, sender, before, d.After() + more);
      var s1 := MembersChanged(s, sender, before).value;
      MemberChangedFits(s1, d, more);
      MemberChangedLeavesRoom(s1, d, more);
    }
  }
}
