/**
 * The tally against the ballots. A ballot counts, for each option, the rounded share of the
 * voter's power (the last listing when an option is repeated). Tallies and totals equal the sums
 * over all voters, after any run of votes, power changes, and additions and removals of options.
 */
module GaugeBallots {
  import opened Prelude
  import opened Decimals
  import opened MapSums
  import opened GaugeTally
  import opened GaugeSelection
  import opened GaugeVoting

  // ----- what one ballot counts for

  /** The points a ballot gives each option. */
  function Effective(power: nat, votes: seq<Vote>): map<Name, int> {
    if votes == [] then map[]
    else
      var v := votes[|votes| - 1];
      Effective(power, votes[..|votes| - 1])[v.option := Points(power, v.weight)]
  }

  ghost function Given(b: Ballot, o: Name): int {
    At(Effective(b.power, b.votes), o)
  }

  ghost function Cast(b: Ballot): int {
    Total(Effective(b.power, b.votes))
  }

  lemma {:induction false} EffectiveNonNegative(power: nat, votes: seq<Vote>)
    ensures forall o :: o in Effective(power, votes) ==> 0 <= Effective(power, votes)[o]
    ensures 0 <= Total(Effective(power, votes))
  {
    if votes != [] {
      EffectiveNonNegative(power, votes[..|votes| - 1]);
    }
    TotalNonNegative(Effective(power, votes));
  }

  lemma {:induction false} EffectiveBound(power: nat, votes: seq<Vote>)
    ensures Total(Effective(power, votes)) * ONE <= power * WeightsOf(votes)
  {
    if votes == [] {
      assert Effective(power, votes) == map[];
    } else {
      var before, v := votes[..|votes| - 1], votes[|votes| - 1];
      EffectiveBound(power, before);
      EffectiveNonNegative(power, before);
      var m, p := Effective(power, before), Points(power, v.weight);
      TotalUpdate(m, v.option, p);
      assert Total(Effective(power, votes)) <= Total(m) + p;
      DivBounds(power * v.weight, ONE);
      Spread(power, WeightsOf(before), v.weight);
    }
  }

  lemma Spread(a: int, b: int, c: int)
    ensures a * (b + c) == a * b + a * c
  {
  }

  /** The weights added from the front, as the guard adds them, and from the back. */
  function WeightsOf(votes: seq<Vote>): nat {
    if votes == [] then 0 else WeightsOf(votes[..|votes| - 1]) + votes[|votes| - 1].weight
  }

  lemma {:induction false} WeightsAgree(votes: seq<Vote>)
    ensures WeightsOf(votes) == WeightSum(votes)
  {
    if votes != [] {
      if |votes| == 1 {
        assert votes[..0] == [] && votes[1..] == [];
      } else {
        var mid := votes[1..|votes| - 1];
        assert votes[1..][..|votes| - 2] == mid && votes[..|votes| - 1][1..] == mid;
        WeightsAgree(votes[1..]);
        WeightsAgree(votes[..|votes| - 1]);
        WeightsAgree(mid);
      }
    }
  }

  /** A ballot that passed the weight check counts for no more than the voter's power. */
  lemma CastWithinPower(b: Ballot)
    requires WeightSum(b.votes) <= ONE
    ensures 0 <= Cast(b) <= b.power
  {
    EffectiveNonNegative(b.power, b.votes);
    EffectiveBound(b.power, b.votes);
    WeightsAgree(b.votes);
    MulMono(WeightSum(b.votes), ONE, b.power);
    assert WeightSum(b.votes) * b.power == b.power * WeightSum(b.votes);
    Unscale(Cast(b), b.power);
  }

  lemma Unscale(a: int, b: int)
    ensures a * ONE <= b * ONE ==> a <= b
  {
  }

  // ----- sums over the voters

  ghost function GivenMap(s: State, g: GaugeId, o: Name): map<(Addr, GaugeId), int> {
    map k | k in s.ballots && k.1 == g :: Given(s.ballots[k], o)
  }

  ghost function CastMap(s: State, g: GaugeId): map<(Addr, GaugeId), int> {
    map k | k in s.ballots && k.1 == g :: Cast(s.ballots[k])
  }

  ghost function PowerMap(s: State, g: GaugeId): map<(Addr, GaugeId), int> {
    map k | k in s.ballots && k.1 == g :: s.ballots[k].power
  }

  ghost predicate TallyIsBallots(s: State) {
    forall g: GaugeId, o: Name :: Get(s.tallies.tally, (g, o)) == Total(GivenMap(s, g, o))
  }

  ghost predicate TotalIsCast(s: State) {
    forall g: GaugeId :: Get(s.tallies.total, g) == Total(CastMap(s, g))
  }

  predicate Weighed(s: State) {
    forall k :: k in s.ballots ==> WeightSum(s.ballots[k].votes) <= ONE
  }

  /** The contract's books: index and totals agree, and all of them are the ballots added up. */
  ghost predicate Law(s: State) {
    Agrees(s.tallies) && TallyIsBallots(s) && TotalIsCast(s) && Weighed(s)
  }

  /** The total cast on a gauge is at most the summed power of its voters. */
  lemma TotalWithinPower(s: State, g: GaugeId)
    requires Law(s)
    ensures Get(s.tallies.total, g) <= Total(PowerMap(s, g))
  {
    forall k | k in s.ballots ensures Cast(s.ballots[k]) <= s.ballots[k].power {
      CastWithinPower(s.ballots[k]);
    }
    TotalMono(CastMap(s, g), PowerMap(s, g));
  }

  ghost predicate Writes(s: State, s1: State, k: (Addr, GaugeId), b: Ballot) {
    s1.ballots == s.ballots[k := b] || (s1.ballots == s.ballots - {k} && b == NO_BALLOT)
  }

  lemma GivenMapWritten(s: State, s1: State, k: (Addr, GaugeId), b: Ballot, g: GaugeId, o: Name)
    requires s1.ballots == s.ballots[k := b]
    ensures GivenMap(s1, g, o) == if k.1 == g then GivenMap(s, g, o)[k := Given(b, o)] else GivenMap(s, g, o)
  {
  }

  lemma GivenMapDropped(s: State, s1: State, k: (Addr, GaugeId), g: GaugeId, o: Name)
    requires s1.ballots == s.ballots - {k}
    ensures GivenMap(s1, g, o) == GivenMap(s, g, o) - {k}
  {
  }

  lemma CastMapWritten(s: State, s1: State, k: (Addr, GaugeId), b: Ballot, g: GaugeId)
    requires s1.ballots == s.ballots[k := b]
    ensures CastMap(s1, g) == if k.1 == g then CastMap(s, g)[k := Cast(b)] else CastMap(s, g)
  {
  }

  lemma CastMapDropped(s: State, s1: State, k: (Addr, GaugeId), g: GaugeId)
    requires s1.ballots == s.ballots - {k}
    ensures CastMap(s1, g) == CastMap(s, g) - {k}
  {
  }

  /** Writing or clearing one ballot moves each sum by that ballot's change. */
  lemma BallotWritten(s: State, s1: State, k: (Addr, GaugeId), b: Ballot, g: GaugeId, o: Name)
    requires Writes(s, s1, k, b)
    ensures Total(GivenMap(s1, g, o)) == Total(GivenMap(s, g, o))
              + if k.1 == g then Given(b, o) - Given(BallotOf(s, k.0, k.1), o) else 0
  {
    assert k == (k.0, k.1);
    NoVotesCount(0, o);
    if s1.ballots == s.ballots[k := b] {
      GivenMapWritten(s, s1, k, b, g, o);
      TotalUpdate(GivenMap(s, g, o), k, Given(b, o));
    } else {
      GivenMapDropped(s, s1, k, g, o);
      TotalDrop(GivenMap(s, g, o), k);
    }
  }

  lemma CastWritten(s: State, s1: State, k: (Addr, GaugeId), b: Ballot, g: GaugeId)
    requires Writes(s, s1, k, b)
    ensures Total(CastMap(s1, g)) == Total(CastMap(s, g))
              + if k.1 == g then Cast(b) - Cast(BallotOf(s, k.0, k.1)) else 0
  {
    assert k == (k.0, k.1);
    NoVotesCount(0, "");
    if s1.ballots == s.ballots[k := b] {
      CastMapWritten(s, s1, k, b, g);
      TotalUpdate(CastMap(s, g), k, Cast(b));
    } else {
      CastMapDropped(s, s1, k, g);
      TotalDrop(CastMap(s, g), k);
    }
  }

  // ----- voting

  /** The hash map of changes is the new ballot's points against the old one's, option by option. */
  lemma {:induction false} OldSideIs(power: nat, votes: seq<Vote>)
    ensures var d := OldSide(power, votes);
            && OldOf(d) == Effective(power, votes)
            && (forall o :: o in d ==> d[o].1 == 0)
            && Total(NewOf(d)) == 0
  {
    var d := OldSide(power, votes);
    if votes != [] {
      var before, v := votes[..|votes| - 1], votes[|votes| - 1];
      OldSideIs(power, before);
      assert OldOf(d) == OldOf(OldSide(power, before))[v.option := Points(power, v.weight)];
    }
    ZeroTotal(NewOf(d));
  }

  lemma {:induction false} DiffEntries(b: Ballot, power: nat, votes: seq<Vote>)
    ensures var d := Diff(b, power, votes);
            && (forall o :: o in d <==> o in Effective(b.power, b.votes) || o in Effective(power, votes))
            && (forall o :: o in d ==> d[o].0 == Given(b, o) && d[o].1 == Given(Ballot(power, votes), o))
  {
    if votes == [] {
      OldSideIs(b.power, b.votes);
      var d := OldSide(b.power, b.votes);
      forall o | o in d ensures d[o].0 == Given(b, o) {
        assert OldOf(d)[o] == d[o].0;
      }
      assert forall o :: o in d <==> o in OldOf(d);
    } else {
      DiffEntries(b, power, votes[..|votes| - 1]);
    }
  }

  lemma {:induction false} DiffSums(b: Ballot, power: nat, votes: seq<Vote>)
    ensures Total(OldOf(Diff(b, power, votes))) == Cast(b)
    ensures Total(NewOf(Diff(b, power, votes))) == Cast(Ballot(power, votes))
  {
    if votes == [] {
      OldSideIs(b.power, b.votes);
      assert Effective(power, votes) == map[];
    } else {
      var before, v := votes[..|votes| - 1], votes[|votes| - 1];
      DiffSums(b, power, before);
      DiffEntries(b, power, before);
      DiffStep(Diff(b, power, before), Effective(power, before), v.option, Points(power, v.weight));
    }
  }

  lemma DiffStep(d: map<Name, (nat, nat)>, e: map<Name, int>, o: Name, p: nat)
    requires At(NewOf(d), o) == At(e, o)
    ensures var d1 := d[o := (if o in d then d[o].0 else 0, p)];
            && Total(OldOf(d1)) == Total(OldOf(d))
            && Total(NewOf(d1)) - Total(NewOf(d)) == Total(e[o := p]) - Total(e)
  {
    var was := if o in d then d[o].0 else 0;
    var d1 := d[o := (was, p)];
    assert OldOf(d1) == OldOf(d)[o := was];
    assert NewOf(d1) == NewOf(d)[o := p];
    TotalUpdate(OldOf(d), o, was);
    TotalUpdate(NewOf(d), o, p);
    TotalUpdate(e, o, p);
  }

  /** An update that moves the tallies by what one ballot changes keeps the books. */
  lemma ChangeKeepsLaw(s: State, s1: State, voter: Addr, g: GaugeId, b1: Ballot, ups: seq<Update>)
    requires Law(s) && WeightSum(b1.votes) <= ONE
    requires UpdateTallies(s.tallies, g, ups) == Ok(s1.tallies)
    requires Writes(s, s1, (voter, g), b1)
    requires forall o: Name :: NetOf(ups, o) == Given(b1, o) - Given(BallotOf(s, voter, g), o)
    requires News(ups) - Olds(ups) == Cast(b1) - Cast(BallotOf(s, voter, g))
    ensures Law(s1)
  {
    UpdateAgrees(s.tallies, g, ups);
    forall h: GaugeId, o: Name ensures Get(s1.tallies.tally, (h, o)) == Total(GivenMap(s1, h, o)) {
      BallotWritten(s, s1, (voter, g), b1, h, o);
    }
    forall h: GaugeId ensures Get(s1.tallies.total, h) == Total(CastMap(s1, h)) {
      CastWritten(s, s1, (voter, g), b1, h);
    }
  }

  lemma UpdatesOf(t: Tallies, g: GaugeId, d: map<Name, (nat, nat)>) returns (ups: seq<Update>)
    ensures Lists(ups, d) && UpdateByDiff(t, g, d) == UpdateTallies(t, g, ups)
  {
    Listable(d);
    ups :| Lists(ups, d) && UpdateByDiff(t, g, d) == UpdateTallies(t, g, ups);
  }

  /** The changes of a vote are the new ballot's points against the old one's. */
  lemma VoteChanges(b: Ballot, power: nat, votes: seq<Vote>, ups: seq<Update>)
    requires Lists(ups, Diff(b, power, votes))
    ensures forall o: Name :: NetOf(ups, o) == Given(Ballot(power, votes), o) - Given(b, o)
    ensures News(ups) - Olds(ups) == Cast(Ballot(power, votes)) - Cast(b)
  {
    var d := Diff(b, power, votes);
    ListingSums(ups, d);
    DiffSums(b, power, votes);
    DiffEntries(b, power, votes);
    forall o: Name ensures NetOf(ups, o) == Given(Ballot(power, votes), o) - Given(b, o) {
      assert NetOf(ups, o) == DiffOf(d, o);
    }
  }

  lemma NoVotesCount(power: nat, o: Name)
    ensures Given(Ballot(power, []), o) == 0 && Cast(Ballot(power, [])) == 0
  {
    assert Effective(power, []) == map[];
  }

  /** A vote, any vote, with repeated options or not, keeps the books. */
  lemma RevoteKeepsLaw(s: State, voter: Addr, g: GaugeId, votes: seq<Vote>, power: nat)
    requires Law(s) && Revote(s, voter, g, votes, power).Ok?
    ensures Law(Revote(s, voter, g, votes, power).value)
  {
    var b := BallotOf(s, voter, g);
    var ups := UpdatesOf(s.tallies, g, Diff(b, power, votes));
    VoteChanges(b, power, votes, ups);
    var b1 := if votes == [] then NO_BALLOT else Ballot(power, votes);
    forall o: Name ensures Given(b1, o) == Given(Ballot(power, votes), o) && Cast(b1) == Cast(Ballot(power, votes)) {
      NoVotesCount(power, o);
      NoVotesCount(0, o);
    }
    assert Cast(b1) == Cast(Ballot(power, votes)) by {
      assert Given(b1, "") == Given(Ballot(power, votes), "");
    }
    ChangeKeepsLaw(s, Revote(s, voter, g, votes, power).value, voter, g, b1, ups);
  }
}
