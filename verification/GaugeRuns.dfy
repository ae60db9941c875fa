/** Whole runs of the gauge contract: when calls abort, and what every reachable state keeps. */
module GaugeRuns {
  import opened Prelude
  import opened Decimals
  import opened MapSums
  import opened GaugeTally
  import opened GaugeSelection
  import opened GaugeVoting
  import opened GaugeBallots
  import opened GaugeHooks

  // ----- votes abort only for the reasons the contract checks

  /** Changes that take away no more than is there and add no more than fits cannot abort. */
  lemma UpdateFits(t: Tallies, g: GaugeId, ups: seq<Update>, d: map<Name, (nat, nat)>)
    requires Agrees(t) && Lists(ups, d)
    requires Get(t.total, g) + Total(NewOf(d)) < U128 && Total(OldOf(d)) <= Get(t.total, g)
    requires forall o :: o in d ==> d[o].0 <= Get(t.tally, (g, o))
    ensures UpdateTallies(t, g, ups).Ok?
  {
    TotalNonNegative(NewOf(d));
    forall o | o in d ensures d[o].0 <= Get(t.tally, (g, o)) + d[o].1 < U128 {
      EntryWithinTotal(NewOf(d), o);
      CountWithinTotal(t, g, o);
    }
    ListingFits(t, g, ups, d);
    ListingSums(ups, d);
    BumpAllEffect(t, g, ups);
  }

  lemma VoteFits(s: State, voter: Addr, g: GaugeId, votes: seq<Vote>, power: nat)
    requires Law(s) && Total(PowerMap(s, g)) + power < U128 && WeightSum(votes) <= ONE
    ensures UpdateByDiff(s.tallies, g, Diff(BallotOf(s, voter, g), power, votes)).Ok?
  {
    var b, d := BallotOf(s, voter, g), Diff(BallotOf(s, voter, g), power, votes);
    forall o | o in d ensures d[o].0 <= Get(s.tallies.tally, (g, o)) {
      DiffEntries(b, power, votes);
      BallotWithinSums(s, voter, g, o);
    }
    DiffSums(b, power, votes);
    BallotWithinSums(s, voter, g, "");
    CastWithinPower(Ballot(power, votes));
    TotalWithinPower(s, g);
    var ups := UpdatesOf(s.tallies, g, d);
    UpdateFits(s.tallies, g, ups, d);
  }

  /** While the gauge's summed power fits a `Uint128`, a vote is refused only by its own checks. */
  lemma RevoteNeverUnderflows(s: State, voter: Addr, g: GaugeId, votes: seq<Vote>, power: nat)
    requires Law(s) && Total(PowerMap(s, g)) + power < U128
    ensures Revote(s, voter, g, votes, power).Ok? <==>
      && WeightSum(votes) <= ONE && 0 < power && ((voter, g) in s.ballots || votes != [])
      && forall o :: o in Diff(BallotOf(s, voter, g), power, votes) ==>
           Given(BallotOf(s, voter, g), o) != 0 || (g, o) in s.tallies.tally
  {
    DiffEntries(BallotOf(s, voter, g), power, votes);
    if WeightSum(votes) <= ONE {
      VoteFits(s, voter, g, votes, power);
    }
  }

  /** An option removed while it has votes: its voters can no longer lower them. */
  lemma RemovedOptionLocks(s: State, voter: Addr, g: GaugeId, votes: seq<Vote>, power: nat, o: Name)
    requires Indexed(s.tallies) && (g, o) !in s.tallies.tally
    requires Given(Ballot(power, votes), o) < Given(BallotOf(s, voter, g), o)
    ensures Revote(s, voter, g, votes, power).Err?
  {
    var d := Diff(BallotOf(s, voter, g), power, votes);
    DiffEntries(BallotOf(s, voter, g), power, votes);
    EffectiveNonNegative(power, votes);
    assert o in d;
    var ups := UpdatesOf(s.tallies, g, d);
    ListingFits(s.tallies, g, ups, d);
  }

  // ----- runs

  datatype Call =
    | CallVote(now: nat, upstream: nat, voter: Addr, g: GaugeId, votes: seq<Vote>, power: nat)
    | CallMembers(sender: Addr, diffs: seq<MemberDiff>)
    | CallAdd(g: GaugeId, option: Name, check: bool)
    | CallRemove(sender: Addr, g: GaugeId, option: Name)
    | CallExecute(now: nat, upstream: nat, g: GaugeId)
    | CallAttach(g: GaugeId, gauge: Gauge)
    | CallConfigure(g: GaugeId, gauge: Gauge)

  /** Power changes are reported truthfully and only options without votes are removed. */
  ghost predicate Orderly(s: State, c: Call) {
    match c
    case CallMembers(sender, diffs) => DiffsCarry(s, sender, diffs)
    case CallRemove(_, g, option) => Get(s.tallies.tally, (g, option)) == 0
    case _ => true
  }

  ghost function Made(s: State, c: Call): Result<State> {
    match c
    case CallVote(now, upstream, voter, g, votes, power) => PlaceVotes(s, now, upstream, voter, g, votes, power)
    case CallMembers(sender, diffs) => MembersChanged(s, sender, diffs)
    case CallAdd(g, option, check) => AddOption(s, g, option, check)
    case CallRemove(sender, g, option) => RemoveOption(s, sender, g, option)
    case CallExecute(now, upstream, g) =>
      var (s1, _) :- Execute(s, now, upstream, g);
      Ok(s1)
    case CallAttach(g, gauge) =>
      if g in s.gauges then Err
      else Ok(s.(gauges := s.gauges[g := gauge], lastEpoch := s.lastEpoch[g := 0]))
    case CallConfigure(g, gauge) =>
      if g !in s.gauges then Err
      else Ok(s.(gauges := s.gauges[g := gauge]))
  }

  ghost function After(s: State, calls: seq<Call>): State {
    if calls == [] then s
    else
      var s1 := After(s, calls[..|calls| - 1]);
      match Made(s1, calls[|calls| - 1]) case Ok(s2) => s2 case Err => s1
  }

  ghost predicate OrderlyRun(s: State, calls: seq<Call>) {
    calls == [] ||
      (OrderlyRun(s, calls[..|calls| - 1]) && Orderly(After(s, calls[..|calls| - 1]), calls[|calls| - 1]))
  }

  lemma SameBooks(s: State, s1: State)
    requires Law(s) && s1.tallies == s.tallies && s1.ballots == s.ballots
    ensures Law(s1)
  {
  }

  lemma TalliesOnly(s: State, s1: State, g: GaugeId, option: Name)
    requires Law(s) && s1 == s.(tallies := s1.tallies) && Agrees(s1.tallies)
    requires forall h: GaugeId, o: Name :: Get(s1.tallies.tally, (h, o)) == Get(s.tallies.tally, (h, o))
    requires forall h: GaugeId :: Get(s1.tallies.total, h) == Get(s.tallies.total, h)
    ensures Law(s1)
  {
  }

  lemma EmptyUpdate(option: Name)
    ensures var ups := [Update(option, 0, 0)];
            News(ups) == 0 == Olds(ups) && forall o: Name :: NetOf(ups, o) == 0
  {
  }

  lemma AddKeepsLaw(s: State, g: GaugeId, option: Name, check: bool)
    requires Law(s) && AddOption(s, g, option, check).Ok?
    ensures Law(AddOption(s, g, option, check).value)
  {
    var u := Update(option, 0, 0);
    UpdateAgrees(s.tallies, g, [u]);
    EmptyUpdate(option);
    TalliesOnly(s, AddOption(s, g, option, check).value, g, option);
  }

  lemma RemoveKeepsBallots(s: State, sender: Addr, g: GaugeId, option: Name)
    requires Law(s) && RemoveOption(s, sender, g, option).Ok?
    ensures var s1 := RemoveOption(s, sender, g, option).value;
            && Agrees(s1.tallies) && s1 == s.(tallies := s1.tallies)
            && Get(s1.tallies.tally, (g, option)) == 0 && GivenMap(s1, g, option) == GivenMap(s, g, option)
            && Get(s.tallies.tally, (g, option)) == Total(GivenMap(s, g, option))
  {
    RemoveAgrees(s.tallies, g, option);
  }

  /** Removing an option keeps the books exactly when nobody's points go with it. */
  lemma RemoveKeepsLawExactly(s: State, sender: Addr, g: GaugeId, option: Name)
    requires Law(s) && RemoveOption(s, sender, g, option).Ok?
    ensures Law(RemoveOption(s, sender, g, option).value) <==> Get(s.tallies.tally, (g, option)) == 0
  {
    var s1 := RemoveOption(s, sender, g, option).value;
    RemoveKeepsBallots(s, sender, g, option);
    if Get(s.tallies.tally, (g, option)) == 0 {
      RemoveAgrees(s.tallies, g, option);
      TalliesOnly(s, s1, g, option);
    } else {
      assert Get(s1.tallies.tally, (g, option)) != Total(GivenMap(s1, g, option));
    }
  }

  lemma VoteKeepsLaw(s: State, now: nat, upstream: nat, voter: Addr, g: GaugeId, votes: seq<Vote>, power: nat)
    requires Law(s) && PlaceVotes(s, now, upstream, voter, g, votes, power).Ok?
    ensures Law(PlaceVotes(s, now, upstream, voter, g, votes, power).value)
  {
    var gauge := s.gauges[g];
    if gauge.nextEpoch < now < upstream {
      var s1 := RollEpoch(s, g, gauge, upstream, SelectedVotes(s, g, gauge).value, false).value;
      SameBooks(s, s1);
      RevoteKeepsLaw(s1, voter, g, votes, power);
    } else {
      RevoteKeepsLaw(s, voter, g, votes, power);
    }
  }

  lemma CallKeepsLaw(s: State, c: Call)
    requires Law(s) && Orderly(s, c) && Made(s, c).Ok?
    ensures Law(Made(s, c).value)
  {
    match c
    case CallVote(now, upstream, voter, g, votes, power) => VoteKeepsLaw(s, now, upstream, voter, g, votes, power);
    case CallMembers(sender, diffs) => MembersChangedKeepsLaw(s, sender, diffs);
    case CallAdd(g, option, check) => AddKeepsLaw(s, g, option, check);
    case CallRemove(sender, g, option) => RemoveKeepsLawExactly(s, sender, g, option);
    case CallExecute(_, _, _) => SameBooks(s, Made(s, c).value);
    case CallAttach(_, _) => SameBooks(s, Made(s, c).value);
    case CallConfigure(_, _) => SameBooks(s, Made(s, c).value);
  }

  // ----- what holds of every run, orderly or not

  lemma {:induction false} MembersChangedAgrees(s: State, sender: Addr, diffs: seq<MemberDiff>)
    requires Agrees(s.tallies) && MembersChanged(s, sender, diffs).Ok?
    ensures var s1 := MembersChanged(s, sender, diffs).value;
            Agrees(s1.tallies) && s1.gauges == s.gauges && s1.ballots.Keys == s.ballots.Keys
  {
    if diffs != [] {
      var before, d := diffs[..|diffs| - 1], diffs[|diffs| - 1];
      MembersChangedAgrees(s, sender, before);
      var s1 := MembersChanged(s, sender, before).value;
      ReweighAllAgrees(s1, d.key, Reached(s1, d.key), d.Before(), d.After());
    }
  }

  lemma RevoteAgrees(s: State, voter: Addr, g: GaugeId, votes: seq<Vote>, power: nat)
    requires Agrees(s.tallies) && Revote(s, voter, g, votes, power).Ok?
    ensures var s1 := Revote(s, voter, g, votes, power).value;
            Agrees(s1.tallies) && s1.gauges == s.gauges && forall k :: k in s1.ballots ==> k in s.ballots || k == (voter, g)
  {
    var ups := UpdatesOf(s.tallies, g, Diff(BallotOf(s, voter, g), power, votes));
    UpdateAgrees(s.tallies, g, ups);
  }

  lemma VoteAgrees(s: State, now: nat, upstream: nat, voter: Addr, g: GaugeId, votes: seq<Vote>, power: nat)
    requires Agrees(s.tallies) && OnGauges(s) && PlaceVotes(s, now, upstream, voter, g, votes, power).Ok?
    ensures var s1 := PlaceVotes(s, now, upstream, voter, g, votes, power).value; Agrees(s1.tallies) && OnGauges(s1)
  {
    var gauge := s.gauges[g];
    var s0 := if gauge.nextEpoch < now < upstream
      then RollEpoch(s, g, gauge, upstream, SelectedVotes(s, g, gauge).value, false).value else s;
    RevoteAgrees(s0, voter, g, votes, power);
  }

  /** Gauges are never removed, and voting needs one. */
  lemma CallAgrees(s: State, c: Call)
    requires Agrees(s.tallies) && OnGauges(s) && Made(s, c).Ok?
    ensures Agrees(Made(s, c).value.tallies) && OnGauges(Made(s, c).value)
  {
    match c
    case CallVote(now, upstream, voter, g, votes, power) => VoteAgrees(s, now, upstream, voter, g, votes, power);
    case CallMembers(sender, diffs) => MembersChangedAgrees(s, sender, diffs);
    case CallAdd(g, option, _) => UpdateAgrees(s.tallies, g, [Update(option, 0, 0)]);
    case CallRemove(_, g, option) => RemoveAgrees(s.tallies, g, option);
    case CallExecute(_, _, _) =>
    case CallAttach(_, _) =>
    case CallConfigure(_, _) =>
  }

  lemma NoTalliesAgree()
    ensures Agrees(NO_TALLIES)
  {
    forall g: GaugeId ensures OfGauge(NO_TALLIES.tally, g) == map[] {
    }
  }

  /**
   * After any calls whatsoever - untruthful power changes, repeated options, options removed with
   * their votes - the index holds exactly one entry per option and the totals are the tally summed.
   */
  lemma {:induction false} IndexAlwaysAgrees(s: State, calls: seq<Call>)
    requires s.tallies == NO_TALLIES && s.ballots == map[]
    ensures Agrees(After(s, calls).tallies) && OnGauges(After(s, calls))
  {
    if calls == [] {
      NoTalliesAgree();
    } else {
      IndexAlwaysAgrees(s, calls[..|calls| - 1]);
      var s0, c := After(s, calls[..|calls| - 1]), calls[|calls| - 1];
      if Made(s0, c).Ok? {
        CallAgrees(s0, c);
      }
    }
  }

  // ----- what orderly runs keep

  /**
   * In every state an orderly run reaches, each tally is the sum of the ballots, the index and the
   * totals agree with it, and no gauge has more cast than its voters have power.
   */
  lemma {:induction false} TallyFollowsBallots(s: State, calls: seq<Call>)
    requires s.tallies == NO_TALLIES && s.ballots == map[] && OrderlyRun(s, calls)
    ensures var s1 := After(s, calls);
            Law(s1) && forall g: GaugeId :: Get(s1.tallies.total, g) <= Total(PowerMap(s1, g))
  {
    if calls == [] {
      NoTalliesAgree();
      forall g: GaugeId, o: Name ensures GivenMap(s, g, o) == map[] && CastMap(s, g) == map[] {
      }
    } else {
      TallyFollowsBallots(s, calls[..|calls| - 1]);
      var s0, c := After(s, calls[..|calls| - 1]), calls[|calls| - 1];
      if Made(s0, c).Ok? {
        CallKeepsLaw(s0, c);
      }
    }
    forall g: GaugeId ensures Get(After(s, calls).tallies.total, g) <= Total(PowerMap(After(s, calls), g)) {
      TotalWithinPower(After(s, calls), g);
    }
  }

  /** After any orderly run, truthful changes of power to ballots without repetitions go through. */
  lemma TruthfulHookGoesThrough(s: State, calls: seq<Call>, diffs: seq<MemberDiff>)
    requires s.tallies == NO_TALLIES && s.ballots == map[] && OrderlyRun(s, calls)
    requires var s1 := After(s, calls); DiffsCarry(s1, s1.votingPowers, diffs) && Room(s1, Afters(diffs))
    ensures Made(After(s, calls), CallMembers(After(s, calls).votingPowers, diffs)).Ok?
  {
    var s1 := After(s, calls);
    TallyFollowsBallots(s, calls);
    IndexAlwaysAgrees(s, calls);
    HookNeverAborts(s1, s1.votingPowers, diffs, 0);
  }

  // ----- runs that go wrong

  lemma FirstOption(g: GaugeId, option: Name)
    ensures UpdateTallies(NO_TALLIES, g, [Update(option, 0, 0)]) == Ok(Tallies(map[(g, option) := 0], map[g := 0], {(g, 0, option)}))
  {
    var ups, t := [Update(option, 0, 0)], NO_TALLIES;
    var t1 := t.(tally := map[(g, option) := 0], index := {(g, 0, option)});
    assert ups[..0] == [];
    assert t.tally[(g, option) := 0] == map[(g, option) := 0] && {} + {(g, 0, option)} == t1.index;
    assert Bump(t, g, ups[0]) == Ok(t1);
    assert BumpAll(t, g, ups[..0]) == Ok((t, 0, 0));
    assert t1.total[g := 0] == map[g := 0];
  }

  lemma SingleTotal<K>(k: K, n: int)
    ensures Total(map[k := n]) == n
  {
    TotalUpdate(map[], k, n);
    assert map[][k := n] == map[k := n];
  }

  /** A first vote, on one listed option, counts what the ballot is worth. */
  lemma FirstVoteFits(s: State, voter: Addr, g: GaugeId, votes: seq<Vote>, power: nat, o: Name)
    requires Law(s) && s.ballots == map[] && (g, o) in s.tallies.tally
    requires WeightSum(votes) <= ONE && votes != [] && 0 < power < U128 && Effective(power, votes).Keys == {o}
    ensures Revote(s, voter, g, votes, power).Ok?
  {
    assert PowerMap(s, g) == map[];
    DiffEntries(NO_BALLOT, power, votes);
    assert Effective(0, []) == map[];
    RevoteNeverUnderflows(s, voter, g, votes, power);
  }

  /** The voter's is the only ballot. */
  ghost predicate SoleBallot(s: State, voter: Addr, g: GaugeId, b: Ballot) {
    Law(s) && s.ballots == map[(voter, g) := b]
  }

  lemma SoleTally(s: State, voter: Addr, g: GaugeId, b: Ballot, o: Name)
    requires SoleBallot(s, voter, g, b)
    ensures Get(s.tallies.tally, (g, o)) == Given(b, o)
  {
    assert GivenMap(s, g, o) == map[(voter, g) := Given(b, o)];
    SingleTotal((voter, g), Given(b, o));
  }

  lemma SolePower(s: State, voter: Addr, g: GaugeId, b: Ballot)
    requires s.ballots == map[(voter, g) := b]
    ensures Total(PowerMap(s, g)) == b.power
  {
    assert PowerMap(s, g) == map[(voter, g) := b.power];
    SingleTotal((voter, g), b.power);
  }

  lemma SoleTotal(s: State, voter: Addr, g: GaugeId, b: Ballot)
    requires SoleBallot(s, voter, g, b)
    ensures Get(s.tallies.total, g) <= b.power && WeightSum(b.votes) <= ONE
  {
    assert (voter, g) in s.ballots;
    TotalWithinPower(s, g);
    SolePower(s, voter, g, b);
  }

  lemma SoleReached(s: State, voter: Addr, g: GaugeId, b: Ballot)
    requires SoleBallot(s, voter, g, b)
    ensures Reached(s, voter) == [g]
  {
    assert (voter, g) in s.ballots;
    assert GaugesOf(s, voter) == {g};
    AscendingIs(GaugesOf(s, voter));
    assert Ascending(GaugesOf(s, voter))[0] in Ascending(GaugesOf(s, voter));
  }

  lemma OneGauge(s: State, voter: Addr, g: GaugeId, before: nat, after: nat)
    requires (voter, g) in s.ballots
    ensures ReweighAll(s, voter, [g], before, after) == Reweigh(s, voter, g, before, after)
  {
    assert [g][..0] == [];
  }

  lemma OneDiff(s: State, d: MemberDiff)
    ensures MembersChanged(s, s.votingPowers, [d]) == MemberChanged(s, d)
  {
    assert [d][..0] == [];
  }

  /** A sole voter's change of power goes through exactly when the replaced listings hide little. */
  lemma SoleHookExactly(s: State, voter: Addr, g: GaugeId, b: Ballot, d: MemberDiff)
    requires SoleBallot(s, voter, g, b) && g in s.gauges
    requires d.key == voter && d.Before() == b.power && b.power + d.After() < U128
    ensures Made(s, CallMembers(s.votingPowers, [d])).Ok? <==> HidesLittle(b.votes, b.power, d.After())
  {
    OneDiff(s, d);
    SoleReached(s, voter, g, b);
    OneGauge(s, voter, g, b.power, d.After());
    forall o: Name ensures Get(s.tallies.tally, (g, o)) == Given(b, o) {
      SoleTally(s, voter, g, b, o);
    }
    SoleTotal(s, voter, g, b);
    SoleVoterBearsExactly(s, voter, g, d.After());
    ReweighingFitsExactly(s.tallies, g, b.votes, b.power, d.After());
  }

  const OPEN := Gauge(None, 10, None, false, 50, 100, 10, None)
  const FRESH := State(0, 1, map[], NO_TALLIES, map[], map[], map[])
  const HALF := Vote("a", ONE / 2)

  /** A gauge with one option, and voter 7 with ten votes listing it. */
  function Opening(votes: seq<Vote>): seq<Call> {
    [CallAttach(0, OPEN), CallAdd(0, "a", true), CallVote(0, 0, 7, 0, votes, 10)]
  }

  lemma TwiceCounts(votes: seq<Vote>)
    requires votes == [HALF, HALF]
    ensures WeightSum(votes) == ONE && Effective(10, votes) == map["a" := 5]
    ensures Superseded(10, votes, "a") == 5 && Listed(0, votes, "a") == 0
  {
    var one := [HALF];
    assert votes[1..] == one && one[1..] == [] && votes[..1] == one && one[..0] == [];
    assert Points(10, ONE / 2) == 5 && Points(0, ONE / 2) == 0;
    assert WeightSum(one) == ONE / 2;
    assert Effective(10, one) == map["a" := 5];
    assert Effective(10, []) == map[] && Given(Ballot(10, []), "a") == 0;
    assert Listed(0, one, "a") == 0 && Superseded(10, one, "a") == 0;
    assert Given(Ballot(10, one), "a") == 5;
  }

  lemma OptionListed(calls: seq<Call>, votes: seq<Vote>)
    requires calls == Opening(votes)[..2]
    ensures OrderlyRun(FRESH, calls)
    ensures After(FRESH, calls) ==
      FRESH.(gauges := map[0 := OPEN], lastEpoch := map[0 := 0], tallies := Tallies(map[(0, "a") := 0], map[0 := 0], {(0, 0, "a")}))
  {
    var s1 := FRESH.(gauges := map[0 := OPEN], lastEpoch := map[0 := 0]);
    assert calls[..1][..0] == [] && calls[..1][0] == CallAttach(0, OPEN);
    assert OrderlyRun(FRESH, calls[..1][..0]);
    assert OrderlyRun(FRESH, calls[..1]);
    assert After(FRESH, calls[..1]) == s1;
    FirstOption(0, "a");
  }

  /** The run in which voter 7 lists the option twice: five points for ten votes. */
  lemma VotedTwice(votes: seq<Vote>)
    requires votes == [HALF, HALF]
    ensures OrderlyRun(FRESH, Opening(votes))
    ensures var s := After(FRESH, Opening(votes));
            && SoleBallot(s, 7, 0, Ballot(10, votes)) && 0 in s.gauges && s.votingPowers == 1 && s.owner == 0
  {
    var calls := Opening(votes);
    OptionListed(calls[..2], votes);
    TwiceCounts(votes);
    TallyFollowsBallots(FRESH, calls[..2]);
    FirstVoteFits(After(FRESH, calls[..2]), 7, 0, votes, 10, "a");
    assert Orderly(After(FRESH, calls[..2]), calls[2]);
    TallyFollowsBallots(FRESH, calls);
  }

  /** A member who listed an option twice cannot leave: the hook aborts on the truthful change. */
  lemma LeavingAborts(votes: seq<Vote>, leaves: MemberDiff)
    requires votes == [HALF, HALF] && leaves == MemberDiff(7, Some(10), None)
    ensures OrderlyRun(FRESH, Opening(votes))
    ensures Made(After(FRESH, Opening(votes)), CallMembers(1, [leaves])).Err?
  {
    VotedTwice(votes);
    TwiceCounts(votes);
    SoleHookExactly(After(FRESH, Opening(votes)), 7, 0, Ballot(10, votes), leaves);
    assert Superseded(10, votes, "a") > Listed(0, votes, "a");
  }

  lemma RemovalFails(s: State, s1: State, voter: Addr, g: GaugeId, b: Ballot, o: Name)
    requires SoleBallot(s, voter, g, b) && 0 < Given(b, o)
    requires RemoveOption(s, s.owner, g, o) == Ok(s1)
    ensures (g, o) !in s1.tallies.tally && s1.gauges == s.gauges && s1.ballots == s.ballots
    ensures Revote(s1, voter, g, [], b.power).Err?
  {
    RemoveAgrees(s.tallies, g, o);
    assert Effective(b.power, []) == map[];
    RemovedOptionLocks(s1, voter, g, [], b.power, o);
  }

  lemma RemovalWorks(s: State, voter: Addr, g: GaugeId, b: Ballot, o: Name)
    requires SoleBallot(s, voter, g, b) && 0 < Given(b, o)
    ensures RemoveOption(s, s.owner, g, o).Ok?
  {
    SoleTally(s, voter, g, b, o);
    RemoveAgrees(s.tallies, g, o);
  }

  /** The owner removes an option that has votes; its voter can no longer withdraw them. */
  lemma RemovalLocksVoter(votes: seq<Vote>, remove: Call, withdraw: Call)
    requires votes == [HALF, HALF] && remove == CallRemove(0, 0, "a") && withdraw == CallVote(0, 0, 7, 0, [], 10)
    ensures var s := After(FRESH, Opening(votes) + [remove]);
            (0, "a") !in s.tallies.tally && (7, 0) in s.ballots && Made(s, withdraw).Err?
  {
    var s, calls := After(FRESH, Opening(votes)), Opening(votes) + [remove];
    assert calls[..|calls| - 1] == Opening(votes) && calls[|calls| - 1] == remove;
    VotedTwice(votes);
    TwiceCounts(votes);
    RemovalWorks(s, 7, 0, Ballot(10, votes), remove.option);
    var s1 := RemoveOption(s, s.owner, 0, remove.option).value;
    RemovalFails(s, s1, 7, 0, Ballot(10, votes), remove.option);
    assert After(FRESH, calls) == s1;
    VoteFails(s1, withdraw);
  }

  lemma VoteFails(s: State, c: Call)
    requires c.CallVote? && Revote(s, c.voter, c.g, c.votes, c.power).Err?
    requires c.g in s.gauges && c.now <= s.gauges[c.g].nextEpoch
    ensures Made(s, c).Err?
  {
  }

  // ----- executing

  /** What `execute` sends: nothing, or weights that add to one but for less than a unit per option. */
  lemma ExecutedWeights(s: State, now: nat, upstream: nat, g: GaugeId)
    requires Execute(s, now, upstream, g).Ok?
    ensures var votes := Execute(s, now, upstream, g).value.1;
            votes != [] ==> ONE - |votes| < WeightSum(votes) <= ONE
  {
    var selected := SelectedSet(s.tallies, g, s.gauges[g]).value;
    NormaliseAborts(selected);
    if selected != [] {
      ZeroSum(selected);
      WeightsNearOne(selected);
      NormalisedSum(selected, PowerSum(selected));
    }
  }

  /** A winner's power is cut to nothing exactly when the cap is below one vote of the total. */
  lemma CutToNothing(gauge: Gauge, total: nat, power: nat)
    requires 0 < total
    ensures Capped(gauge, total, power) == 0 <==>
      power == 0 || (gauge.maxPercent.Some? && gauge.maxPercent.value < Ratio(power, total) && total * gauge.maxPercent.value < ONE)
  {
    if gauge.maxPercent.Some? {
      DivBounds(total * gauge.maxPercent.value, ONE);
    }
    if power == 0 {
      DivUnique(0, total, 0);
    }
  }

  /**
   * A pending gauge that is not stopped executes unless its winners are all cut to nothing:
   * the normalisation then divides by zero and the call aborts.
   */
  lemma ExecuteAbortsExactly(s: State, now: nat, upstream: nat, g: GaugeId)
    requires g in s.gauges && !s.gauges[g].isStopped && Pending(s.gauges[g], now, upstream) == Ok(true)
    requires g in s.tallies.total && g in s.lastEpoch && s.lastEpoch[g] + 1 < U128
    ensures var gauge, total := s.gauges[g], Get(s.tallies.total, g);
            Execute(s, now, upstream, g).Err? <==>
              && 0 < total && Winners(s.tallies, g, gauge) != []
              && forall e :: e in Winners(s.tallies, g, gauge) ==> Capped(gauge, total, e.0) == 0
  {
    var gauge, total := s.gauges[g], Get(s.tallies.total, g);
    var selected := SelectedSet(s.tallies, g, gauge).value;
    NormaliseAborts(selected);
    if 0 < total {
      var w := Winners(s.tallies, g, gauge);
      assert |selected| == |w|;
      if forall e :: e in w ==> Capped(gauge, total, e.0) == 0 {
        forall x | x in selected ensures x.1 == 0 {
          var i :| 0 <= i < |selected| && selected[i] == x;
          assert w[i] in w;
        }
      }
      if forall x :: x in selected ==> x.1 == 0 {
        forall e | e in w ensures Capped(gauge, total, e.0) == 0 {
          var i :| 0 <= i < |w| && w[i] == e;
          assert selected[i] in selected;
        }
      }
    }
  }
}
