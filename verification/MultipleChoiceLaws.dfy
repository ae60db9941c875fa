/**
 * Versions and ballots. A rollover during execution advances the version but does not save the
 * proposal; still every vote is added to powers that are the sums of the ballots of one version,
 * because such a proposal has to roll over again before anyone can vote.
 */
module MultipleChoiceLaws {
  import opened Prelude
  import opened Decimals
  import opened MapSums
  import opened Expirations
  import opened Apportionment
  import opened MultipleChoice

  ghost function BallotsOn(ballots: map<Key, Ballot>, version: nat, pool: Pool): map<Key, int> {
    map k | k in ballots && k.0 == version && k.2 == pool :: ballots[k].power
  }

  predicate DistinctPools(choices: seq<Choice>) {
    forall i, j :: 0 <= i < j < |choices| ==> choices[i].pool != choices[j].pool
  }

  /** Every choice's power is the sum of the ballots of this version for its pool. */
  ghost predicate InSync(choices: seq<Choice>, ballots: map<Key, Ballot>, version: nat) {
    forall i :: 0 <= i < |choices| ==> choices[i].power == Total(BallotsOn(ballots, version, choices[i].pool))
  }

  /** No vote can be added before the next rollover. */
  predicate Stuck(p: Proposal, b: Block) {
    MustRoll(CurrentStatus(p, b)) || p.status == Closed
  }

  predicate UpTo(ballots: map<Key, Ballot>, version: nat) {
    forall k :: k in ballots ==> k.0 <= version
  }

  ghost predicate Law(s: State, b: Block) {
    && DistinctPools(s.prop.choices)
    && UpTo(s.ballots, s.version)
    && Powers(s.prop.choices) <= s.prop.totalPower
    && (InSync(s.prop.choices, s.ballots, s.version) || Stuck(s.prop, b))
  }

  lemma TimePasses(s: State, b: Block, b1: Block)
    requires Law(s, b) && NotBefore(b, b1)
    ensures Law(s, b1)
  {
  }

  // ----- sums of choice powers

  lemma {:induction false} PowersUpdate(choices: seq<Choice>, i: nat, c: Choice)
    requires i < |choices|
    ensures Powers(choices[i := c]) == Powers(choices) - choices[i].power + c.power
  {
    var n := |choices| - 1;
    var new_ := choices[i := c];
    if i == n {
      assert new_[..n] == choices[..n];
    } else {
      PowersUpdate(choices[..n], i, c);
      assert new_[..n] == choices[..n][i := c];
    }
  }

  lemma {:induction false} PowersAppend(a: seq<Choice>, b: seq<Choice>)
    ensures Powers(a + b) == Powers(a) + Powers(b)
  {
    if b == [] {
      assert a + b == a;
    } else {
      PowersAppend(a, b[..|b| - 1]);
      assert (a + b)[..|a + b| - 1] == a + b[..|b| - 1];
    }
  }

  lemma {:induction false} ZeroPowers(choices: seq<Choice>)
    requires forall c :: c in choices ==> c.power == 0
    ensures Powers(choices) == 0
  {
    if choices != [] {
      ZeroPowers(choices[..|choices| - 1]);
    }
  }

  // ----- one ballot

  /** Writing one ballot moves the sum of its pool and version, and no other. */
  lemma BallotWritten(ballots: map<Key, Ballot>, key: Key, ballot: Ballot, version: nat, pool: Pool)
    ensures Total(BallotsOn(ballots[key := ballot], version, pool)) == Total(BallotsOn(ballots, version, pool))
              + if key.0 == version && key.2 == pool
                then ballot.power as int - (if key in ballots then ballots[key].power else 0)
                else 0
  {
    var m, m1 := BallotsOn(ballots, version, pool), BallotsOn(ballots[key := ballot], version, pool);
    if key.0 == version && key.2 == pool {
      assert m1 == m[key := ballot.power];
      TotalUpdate(m, key, ballot.power);
    } else {
      assert m1 == m;
    }
  }

  lemma BallotWithinSum(ballots: map<Key, Ballot>, key: Key)
    ensures (if key in ballots then ballots[key].power else 0) <= Total(BallotsOn(ballots, key.0, key.2))
  {
    EntryWithinTotal(BallotsOn(ballots, key.0, key.2), key);
  }

  lemma CastOneKeeps(p: Proposal, ballots: map<Key, Ballot>, version: nat, voter: Addr, power: nat, item: Share)
    requires DistinctPools(p.choices) && InSync(p.choices, ballots, version) && UpTo(ballots, version)
    requires CastOne(p, ballots, version, voter, power, item).Ok?
    ensures var (p1, ballots1) := CastOne(p, ballots, version, voter, power, item).value;
            && p1 == p.(choices := p1.choices, totalPower := p1.totalPower)
            && DistinctPools(p1.choices) && InSync(p1.choices, ballots1, version) && UpTo(ballots1, version)
            && Powers(p1.choices) - p1.totalPower == Powers(p.choices) - p.totalPower + Assigned(power, item.percentage)
  {
    var i := Position(p.choices, item.pool);
    var key := (version, voter, item.pool);
    var (p1, ballots1) := CastOne(p, ballots, version, voter, power, item).value;
    var given := Assigned(power, item.percentage);
    PowersUpdate(p.choices, i, p1.choices[i]);
    forall j | 0 <= j < |p1.choices| ensures p1.choices[j].power == Total(BallotsOn(ballots1, version, p1.choices[j].pool)) {
      BallotWritten(ballots, key, Ballot(given, item), version, p1.choices[j].pool);
    }
  }

  /** While powers are ballot sums, taking back an old ballot cannot underflow its choice. */
  lemma NoUnderflow(p: Proposal, ballots: map<Key, Ballot>, version: nat, voter: Addr, pool: Pool)
    requires InSync(p.choices, ballots, version) && Position(p.choices, pool) < |p.choices|
    ensures (version, voter, pool) in ballots ==>
      ballots[(version, voter, pool)].power <= p.choices[Position(p.choices, pool)].power
  {
    BallotWithinSum(ballots, (version, voter, pool));
  }

  function AssignedAll(power: nat, items: seq<Share>): nat {
    if items == [] then 0 else AssignedAll(power, items[..|items| - 1]) + Assigned(power, items[|items| - 1].percentage)
  }

  lemma {:induction false} AssignedBound(power: nat, items: seq<Share>)
    ensures AssignedAll(power, items) * 100 <= power * Percents(items)
  {
    if items != [] {
      var before, p := items[..|items| - 1], items[|items| - 1].percentage;
      AssignedBound(power, before);
      DivBounds(power * p, 100);
      assert power * (Percents(before) + p) == power * Percents(before) + power * p;
    }
  }

  lemma {:induction false} CastAllKeeps(p: Proposal, ballots: map<Key, Ballot>, version: nat, voter: Addr, power: nat, items: seq<Share>)
    requires DistinctPools(p.choices) && InSync(p.choices, ballots, version) && UpTo(ballots, version)
    requires CastAll(p, ballots, version, voter, power, items).Ok?
    ensures var (p1, ballots1) := CastAll(p, ballots, version, voter, power, items).value;
            && p1 == p.(choices := p1.choices, totalPower := p1.totalPower)
            && DistinctPools(p1.choices) && InSync(p1.choices, ballots1, version) && UpTo(ballots1, version)
            && Powers(p1.choices) - p1.totalPower == Powers(p.choices) - p.totalPower + AssignedAll(power, items)
  {
    if items != [] {
      CastAllKeeps(p, ballots, version, voter, power, items[..|items| - 1]);
      var (p0, ballots0) := CastAll(p, ballots, version, voter, power, items[..|items| - 1]).value;
      CastOneKeeps(p0, ballots0, version, voter, power, items[|items| - 1]);
    }
  }

  lemma CastVoteKeeps(s: State, b: Block, voter: Addr, power: nat, items: seq<Share>)
    requires DistinctPools(s.prop.choices) && InSync(s.prop.choices, s.ballots, s.version) && UpTo(s.ballots, s.version)
    requires Powers(s.prop.choices) <= s.prop.totalPower
    requires CastVote(s, b, voter, power, items).Ok?
    ensures var s1 := CastVote(s, b, voter, power, items).value;
            Law(s1, b) && InSync(s1.prop.choices, s1.ballots, s1.version)
  {
    CastAllKeeps(s.prop, s.ballots, s.version, voter, power, items);
    AssignedBound(power, items);
    MulMono(Percents(items), 100, power);
    assert Percents(items) * power == power * Percents(items);
  }

  // ----- rolling over

  /** A new version has no ballots yet. */
  lemma AdvancedIsEmpty(s: State, pool: Pool)
    requires UpTo(s.ballots, s.version) && Advance(s).Ok?
    ensures var s1 := Advance(s).value;
            s1.version == s.version + 1 && s1.prop == s.prop && s1.ballots == s.ballots
            && Total(BallotsOn(s1.ballots, s1.version, pool)) == 0
  {
  }

  /**
   * Whatever happened before, a vote that goes through is counted in powers that are, choice by
   * choice, the sums of the ballots of the version it is stored under.
   */
  lemma VoteLandsInOneVersion(s: State, b: Block, up: Upstream, voter: Addr, power: nat, items: seq<Share>)
    requires Law(s, b) && Vote(s, b, up, voter, power, items).Ok?
    ensures var s1 := Vote(s, b, up, voter, power, items).value;
            Law(s1, b) && InSync(s1.prop.choices, s1.ballots, s1.version)
  {
    if MustRoll(CurrentStatus(s.prop, b)) {
      var s0 := Advance(s).value;
      var p := Restarted(s.prop, up);
      forall i | 0 <= i < |p.choices| ensures p.choices[i].power == Total(BallotsOn(s0.ballots, s0.version, p.choices[i].pool)) {
        AdvancedIsEmpty(s, p.choices[i].pool);
      }
      AdvancedIsEmpty(s, "");
      ZeroPowers(p.choices);
      CastVoteKeeps(s0.(prop := p), b, voter, power, items);
    } else {
      CastVoteKeeps(s, b, voter, power, items);
    }
  }

  /** Executing and rejecting leave a proposal nobody can vote on until it rolls over. */
  lemma {:induction false} ExecuteKeeps(s: State, b: Block, up: Upstream, power: nat)
    requires Law(s, b)
    ensures Execute(s, b, up, power).Ok? ==> Law(Execute(s, b, up, power).value.0, b)
    ensures Reject(s, b, up, power).Ok? ==> Law(Reject(s, b, up, power).value, b)
  {
    if CurrentStatus(s.prop, b) == VotingClosed && up.expiration.Later(s.prop.expiration) && Advance(s).Ok? {
      AdvancedIsEmpty(s, "");
    }
  }

  // ----- changing the choices

  lemma {:induction false} WithoutMembers(choices: seq<Choice>, pools: seq<Pool>)
    ensures forall c :: c in Without(choices, pools) <==> c in choices && c.pool !in pools
  {
    if choices != [] {
      WithoutMembers(choices[..|choices| - 1], pools);
      assert choices == choices[..|choices| - 1] + [choices[|choices| - 1]];
    }
  }

  lemma {:induction false} WithoutPowers(choices: seq<Choice>, pools: seq<Pool>)
    ensures Powers(Without(choices, pools)) <= Powers(choices)
  {
    if choices != [] {
      var before, last := choices[..|choices| - 1], choices[|choices| - 1];
      WithoutPowers(before, pools);
      var r := Without(before, pools);
      assert (r + [last])[..|r|] == r;
      assert r + [] == r;
    }
  }

  lemma {:induction false} WithoutDistinct(choices: seq<Choice>, pools: seq<Pool>)
    requires DistinctPools(choices)
    ensures DistinctPools(Without(choices, pools))
  {
    if choices != [] {
      var before, last := choices[..|choices| - 1], choices[|choices| - 1];
      WithoutDistinct(before, pools);
      WithoutMembers(before, pools);
      var r := Without(before, pools);
      forall i | 0 <= i < |r| ensures r[i].pool != last.pool {
        assert r[i] in r;
      }
    }
  }

  lemma RemoveKeeps(s: State, b: Block, pools: seq<Pool>)
    requires Law(s, b)
    ensures Law(RemoveChoices(s, pools), b)
  {
    var choices := Without(s.prop.choices, pools);
    WithoutMembers(s.prop.choices, pools);
    WithoutPowers(s.prop.choices, pools);
    WithoutDistinct(s.prop.choices, pools);
    if InSync(s.prop.choices, s.ballots, s.version) {
      FewerInSync(s.prop.choices, choices, s.ballots, s.version);
    }
  }

  lemma FewerInSync(all: seq<Choice>, some: seq<Choice>, ballots: map<Key, Ballot>, version: nat)
    requires InSync(all, ballots, version) && forall c :: c in some ==> c in all
    ensures InSync(some, ballots, version)
  {
    forall i | 0 <= i < |some| ensures some[i].power == Total(BallotsOn(ballots, version, some[i].pool)) {
      assert some[i] in some;
      var j :| 0 <= j < |all| && all[j] == some[i];
    }
  }

  /** Each new pool once, and none with votes from before it was removed in this version. */
  ghost predicate Unused(s: State, pools: seq<Pool>) {
    && (forall i, j :: 0 <= i < j < |pools| ==> pools[i] != pools[j])
    && forall q :: q in pools ==> Total(BallotsOn(s.ballots, s.version, q)) == 0
  }

  lemma AddedInSync(old_: seq<Choice>, pools: seq<Pool>, ballots: map<Key, Ballot>, version: nat)
    requires InSync(old_, ballots, version)
    ensures InSync(old_ + NewChoices(pools), ballots, version)
       <==> forall q :: q in pools ==> Total(BallotsOn(ballots, version, q)) == 0
  {
    var all := old_ + NewChoices(pools);
    if forall q :: q in pools ==> Total(BallotsOn(ballots, version, q)) == 0 {
      forall i | 0 <= i < |all| ensures all[i].power == Total(BallotsOn(ballots, version, all[i].pool)) {
        if i >= |old_| {
          assert pools[i - |old_|] in pools;
        }
      }
    }
    if InSync(all, ballots, version) {
      forall q | q in pools ensures Total(BallotsOn(ballots, version, q)) == 0 {
        var i :| 0 <= i < |pools| && pools[i] == q;
        assert all[|old_| + i] == Choice(q, 0);
      }
    }
  }

  lemma NewPoolsDiffer(old_: seq<Choice>, pools: seq<Pool>)
    requires DistinctPools(old_ + NewChoices(pools))
    ensures forall i, j :: 0 <= i < j < |pools| ==> pools[i] != pools[j]
  {
    var all := old_ + NewChoices(pools);
    forall i, j | 0 <= i < j < |pools| ensures pools[i] != pools[j] {
      assert all[|old_| + i].pool == pools[i] && all[|old_| + j].pool == pools[j];
    }
  }

  lemma AddedPowers(s: State, up: Upstream, pools: seq<Pool>)
    requires AddChoices(s, up, pools).Ok?
    ensures Powers(s.prop.choices + NewChoices(pools)) == Powers(s.prop.choices)
    ensures forall i :: 0 <= i < |s.prop.choices| ==> s.prop.choices[i].pool !in pools
  {
    ZeroPowers(NewChoices(pools));
    PowersAppend(s.prop.choices, NewChoices(pools));
    forall i | 0 <= i < |s.prop.choices| ensures s.prop.choices[i].pool !in pools {
      PositionFirst(s.prop.choices, i);
    }
  }

  /** Adding choices keeps powers and ballots together exactly when no new pool has votes already. */
  lemma AddKeepsExactly(s: State, b: Block, up: Upstream, pools: seq<Pool>)
    requires Law(s, b) && !Stuck(s.prop, b) && AddChoices(s, up, pools).Ok?
    ensures Law(AddChoices(s, up, pools).value, b) <==> Unused(s, pools)
  {
    var s1 := AddChoices(s, up, pools).value;
    AddedPowers(s, up, pools);
    AddedInSync(s.prop.choices, pools, s.ballots, s.version);
    if Unused(s, pools) {
      AddedDistinct(s.prop.choices, pools);
    }
    if Law(s1, b) {
      NewPoolsDiffer(s.prop.choices, pools);
    }
  }

  lemma AddedDistinct(old_: seq<Choice>, pools: seq<Pool>)
    requires DistinctPools(old_) && forall i :: 0 <= i < |old_| ==> old_[i].pool !in pools
    requires forall i, j :: 0 <= i < j < |pools| ==> pools[i] != pools[j]
    ensures DistinctPools(old_ + NewChoices(pools))
  {
  }

  lemma {:induction false} PositionFirst(choices: seq<Choice>, i: nat)
    requires i < |choices|
    ensures Position(choices, choices[i].pool) <= i
  {
  }

  lemma AddKeeps(s: State, b: Block, up: Upstream, pools: seq<Pool>)
    requires Law(s, b) && Unused(s, pools) && AddChoices(s, up, pools).Ok?
    ensures Law(AddChoices(s, up, pools).value, b)
  {
    if !Stuck(s.prop, b) {
      AddKeepsExactly(s, b, up, pools);
    } else {
      AddedPowers(s, up, pools);
      AddedDistinct(s.prop.choices, pools);
    }
  }

  /** A pool removed and added again within a version: whoever had voted for it no longer can. */
  lemma ReaddedPoolLocks(s: State, b: Block, voter: Addr, power: nat, percentage: nat, pool: Pool)
    requires (s.version, voter, pool) in s.ballots && 0 < s.ballots[(s.version, voter, pool)].power
    requires Position(s.prop.choices, pool) < |s.prop.choices|
    requires s.prop.choices[Position(s.prop.choices, pool)].power == 0
    ensures CastVote(s, b, voter, power, [Share(pool, percentage)]).Err?
  {
    var item := Share(pool, percentage);
    assert [item][..0] == [];
    assert CastAll(s.prop, s.ballots, s.version, voter, power, []) == Ok((s.prop, s.ballots));
    assert CastOne(s.prop, s.ballots, s.version, voter, power, item).Err?;
  }

  // ----- runs

  datatype Call =
    | CallVote(up: Upstream, voter: Addr, power: nat, items: seq<Share>)
    | CallExecute(up: Upstream, power: nat)
    | CallReject(up: Upstream, power: nat)
    | CallClose
    | CallAdd(up: Upstream, pools: seq<Pool>)
    | CallRemove(pools: seq<Pool>)

  function Made(s: State, b: Block, c: Call): Result<State> {
    match c
    case CallVote(up, voter, power, items) => Vote(s, b, up, voter, power, items)
    case CallExecute(up, power) =>
      var (s1, _) :- Execute(s, b, up, power);
      Ok(s1)
    case CallReject(up, power) => Reject(s, b, up, power)
    case CallClose => Ok(Close(s))
    case CallAdd(up, pools) => AddChoices(s, up, pools)
    case CallRemove(pools) => Ok(RemoveChoices(s, pools))
  }

  datatype Event = At(b: Block, c: Call)

  function After(s: State, events: seq<Event>): State {
    if events == [] then s
    else
      var s1 := After(s, events[..|events| - 1]);
      var e := events[|events| - 1];
      match Made(s1, e.b, e.c) case Ok(s2) => s2 case Err => s1
  }

  function Now(start: Block, events: seq<Event>): Block {
    if events == [] then start else events[|events| - 1].b
  }

  /** Time does not go back, and no pool comes back within a version it has votes in. */
  ghost predicate OrderlyRun(s: State, start: Block, events: seq<Event>) {
    events == [] ||
      var before, e := events[..|events| - 1], events[|events| - 1];
      && OrderlyRun(s, start, before)
      && NotBefore(Now(start, before), e.b)
      && (e.c.CallAdd? ==> Unused(After(s, before), e.c.pools))
  }

  lemma CallKeeps(s: State, b: Block, c: Call)
    requires Law(s, b) && Made(s, b, c).Ok? && (c.CallAdd? ==> Unused(s, c.pools))
    ensures Law(Made(s, b, c).value, b)
  {
    match c
    case CallVote(up, voter, power, items) => VoteLandsInOneVersion(s, b, up, voter, power, items);
    case CallExecute(up, power) => ExecuteKeeps(s, b, up, power);
    case CallReject(up, power) => ExecuteKeeps(s, b, up, power);
    case CallClose =>
    case CallAdd(up, pools) => AddKeeps(s, b, up, pools);
    case CallRemove(pools) => RemoveKeeps(s, b, pools);
  }

  /** `execute_propose`: distinct pools, all at zero, first version. */
  ghost predicate Proposed(s: State) {
    && DistinctPools(s.prop.choices) && (forall c :: c in s.prop.choices ==> c.power == 0)
    && s.prop.totalPower == 0 && s.ballots == map[]
  }

  /** The law of versions and ballots holds in every state an orderly run reaches. */
  lemma {:induction false} VersionsStayApart(s: State, start: Block, events: seq<Event>)
    requires Proposed(s) && OrderlyRun(s, start, events)
    ensures Law(After(s, events), Now(start, events))
  {
    if events == [] {
      ZeroPowers(s.prop.choices);
      forall i | 0 <= i < |s.prop.choices| ensures s.prop.choices[i].power == Total(BallotsOn(s.ballots, s.version, s.prop.choices[i].pool)) {
        assert s.prop.choices[i] in s.prop.choices;
        assert BallotsOn(s.ballots, s.version, s.prop.choices[i].pool) == map[];
      }
    } else {
      var before, e := events[..|events| - 1], events[|events| - 1];
      VersionsStayApart(s, start, before);
      var s1 := After(s, before);
      TimePasses(s1, Now(start, before), e.b);
      if Made(s1, e.b, e.c).Ok? {
        CallKeeps(s1, e.b, e.c);
      }
    }
  }

  /** So whatever an execution sends upstream was apportioned from powers within the total. */
  lemma ExecutedListIsApportioned(s: State, start: Block, events: seq<Event>, b: Block, up: Upstream, power: nat)
    requires Proposed(s) && OrderlyRun(s, start, events)
    requires Execute(After(s, events), b, up, power).Ok?
    ensures var votes := Execute(After(s, events), b, up, power).value.1;
            votes != [] ==> Percents(votes) == 100 && |votes| == |After(s, events).prop.choices|
  {
    var p := After(s, events).prop;
    VersionsStayApart(s, start, events);
    if Execute(After(s, events), b, up, power).value.1 != [] {
      NonEmptyHasTotal(p);
      EmittedSumsToHundred(p.choices, p.totalPower);
      EmittedIsApportioned(p.choices, p.totalPower);
    }
  }

  lemma NonEmptyHasTotal(p: Proposal)
    requires ExecutionVotes(p.choices, p.totalPower).Ok? && ExecutionVotes(p.choices, p.totalPower).value != []
    ensures p.choices != [] && 0 < p.totalPower
  {
  }
}
