/**
 * Exactly when a vote goes through. The proposal's total power is raised once, after the loop over
 * the choices, so the loop can take more out of it than it holds - but only when a vote names a
 * pool twice.
 */
module MultipleChoiceVotes {
  import opened Prelude
  import opened Decimals
  import opened MapSums
  import opened Expirations
  import opened Apportionment
  import opened MultipleChoice
  import opened MultipleChoiceLaws

  // ----- what the loop finds and takes

  function Stored(ballots: map<Key, Ballot>, key: Key): Option<Ballot> {
    if key in ballots then Some(ballots[key]) else None
  }

  /** The voter's ballot for a pool once these items are cast: the last item for it, or the one stored before. */
  function Current(s: State, voter: Addr, power: nat, items: seq<Share>, pool: Pool): Option<Ballot> {
    if items == [] then Stored(s.ballots, (s.version, voter, pool))
    else
      var last := items[|items| - 1];
      if last.pool == pool then Some(Ballot(Assigned(power, last.percentage), last))
      else Current(s, voter, power, items[..|items| - 1], pool)
  }

  function PowerOf(b: Option<Ballot>): nat {
    if b.Some? then b.value.power else 0
  }

  /** The power of all ballots that casting these items replaces, one after the other. */
  function Taken(s: State, voter: Addr, power: nat, items: seq<Share>): nat {
    if items == [] then 0
    else
      var before, last := items[..|items| - 1], items[|items| - 1];
      Taken(s, voter, power, before) + PowerOf(Current(s, voter, power, before, last.pool))
  }

  /** Where re-voting is on, a ballot may not be cast again unchanged. */
  predicate SaysNew(p: Proposal, was: Option<Ballot>, item: Share) {
    !(p.allowRevoting && was.Some? && was.value.vote == item)
  }

  /** Every item names a choice and, where re-voting is on, says something new. */
  predicate Sayable(s: State, voter: Addr, power: nat, items: seq<Share>) {
    items == [] ||
      var before, last := items[..|items| - 1], items[|items| - 1];
      && Sayable(s, voter, power, before)
      && Position(s.prop.choices, last.pool) < |s.prop.choices|
      && SaysNew(s.prop, Current(s, voter, power, before, last.pool), last)
  }

  /** The proposal is in step with its ballots and leaves room for one more voter of this power. */
  ghost predicate InStep(s: State, power: nat) {
    && DistinctPools(s.prop.choices) && InSync(s.prop.choices, s.ballots, s.version) && UpTo(s.ballots, s.version)
    && Powers(s.prop.choices) <= s.prop.totalPower && s.prop.totalPower + power < U128
  }

  // ----- the loop

  predicate SamePools(a: seq<Choice>, b: seq<Choice>) {
    |a| == |b| && forall i :: 0 <= i < |a| ==> a[i].pool == b[i].pool
  }

  lemma {:induction false} SamePositions(a: seq<Choice>, b: seq<Choice>, pool: Pool)
    requires SamePools(a, b)
    ensures Position(a, pool) == Position(b, pool)
  {
    if a != [] && a[0].pool != pool {
      SamePositions(a[1..], b[1..], pool);
    }
  }

  lemma {:induction false} ChoiceWithinPowers(choices: seq<Choice>, i: nat)
    requires i < |choices|
    ensures choices[i].power <= Powers(choices)
  {
    PowerWithinSum(choices);
    assert choices[i] in choices;
  }

  /** What the loop has done after casting `items`. */
  ghost predicate CastSoFar(s: State, voter: Addr, power: nat, items: seq<Share>, p: Proposal, ballots: map<Key, Ballot>) {
    && p == s.prop.(choices := p.choices, totalPower := p.totalPower)
    && SamePools(p.choices, s.prop.choices)
    && DistinctPools(p.choices) && InSync(p.choices, ballots, s.version) && UpTo(ballots, s.version)
    && p.totalPower == s.prop.totalPower - Taken(s, voter, power, items)
    && Powers(p.choices) == Powers(s.prop.choices) - Taken(s, voter, power, items) + AssignedAll(power, items)
    && forall pool :: Stored(ballots, (s.version, voter, pool)) == Current(s, voter, power, items, pool)
  }

  lemma CastOneMoves(p: Proposal, ballots: map<Key, Ballot>, version: nat, voter: Addr, power: nat, item: Share)
    requires CastOne(p, ballots, version, voter, power, item).Ok?
    ensures var (p1, ballots1) := CastOne(p, ballots, version, voter, power, item).value;
            && SamePools(p1.choices, p.choices)
            && p1.totalPower == p.totalPower - PowerOf(Stored(ballots, (version, voter, item.pool)))
            && ballots1 == ballots[(version, voter, item.pool) := Ballot(Assigned(power, item.percentage), item)]
  {
  }

  lemma CastOneSteps(s: State, voter: Addr, power: nat, items: seq<Share>, p: Proposal, ballots: map<Key, Ballot>)
    requires items != [] && CastSoFar(s, voter, power, items[..|items| - 1], p, ballots)
    requires CastOne(p, ballots, s.version, voter, power, items[|items| - 1]).Ok?
    ensures var (p1, ballots1) := CastOne(p, ballots, s.version, voter, power, items[|items| - 1]).value;
            CastSoFar(s, voter, power, items, p1, ballots1)
  {
    var item := items[|items| - 1];
    CastOneKeeps(p, ballots, s.version, voter, power, item);
    CastOneMoves(p, ballots, s.version, voter, power, item);
    var (p1, ballots1) := CastOne(p, ballots, s.version, voter, power, item).value;
    CurrentAfter(s, voter, power, items, ballots, ballots1);
    assert Stored(ballots, (s.version, voter, item.pool)) == Current(s, voter, power, items[..|items| - 1], item.pool);
  }

  lemma CurrentAfter(s: State, voter: Addr, power: nat, items: seq<Share>, ballots: map<Key, Ballot>, ballots1: map<Key, Ballot>)
    requires items != []
    requires forall pool :: Stored(ballots, (s.version, voter, pool)) == Current(s, voter, power, items[..|items| - 1], pool)
    requires var item := items[|items| - 1];
             ballots1 == ballots[(s.version, voter, item.pool) := Ballot(Assigned(power, item.percentage), item)]
    ensures forall pool :: Stored(ballots1, (s.version, voter, pool)) == Current(s, voter, power, items, pool)
  {
    forall pool ensures Stored(ballots1, (s.version, voter, pool)) == Current(s, voter, power, items, pool) {
      assert Stored(ballots, (s.version, voter, pool)) == Current(s, voter, power, items[..|items| - 1], pool);
    }
  }

  lemma CastOneFits(p: Proposal, ballots: map<Key, Ballot>, version: nat, voter: Addr, power: nat, item: Share)
    requires InSync(p.choices, ballots, version)
    requires Powers(p.choices) + Assigned(power, item.percentage) < U128
    ensures var was := Stored(ballots, (version, voter, item.pool));
            CastOne(p, ballots, version, voter, power, item).Ok? <==>
              Position(p.choices, item.pool) < |p.choices| && SaysNew(p, was, item) && PowerOf(was) <= p.totalPower
  {
    var i := Position(p.choices, item.pool);
    if i < |p.choices| {
      NoUnderflow(p, ballots, version, voter, item.pool);
      ChoiceWithinPowers(p.choices, i);
    }
  }

  /** An item fails for being unsayable or for taking more than the total still holds - nothing else. */
  lemma CastOneExactly(s: State, voter: Addr, power: nat, items: seq<Share>, p: Proposal, ballots: map<Key, Ballot>)
    requires InStep(s, power) && Percents(items) <= 100
    requires items != [] && Sayable(s, voter, power, items[..|items| - 1])
    requires CastSoFar(s, voter, power, items[..|items| - 1], p, ballots)
    ensures CastOne(p, ballots, s.version, voter, power, items[|items| - 1]).Ok?
       <==> Sayable(s, voter, power, items) && Taken(s, voter, power, items) <= s.prop.totalPower
  {
    var item := items[|items| - 1];
    SamePositions(p.choices, s.prop.choices, item.pool);
    assert Stored(ballots, (s.version, voter, item.pool)) == Current(s, voter, power, items[..|items| - 1], item.pool);
    AssignedWithin(power, items);
    CastOneFits(p, ballots, s.version, voter, power, item);
  }

  lemma AssignedWithin(power: nat, items: seq<Share>)
    requires Percents(items) <= 100
    ensures AssignedAll(power, items) <= power
  {
    AssignedBound(power, items);
    MulMono(Percents(items), 100, power);
    assert Percents(items) * power == power * Percents(items);
  }

  lemma {:induction false} CastAllExactly(s: State, voter: Addr, power: nat, items: seq<Share>)
    requires InStep(s, power) && Percents(items) <= 100
    ensures CastAll(s.prop, s.ballots, s.version, voter, power, items).Ok?
       <==> Sayable(s, voter, power, items) && Taken(s, voter, power, items) <= s.prop.totalPower
    ensures CastAll(s.prop, s.ballots, s.version, voter, power, items).Ok? ==>
      var (p, ballots) := CastAll(s.prop, s.ballots, s.version, voter, power, items).value;
      CastSoFar(s, voter, power, items, p, ballots)
  {
    if items != [] {
      var before := items[..|items| - 1];
      CastAllExactly(s, voter, power, before);
      if CastAll(s.prop, s.ballots, s.version, voter, power, before).Ok? {
        var (p, ballots) := CastAll(s.prop, s.ballots, s.version, voter, power, before).value;
        CastOneExactly(s, voter, power, items, p, ballots);
        if CastOne(p, ballots, s.version, voter, power, items[|items| - 1]).Ok? {
          CastOneSteps(s, voter, power, items, p, ballots);
        }
      }
    }
  }

  // ----- the vote

  /**
   * With powers in step with ballots, a vote is refused exactly when its percentages exceed a
   * hundred, an item names no choice or repeats the ballot it replaces, or the replaced ballots
   * together outweigh the proposal's total power.
   */
  lemma CastVoteExactly(s: State, b: Block, voter: Addr, power: nat, items: seq<Share>)
    requires InStep(s, power)
    ensures CastVote(s, b, voter, power, items).Ok? <==>
      && Percents(items) <= 100 && Sayable(s, voter, power, items)
      && Taken(s, voter, power, items) <= s.prop.totalPower
  {
    if Percents(items) <= 100 {
      CastAllExactly(s, voter, power, items);
    }
  }

  predicate DistinctItems(items: seq<Share>) {
    forall i, j :: 0 <= i < j < |items| ==> items[i].pool != items[j].pool
  }

  /** What these items replace is what was stored for their pools. */
  function Replaced(s: State, voter: Addr, items: seq<Share>): nat {
    if items == [] then 0
    else
      var last := items[|items| - 1];
      Replaced(s, voter, items[..|items| - 1]) + PowerOf(Stored(s.ballots, (s.version, voter, last.pool)))
  }

  lemma {:induction false} StillStored(s: State, voter: Addr, power: nat, items: seq<Share>, pool: Pool)
    requires forall i :: 0 <= i < |items| ==> items[i].pool != pool
    ensures Current(s, voter, power, items, pool) == Stored(s.ballots, (s.version, voter, pool))
  {
    if items != [] {
      StillStored(s, voter, power, items[..|items| - 1], pool);
    }
  }

  lemma {:induction false} DistinctTaken(s: State, voter: Addr, power: nat, items: seq<Share>)
    requires DistinctItems(items)
    ensures Taken(s, voter, power, items) == Replaced(s, voter, items)
  {
    if items != [] {
      DistinctTaken(s, voter, power, items[..|items| - 1]);
      StillStored(s, voter, power, items[..|items| - 1], items[|items| - 1].pool);
    }
  }

  /** Each item's pool is a choice that holds what the voter has stored for it. */
  predicate Covered(s: State, voter: Addr, items: seq<Share>, choices: seq<Choice>) {
    forall k :: 0 <= k < |items| ==> HeldBy(s, voter, items[k].pool, choices)
  }

  predicate HeldBy(s: State, voter: Addr, pool: Pool, choices: seq<Choice>) {
    exists i :: 0 <= i < |choices| && choices[i].pool == pool && PowerOf(Stored(s.ballots, (s.version, voter, pool))) <= choices[i].power
  }

  lemma {:induction false} ReplacedWithinPowers(s: State, voter: Addr, items: seq<Share>, choices: seq<Choice>)
    requires DistinctItems(items) && Covered(s, voter, items, choices)
    ensures Replaced(s, voter, items) <= Powers(choices)
  {
    if items != [] {
      var before, last := items[..|items| - 1], items[|items| - 1];
      assert HeldBy(s, voter, last.pool, choices);
      var i :| 0 <= i < |choices| && choices[i].pool == last.pool
               && PowerOf(Stored(s.ballots, (s.version, voter, last.pool))) <= choices[i].power;
      var rest := choices[i := Choice(last.pool, 0)];
      PowersUpdate(choices, i, Choice(last.pool, 0));
      forall k | 0 <= k < |before| ensures HeldBy(s, voter, before[k].pool, rest) {
        assert HeldBy(s, voter, items[k].pool, choices);
        var j :| 0 <= j < |choices| && choices[j].pool == items[k].pool
                 && PowerOf(Stored(s.ballots, (s.version, voter, items[k].pool))) <= choices[j].power;
        assert rest[j] == choices[j];
      }
      ReplacedWithinPowers(s, voter, before, rest);
    }
  }

  lemma {:induction false} SayableNamesChoices(s: State, voter: Addr, power: nat, items: seq<Share>, k: nat)
    requires Sayable(s, voter, power, items) && k < |items|
    ensures Position(s.prop.choices, items[k].pool) < |s.prop.choices|
  {
    if k < |items| - 1 {
      SayableNamesChoices(s, voter, power, items[..|items| - 1], k);
    }
  }

  /** A vote that names each pool once is refused only by its own checks: nothing can underflow. */
  lemma DistinctVoteNeverUnderflows(s: State, b: Block, voter: Addr, power: nat, items: seq<Share>)
    requires InStep(s, power) && DistinctItems(items)
    ensures CastVote(s, b, voter, power, items).Ok? <==> Percents(items) <= 100 && Sayable(s, voter, power, items)
  {
    CastVoteExactly(s, b, voter, power, items);
    if Sayable(s, voter, power, items) {
      DistinctTaken(s, voter, power, items);
      forall k | 0 <= k < |items| ensures HeldBy(s, voter, items[k].pool, s.prop.choices) {
        SayableNamesChoices(s, voter, power, items, k);
        NoUnderflow(s.prop, s.ballots, s.version, voter, items[k].pool);
        assert s.prop.choices[Position(s.prop.choices, items[k].pool)].pool == items[k].pool;
      }
      ReplacedWithinPowers(s, voter, items, s.prop.choices);
    }
  }

  // ----- whole calls

  /** The state the loop starts from: the saved one, or the next version's. */
  function Votable(s: State, b: Block, up: Upstream): State {
    if MustRoll(CurrentStatus(s.prop, b)) && Advance(s).Ok? then Advance(s).value.(prop := Restarted(s.prop, up)) else s
  }

  lemma VotableIsInStep(s: State, b: Block, up: Upstream, power: nat)
    requires Law(s, b) && s.version + 1 < U128 && s.prop.totalPower + power < U128
    requires CurrentStatus(s.prop, b) != Closed
    ensures InStep(Votable(s, b, up), power)
  {
    if MustRoll(CurrentStatus(s.prop, b)) {
      var s0 := Votable(s, b, up);
      forall i | 0 <= i < |s0.prop.choices|
        ensures s0.prop.choices[i].power == Total(BallotsOn(s0.ballots, s0.version, s0.prop.choices[i].pool)) {
        AdvancedIsEmpty(s, s0.prop.choices[i].pool);
      }
      AdvancedIsEmpty(s, "");
      ZeroPowers(s0.prop.choices);
    }
  }

  /**
   * In every lawful state a vote goes through exactly when it is allowed now, its percentages fit,
   * its items say something, and what they replace does not outweigh the total power.
   */
  lemma VoteExactly(s: State, b: Block, up: Upstream, voter: Addr, power: nat, items: seq<Share>)
    requires Law(s, b) && s.version + 1 < U128 && s.prop.totalPower + power < U128
    ensures Vote(s, b, up, voter, power, items).Ok? <==>
      && |items| <= |s.prop.choices| && 0 < power && CurrentStatus(s.prop, b) != Closed
      && (MustRoll(CurrentStatus(s.prop, b)) ==> up.expiration.Later(s.prop.expiration))
      && Percents(items) <= 100 && Sayable(Votable(s, b, up), voter, power, items)
      && Taken(Votable(s, b, up), voter, power, items) <= Votable(s, b, up).prop.totalPower
  {
    if CurrentStatus(s.prop, b) != Closed {
      VotableIsInStep(s, b, up, power);
      CastVoteExactly(Votable(s, b, up), b, voter, power, items);
    }
  }

  /** The first vote of a version, naming one pool twice, takes back what was never added to the total. */
  lemma TwiceNamedUnderflows(s: State, b: Block, up: Upstream, voter: Addr, power: nat, pool: Pool, first: nat, second: nat)
    requires Proposed(s) && s.version + 1 < U128 && power < U128 && 0 < Assigned(power, first)
    ensures Vote(s, b, up, voter, power, [Share(pool, first), Share(pool, second)]).Err?
  {
    var a, c := Share(pool, first), Share(pool, second);
    var items := [a, c];
    VersionsStayApart(s, b, []);
    var s0 := Votable(s, b, up);
    assert items[..1] == [a] && [a][..0] == [];
    assert Current(s0, voter, power, [a], pool) == Some(Ballot(Assigned(power, first), a));
    VoteExactly(s, b, up, voter, power, items);
  }

  // ----- a pool that comes back

  lemma RemovedPoolGone(s: State, pool: Pool)
    ensures var s1 := RemoveChoices(s, [pool]);
            Position(s1.prop.choices, pool) == |s1.prop.choices|
  {
    WithoutMembers(s.prop.choices, [pool]);
    var choices := RemoveChoices(s, [pool]).prop.choices;
    assert forall i :: 0 <= i < |choices| ==> choices[i] in choices && choices[i].pool != pool;
  }

  lemma {:induction false} AddedPosition(choices: seq<Choice>, pool: Pool)
    requires Position(choices, pool) == |choices|
    ensures Position(choices + NewChoices([pool]), pool) == |choices|
  {
    var all := choices + NewChoices([pool]);
    if choices != [] {
      assert all[1..] == choices[1..] + NewChoices([pool]);
      AddedPosition(choices[1..], pool);
    }
  }

  /** Voting for one pool with the whole power leaves a ballot of that power. */
  lemma WholeVote(s: State, b: Block, up: Upstream, voter: Addr, power: nat, pool: Pool)
    requires Proposed(s) && CurrentStatus(s.prop, b) == Open && !s.prop.expiration.IsExpired(b)
    requires Position(s.prop.choices, pool) < |s.prop.choices| && 0 < power < U128 && s.version + 1 < U128
    ensures Vote(s, b, up, voter, power, [Share(pool, 100)]).Ok?
    ensures var s1 := Vote(s, b, up, voter, power, [Share(pool, 100)]).value;
            && s1.prop == s.prop.(choices := s1.prop.choices, totalPower := s1.prop.totalPower) && s1.version == s.version
            && Stored(s1.ballots, (s.version, voter, pool)) == Some(Ballot(power, Share(pool, 100)))
  {
    var item := Share(pool, 100);
    var items := [item];
    assert items[..0] == [];
    DivUnique(power * 100, 100, power);
    VersionsStayApart(s, b, []);
    VoteExactly(s, b, up, voter, power, items);
    assert CastAll(s.prop, s.ballots, s.version, voter, power, items[..0]) == Ok((s.prop, s.ballots));
    assert CastAll(s.prop, s.ballots, s.version, voter, power, items) == CastOne(s.prop, s.ballots, s.version, voter, power, item);
  }

  lemma AfterThree(s: State, events: seq<Event>, s1: State, s2: State, s3: State)
    requires |events| == 3
    requires Made(s, events[0].b, events[0].c) == Ok(s1)
    requires Made(s1, events[1].b, events[1].c) == Ok(s2)
    requires Made(s2, events[2].b, events[2].c) == Ok(s3)
    ensures After(s, events) == s3
  {
    assert events[..2][..1] == events[..1] && events[..1][..0] == [];
    assert After(s, events[..1]) == s1;
    assert After(s, events[..2]) == s2;
  }

  lemma ComesBackEmpty(s: State, up: Upstream, pool: Pool)
    requires pool in up.pools
    ensures AddChoices(RemoveChoices(s, [pool]), up, [pool]).Ok?
    ensures var s1 := AddChoices(RemoveChoices(s, [pool]), up, [pool]).value;
            var i := Position(s1.prop.choices, pool);
            && i < |s1.prop.choices| && s1.prop.choices[i].power == 0
            && s1 == s.(prop := s.prop.(choices := s1.prop.choices))
  {
    RemovedPoolGone(s, pool);
    AddedPosition(RemoveChoices(s, [pool]).prop.choices, pool);
  }

  /**
   * On every fresh, open proposal: after voting for a pool, having it removed and added again, the
   * voter cannot vote for it any more in this version, whatever the percentage.
   */
  lemma PoolThatComesBackLocks(s: State, b: Block, up: Upstream, voter: Addr, power: nat, pool: Pool, percentage: nat, events: seq<Event>)
    requires Proposed(s) && CurrentStatus(s.prop, b) == Open && !s.prop.expiration.IsExpired(b)
    requires Position(s.prop.choices, pool) < |s.prop.choices| && pool in up.pools
    requires 0 < power < U128 && s.version + 1 < U128
    requires events == [At(b, CallVote(up, voter, power, [Share(pool, 100)])), At(b, CallRemove([pool])), At(b, CallAdd(up, [pool]))]
    ensures var s3 := After(s, events);
            && Position(s3.prop.choices, pool) < |s3.prop.choices|
            && Vote(s3, b, up, voter, power, [Share(pool, percentage)]).Err?
  {
    WholeVote(s, b, up, voter, power, pool);
    var s1 := Vote(s, b, up, voter, power, [Share(pool, 100)]).value;
    var s2 := RemoveChoices(s1, [pool]);
    ComesBackEmpty(s1, up, pool);
    var s3 := AddChoices(s2, up, [pool]).value;
    AfterThree(s, events, s1, s2, s3);
    ReaddedPoolLocks(s3, b, voter, power, percentage, pool);
    assert !MustRoll(CurrentStatus(s3.prop, b));
  }
}
