/**
 * What a multiple-choice call leaves: whose ballot says what, what each choice and the total gain
 * and lose, and which pools the executed list names with how many points.
 */
module MultipleChoiceOutcomes {
  import opened Prelude
  import opened Decimals
  import opened MapSums
  import opened Expirations
  import opened Apportionment
  import opened MultipleChoice
  import opened MultipleChoiceLaws
  import opened MultipleChoiceVotes

  // ----- voting

  /** The whole part of `percentage` hundredths of `power`. */
  predicate WholePart(n: nat, power: nat, percentage: nat) {
    100 * n <= power * percentage < 100 * n + 100
  }

  /** No later item names the same pool. */
  predicate LastForPool(items: seq<Share>, k: nat)
    requires k < |items|
  {
    forall j :: k < j < |items| ==> items[j].pool != items[k].pool
  }

  /** The last item for each pool is stored as the voter's ballot, with its part of the power. */
  ghost predicate ItemsStored(s: State, voter: Addr, power: nat, items: seq<Share>, ballots: map<Key, Ballot>) {
    forall k :: 0 <= k < |items| && LastForPool(items, k) ==>
      var key := (s.version, voter, items[k].pool);
      key in ballots && ballots[key].vote == items[k] && WholePart(ballots[key].power, power, items[k].percentage)
  }

  /** Nobody else's ballots, and none for other pools or versions, change. */
  ghost predicate OthersStored(s: State, voter: Addr, items: seq<Share>, ballots: map<Key, Ballot>) {
    forall key: Key :: (key.0 != s.version || key.1 != voter || forall i :: 0 <= i < |items| ==> items[i].pool != key.2) ==>
      Stored(ballots, key) == Stored(s.ballots, key)
  }

  ghost predicate BallotsCast(s: State, voter: Addr, power: nat, items: seq<Share>, ballots: map<Key, Ballot>) {
    ItemsStored(s, voter, power, items, ballots) && OthersStored(s, voter, items, ballots)
  }

  /** Every choice moves by what the voter's ballot for it moves, and by nothing else. */
  ghost predicate ChoicesMoved(s: State, voter: Addr, choices: seq<Choice>, ballots: map<Key, Ballot>) {
    && SamePools(choices, s.prop.choices)
    && forall j :: 0 <= j < |choices| ==>
         var key := (s.version, voter, choices[j].pool);
         choices[j].power == s.prop.choices[j].power - PowerOf(Stored(s.ballots, key)) + PowerOf(Stored(ballots, key))
  }

  lemma AssignedIsWholePart(power: nat, percentage: nat)
    ensures WholePart(Assigned(power, percentage), power, percentage)
  {
    DivBounds(power * percentage, 100);
  }

  lemma OneItemStored(s: State, voter: Addr, power: nat, items: seq<Share>, ballots: map<Key, Ballot>)
    requires items != [] && ItemsStored(s, voter, power, items[..|items| - 1], ballots)
    ensures var item := items[|items| - 1];
            ItemsStored(s, voter, power, items, ballots[(s.version, voter, item.pool) := Ballot(Assigned(power, item.percentage), item)])
  {
    var before, item := items[..|items| - 1], items[|items| - 1];
    AssignedIsWholePart(power, item.percentage);
    var ballots1 := ballots[(s.version, voter, item.pool) := Ballot(Assigned(power, item.percentage), item)];
    forall k | 0 <= k < |items| && LastForPool(items, k)
      ensures var own := (s.version, voter, items[k].pool);
              own in ballots1 && ballots1[own].vote == items[k] && WholePart(ballots1[own].power, power, items[k].percentage) {
      if k < |before| {
        assert items[|before|].pool != items[k].pool;
        assert before[k] == items[k];
        assert LastForPool(before, k);
      }
    }
  }

  lemma OneBallotCast(s: State, voter: Addr, power: nat, items: seq<Share>, ballots: map<Key, Ballot>)
    requires items != [] && BallotsCast(s, voter, power, items[..|items| - 1], ballots)
    ensures var item := items[|items| - 1];
            BallotsCast(s, voter, power, items, ballots[(s.version, voter, item.pool) := Ballot(Assigned(power, item.percentage), item)])
  {
    var before, item := items[..|items| - 1], items[|items| - 1];
    OneItemStored(s, voter, power, items, ballots);
    var ballots1 := ballots[(s.version, voter, item.pool) := Ballot(Assigned(power, item.percentage), item)];
    forall other: Key | other.0 != s.version || other.1 != voter || forall i :: 0 <= i < |items| ==> items[i].pool != other.2
      ensures Stored(ballots1, other) == Stored(s.ballots, other) {
      assert items[|before|] == item;
      assert forall i :: 0 <= i < |before| ==> before[i] == items[i];
      assert Stored(ballots, other) == Stored(s.ballots, other);
    }
  }

  lemma OneChoiceMoved(s: State, voter: Addr, power: nat, p: Proposal, ballots: map<Key, Ballot>, item: Share)
    requires DistinctPools(s.prop.choices) && ChoicesMoved(s, voter, p.choices, ballots)
    requires CastOne(p, ballots, s.version, voter, power, item).Ok?
    ensures var (p1, ballots1) := CastOne(p, ballots, s.version, voter, power, item).value;
            ChoicesMoved(s, voter, p1.choices, ballots1)
  {
    var i := Position(p.choices, item.pool);
    var (p1, ballots1) := CastOne(p, ballots, s.version, voter, power, item).value;
    forall j | 0 <= j < |p1.choices|
      ensures p1.choices[j].pool == s.prop.choices[j].pool
      ensures var key := (s.version, voter, p1.choices[j].pool);
              p1.choices[j].power == s.prop.choices[j].power - PowerOf(Stored(s.ballots, key)) + PowerOf(Stored(ballots1, key)) {
      var key := (s.version, voter, p.choices[j].pool);
      assert p.choices[j].power == s.prop.choices[j].power - PowerOf(Stored(s.ballots, key)) + PowerOf(Stored(ballots, key));
      if j != i {
        assert s.prop.choices[j].pool != s.prop.choices[i].pool;
      }
    }
  }

  lemma OneBallotWritten(s: State, voter: Addr, power: nat, p: Proposal, ballots: map<Key, Ballot>, item: Share)
    requires CastOne(p, ballots, s.version, voter, power, item).Ok?
    ensures var (p1, ballots1) := CastOne(p, ballots, s.version, voter, power, item).value;
            && p1 == p.(choices := p1.choices, totalPower := p1.totalPower)
            && ballots1 == ballots[(s.version, voter, item.pool) := Ballot(Assigned(power, item.percentage), item)]
  {
  }

  lemma {:induction false} BallotsAfter(s: State, voter: Addr, power: nat, items: seq<Share>)
    requires CastAll(s.prop, s.ballots, s.version, voter, power, items).Ok?
    ensures var (p, ballots) := CastAll(s.prop, s.ballots, s.version, voter, power, items).value;
            p == s.prop.(choices := p.choices, totalPower := p.totalPower) && BallotsCast(s, voter, power, items, ballots)
  {
    if items != [] {
      var before, item := items[..|items| - 1], items[|items| - 1];
      BallotsAfter(s, voter, power, before);
      var (p, ballots) := CastAll(s.prop, s.ballots, s.version, voter, power, before).value;
      OneBallotWritten(s, voter, power, p, ballots, item);
      OneBallotCast(s, voter, power, items, ballots);
    }
  }

  lemma {:induction false} ChoicesAfter(s: State, voter: Addr, power: nat, items: seq<Share>)
    requires DistinctPools(s.prop.choices) && CastAll(s.prop, s.ballots, s.version, voter, power, items).Ok?
    ensures var (p, ballots) := CastAll(s.prop, s.ballots, s.version, voter, power, items).value;
            ChoicesMoved(s, voter, p.choices, ballots)
  {
    if items != [] {
      ChoicesAfter(s, voter, power, items[..|items| - 1]);
      var (p, ballots) := CastAll(s.prop, s.ballots, s.version, voter, power, items[..|items| - 1]).value;
      OneChoiceMoved(s, voter, power, p, ballots, items[|items| - 1]);
    }
  }

  lemma {:induction false} TakenFromTotal(s: State, voter: Addr, power: nat, items: seq<Share>)
    requires CastAll(s.prop, s.ballots, s.version, voter, power, items).Ok?
    ensures var (p, ballots) := CastAll(s.prop, s.ballots, s.version, voter, power, items).value;
            && p.totalPower == s.prop.totalPower - Taken(s, voter, power, items)
            && forall pool :: Stored(ballots, (s.version, voter, pool)) == Current(s, voter, power, items, pool)
  {
    if items != [] {
      var before, item := items[..|items| - 1], items[|items| - 1];
      TakenFromTotal(s, voter, power, before);
      var (p, ballots) := CastAll(s.prop, s.ballots, s.version, voter, power, before).value;
      CastOneMoves(p, ballots, s.version, voter, power, item);
      CurrentAfter(s, voter, power, items, ballots, CastOne(p, ballots, s.version, voter, power, item).value.1);
      assert Stored(ballots, (s.version, voter, item.pool)) == Current(s, voter, power, before, item.pool);
    }
  }

  /** The outcome of a vote on the proposal as it stands, or as it has been restarted for the next version. */
  ghost predicate VoteStored(s: State, s1: State, b: Block, voter: Addr, power: nat, items: seq<Share>) {
    && s1 == s.(prop := s1.prop, ballots := s1.ballots)
    && BallotsCast(s, voter, power, items, s1.ballots) && ChoicesMoved(s, voter, s1.prop.choices, s1.ballots)
    && (DistinctItems(items) ==> s1.prop.totalPower == s.prop.totalPower + power - Replaced(s, voter, items))
    && s1.prop == s.prop.(choices := s1.prop.choices, totalPower := s1.prop.totalPower,
                          status := if s.prop.status == Open && s.prop.expiration.IsExpired(b) then VotingClosed else s.prop.status)
  }

  lemma CastVoteOutcome(s: State, b: Block, voter: Addr, power: nat, items: seq<Share>)
    requires DistinctPools(s.prop.choices) && CastVote(s, b, voter, power, items).Ok?
    ensures VoteStored(s, CastVote(s, b, voter, power, items).value, b, voter, power, items)
  {
    BallotsAfter(s, voter, power, items);
    ChoicesAfter(s, voter, power, items);
    TakenFromTotal(s, voter, power, items);
    if DistinctItems(items) {
      DistinctTaken(s, voter, power, items);
    }
  }

  /** The next version: nothing voted yet, the upstream dates, the finished version in the history. */
  ghost predicate RolledOver(s: State, s1: State, up: Upstream) {
    && s1.version == s.version + 1 && s1.ballots == s.ballots
    && s1.prop == s.prop.(status := Open, votingStart := up.votingStart, expiration := up.expiration,
                          totalPower := 0, choices := s1.prop.choices)
    && SamePools(s1.prop.choices, s.prop.choices) && (forall c :: c in s1.prop.choices ==> c.power == 0)
    && s1.history == s.history[s1.version :=
         Snapshot(TimeOut, s.prop.totalPower, s.prop.choices, s.prop.votingStart, s.prop.expiration)]
  }

  /**
   * A vote that goes through is stored item by item with the whole part of the voter's power, and
   * moves choices and total accordingly, on the current version or on a fresh next one.
   */
  lemma VoteOutcome(s: State, b: Block, up: Upstream, voter: Addr, power: nat, items: seq<Share>)
    requires Law(s, b) && Vote(s, b, up, voter, power, items).Ok?
    ensures VoteStored(Votable(s, b, up), Vote(s, b, up, voter, power, items).value, b, voter, power, items)
    ensures if MustRoll(CurrentStatus(s.prop, b)) then RolledOver(s, Votable(s, b, up), up) else Votable(s, b, up) == s
  {
    CastVoteOutcome(Votable(s, b, up), b, voter, power, items);
  }

  // ----- executing

  /** An entry for the choice's own pool, with its floored percentage or one more. */
  predicate NamedFor(c: Choice, total: nat, e: Share) {
    && e.pool == c.pool
    && e.percentage * total <= c.power * 100 + total
    && c.power * 100 < e.percentage * total + total
  }

  lemma FloorNames(c: Choice, total: nat, e: Share, raised: bool)
    requires 0 < total && c.power <= total
    requires e == Share(c.pool, PercentOf(c.power, total) + if raised then 1 else 0)
    ensures NamedFor(c, total, e)
  {
    NoTruncation(c.power, total);
    var p := PercentOf(c.power, total);
    assert (p + 1) * total == p * total + total;
  }

  /** A non-empty list names every choice's pool with its floored percentage or one more. */
  lemma EmittedNames(choices: seq<Choice>, total: nat, j: nat) returns (i: nat)
    requires choices != [] && 0 < total && ExecutionVotes(choices, total).Ok?
    requires ExecutionVotes(choices, total).value != [] && Powers(choices) <= total && j < |choices|
    ensures i < |ExecutionVotes(choices, total).value|
    ensures NamedFor(choices[j], total, ExecutionVotes(choices, total).value[i])
  {
    EmittedIsApportioned(choices, total);
    var votes, floors := ExecutionVotes(choices, total).value, Floors(choices, total);
    var k := 100 - Percents(floors);
    var back := Unraised(votes, k);
    assert floors[j] in multiset(floors);
    assert floors[j] in multiset(back);
    i :| 0 <= i < |back| && back[i] == floors[j];
    PowerWithinSum(choices);
    assert choices[j] in choices;
    FloorNames(choices[j], total, votes[i], i < k);
  }

  /** Every entry of a non-empty list is for some choice. */
  lemma EmittedIsNamed(choices: seq<Choice>, total: nat, i: nat) returns (j: nat)
    requires choices != [] && 0 < total && ExecutionVotes(choices, total).Ok?
    requires ExecutionVotes(choices, total).value != [] && Powers(choices) <= total
    requires i < |ExecutionVotes(choices, total).value|
    ensures j < |choices| && NamedFor(choices[j], total, ExecutionVotes(choices, total).value[i])
  {
    EmittedIsApportioned(choices, total);
    var votes, floors := ExecutionVotes(choices, total).value, Floors(choices, total);
    var k := 100 - Percents(floors);
    var back := Unraised(votes, k);
    assert back[i] in multiset(back);
    assert back[i] in multiset(floors);
    j :| 0 <= j < |floors| && floors[j] == back[i];
    PowerWithinSum(choices);
    assert choices[j] in choices;
    FloorNames(choices[j], total, votes[i], i < k);
  }

  /** The list follows the powers: each choice has an entry, and each entry a choice. */
  ghost predicate Follows(choices: seq<Choice>, total: nat, votes: seq<Share>) {
    && |votes| == |choices| && Percents(votes) == 100
    && (forall j :: 0 <= j < |choices| ==> exists i :: 0 <= i < |votes| && NamedFor(choices[j], total, votes[i]))
    && forall i :: 0 <= i < |votes| ==> exists j :: 0 <= j < |choices| && NamedFor(choices[j], total, votes[i])
  }

  lemma EmittedSize(choices: seq<Choice>, total: nat)
    requires choices != [] && 0 < total && ExecutionVotes(choices, total).Ok?
    requires ExecutionVotes(choices, total).value != []
    ensures var votes := ExecutionVotes(choices, total).value; |votes| == |choices| && Percents(votes) == 100
  {
    EmittedIsApportioned(choices, total);
    EmittedSumsToHundred(choices, total);
  }

  lemma EmittedFollows(choices: seq<Choice>, total: nat)
    requires choices != [] && 0 < total && ExecutionVotes(choices, total).Ok?
    requires ExecutionVotes(choices, total).value != [] && Powers(choices) <= total
    ensures Follows(choices, total, ExecutionVotes(choices, total).value)
  {
    EmittedSize(choices, total);
    var votes := ExecutionVotes(choices, total).value;
    forall j | 0 <= j < |choices| ensures exists i :: 0 <= i < |votes| && NamedFor(choices[j], total, votes[i]) {
      var i := EmittedNames(choices, total, j);
    }
    forall i | 0 <= i < |votes| ensures exists j :: 0 <= j < |choices| && NamedFor(choices[j], total, votes[i]) {
      var j := EmittedIsNamed(choices, total, i);
    }
  }

  /** Closing a version: the history gets it under its number, with this status. */
  ghost predicate Noted(s: State, s1: State, status: Status) {
    && s1 == s.(prop := s.prop.(status := status), history := s1.history)
    && s1.history == s.history[s.version :=
         Snapshot(status, s.prop.totalPower, s.prop.choices, s.prop.votingStart, s.prop.expiration)]
  }

  /** A version counted up, with the proposal left as it was saved and the finished version in the history. */
  ghost predicate Skipped(s: State, s1: State) {
    && s1 == s.(version := s.version + 1, history := s1.history)
    && s1.history == s.history[s1.version :=
         Snapshot(TimeOut, s.prop.totalPower, s.prop.choices, s.prop.votingStart, s.prop.expiration)]
  }

  /**
   * `execute` sends a list that follows the powers, or nothing when the floors fill a hundred, and
   * notes the version as executed; when upstream has moved on it sends nothing and skips a version.
   */
  lemma ExecuteOutcome(s: State, b: Block, up: Upstream, power: nat)
    requires Law(s, b) && Execute(s, b, up, power).Ok?
    ensures var (s1, votes) := Execute(s, b, up, power).value;
            && 0 < power && CurrentStatus(s.prop, b) == VotingClosed
            && if up.expiration.Later(s.prop.expiration) then Skipped(s, s1) && votes == []
               else Noted(s, s1, Executed) && (votes != [] ==> Follows(s.prop.choices, s.prop.totalPower, votes))
  {
    if !up.expiration.Later(s.prop.expiration) && Execute(s, b, up, power).value.1 != [] {
      NonEmptyHasTotal(s.prop);
      EmittedFollows(s.prop.choices, s.prop.totalPower);
    }
  }

  lemma RejectOutcome(s: State, b: Block, up: Upstream, power: nat)
    requires Reject(s, b, up, power).Ok?
    ensures var s1 := Reject(s, b, up, power).value;
            && 0 < power && CurrentStatus(s.prop, b) == VotingClosed
            && if up.expiration.Later(s.prop.expiration) then Skipped(s, s1) else Noted(s, s1, Rejected)
  {
  }

  // ----- the choices

  lemma {:induction false} WithoutKeepsOrder(choices: seq<Choice>, pools: seq<Pool>, i: nat, j: nat)
    requires i < j < |Without(choices, pools)|
    ensures exists a, b :: 0 <= a < b < |choices| && choices[a] == Without(choices, pools)[i] && choices[b] == Without(choices, pools)[j]
  {
    var before, last := choices[..|choices| - 1], choices[|choices| - 1];
    var r := Without(before, pools);
    if j < |r| {
      WithoutKeepsOrder(before, pools, i, j);
      var a, b :| 0 <= a < b < |before| && before[a] == r[i] && before[b] == r[j];
      assert choices[a] == Without(choices, pools)[i] && choices[b] == Without(choices, pools)[j];
    } else {
      WithoutMembers(before, pools);
      assert r[i] in before;
      var a :| 0 <= a < |before| && before[a] == r[i];
      assert choices[a] == Without(choices, pools)[i] && choices[|choices| - 1] == Without(choices, pools)[j];
    }
  }

  /** Removing pools keeps exactly the other choices, powers and order included. */
  lemma RemoveOutcome(s: State, pools: seq<Pool>)
    ensures var s1 := RemoveChoices(s, pools);
            && s1 == s.(prop := s.prop.(choices := s1.prop.choices))
            && (forall c :: c in s1.prop.choices <==> c in s.prop.choices && c.pool !in pools)
            && forall i, j :: 0 <= i < j < |s1.prop.choices| ==>
                 exists a, b :: 0 <= a < b < |s.prop.choices| && s.prop.choices[a] == s1.prop.choices[i] && s.prop.choices[b] == s1.prop.choices[j]
  {
    WithoutMembers(s.prop.choices, pools);
    var choices := RemoveChoices(s, pools).prop.choices;
    forall i, j | 0 <= i < j < |choices|
      ensures exists a, b :: 0 <= a < b < |s.prop.choices| && s.prop.choices[a] == choices[i] && s.prop.choices[b] == choices[j] {
      WithoutKeepsOrder(s.prop.choices, pools, i, j);
    }
  }

  /** Adding pools appends them, in the order given and without power, if upstream offers each and no choice has it. */
  lemma AddOutcome(s: State, up: Upstream, pools: seq<Pool>)
    ensures AddChoices(s, up, pools).Ok? <==>
      forall q :: q in pools ==> q in up.pools && forall c :: c in s.prop.choices ==> c.pool != q
    ensures AddChoices(s, up, pools).Ok? ==>
      var s1 := AddChoices(s, up, pools).value;
      && s1 == s.(prop := s.prop.(choices := s1.prop.choices))
      && |s1.prop.choices| == |s.prop.choices| + |pools|
      && (forall i :: 0 <= i < |s.prop.choices| ==> s1.prop.choices[i] == s.prop.choices[i])
      && forall i :: 0 <= i < |pools| ==> s1.prop.choices[|s.prop.choices| + i] == Choice(pools[i], 0)
  {
    forall q ensures Position(s.prop.choices, q) < |s.prop.choices| <==> exists c :: c in s.prop.choices && c.pool == q {
      if Position(s.prop.choices, q) < |s.prop.choices| {
        assert s.prop.choices[Position(s.prop.choices, q)] in s.prop.choices;
      }
      if c :| c in s.prop.choices && c.pool == q {
        var i :| 0 <= i < |s.prop.choices| && s.prop.choices[i] == c;
        PositionFirst(s.prop.choices, i);
      }
    }
  }
}
