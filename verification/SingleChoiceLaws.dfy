/** Early passing is safe, tallies are the ballots, statuses only move forward, deposits balance. */
module SingleChoiceLaws {
  import opened Prelude
  import opened Decimals
  import opened MapSums
  import opened Expirations
  import opened SingleChoice

  // ----- passing before expiry

  /** More votes of any kind, within the total power. */
  predicate Extends(v: Votes, w: Votes, total: nat) {
    v.yes <= w.yes && v.no <= w.no && v.abstain <= w.abstain && w.Total() <= total
  }

  lemma CountMonotone(votes: nat, more: nat, options: nat, power: nat, percentage: Percentage)
    requires votes <= more && CountPasses(votes, options, power, percentage)
    ensures CountPasses(more, options, power, percentage)
  {
  }

  /** Winning a majority of everything not abstained leaves too few votes to be outvoted. */
  lemma MajorityIsDecided(v: Votes, w: Votes, total: nat)
    requires Extends(v, w, total) && total - v.abstain >= 0
    requires 2 * v.yes > total - v.abstain
    ensures 2 * w.yes > w.yes + w.no
  {
  }

  /** The proposal carries votes `v` of a DAO with this total power. */
  predicate At(p: Proposal, v: Votes, total: nat) {
    p.votes == v && p.totalPower == total && !p.allowRevoting && total < U128
  }

  /** `v` has passed ahead of expiry under a quorum threshold. */
  predicate PassedEarly(p: Proposal, b: Block, v: Votes) {
    && At(p, v, p.totalPower) && v.Total() <= p.totalPower
    && p.threshold.ThresholdQuorum? && !p.expiration.IsExpired(b) && IsPassed(p, b) == Ok((true, false))
  }

  /** It passes at expiry too, however the remaining votes fall. */
  ghost predicate PassesAnyway(p: Proposal, b: Block) {
    forall w :: Extends(p.votes, w, p.totalPower) ==> IsPassed(p.(votes := w), b) == Ok((true, false))
  }

  /**
   * A proposal that passes ahead of expiry passes at expiry under every extension of its votes
   * exactly when somebody has voted yes or no: abstentions alone count for nothing in the end.
   */
  lemma {:induction false} EarlyPassIsFinal(p: Proposal, b: Block, atExpiry: Block)
    requires PassedEarly(p, b, p.votes) && p.expiration.IsExpired(atExpiry)
    ensures PassesAnyway(p, atExpiry) <==> 0 < p.votes.yes + p.votes.no
  {
    if 0 < p.votes.yes + p.votes.no {
      forall w | Extends(p.votes, w, p.totalPower) ensures IsPassed(p.(votes := w), atExpiry) == Ok((true, false)) {
        CountMonotone(p.votes.Total(), w.Total(), p.totalPower, p.totalPower, p.threshold.quorum);
        if p.threshold.threshold.Percent? {
          PercentStays(p.votes.yes, w.yes, p.totalPower, p.threshold.threshold.p);
        } else {
          MajorityIsDecided(p.votes, w, p.totalPower);
        }
      }
    }
    if PassesAnyway(p, atExpiry) {
      assert Extends(p.votes, p.votes, p.totalPower);
      assert p.(votes := p.votes) == p;
    }
  }

  lemma PercentStays(yes: nat, more: nat, total: nat, p: nat)
    requires yes <= more && AtLeast(yes, total, p)
    ensures AtLeast(more, total, p)
  {
  }

  /** A majority, or a threshold of at least 10^-9, cannot be met without a yes vote. */
  lemma {:induction false} RealThresholdsNeedYes(p: Proposal, b: Block)
    requires PassedEarly(p, b, p.votes)
    requires p.threshold.threshold == Majority || p.threshold.threshold.p >= PRECISION
    ensures 0 < p.votes.yes
  {
    if p.threshold.threshold.Percent? {
      var need := p.totalPower * PRECISION * p.threshold.threshold.p / ONE;
      MulMono(PRECISION, p.threshold.threshold.p, p.totalPower * PRECISION);
      assert p.threshold.threshold.p * (p.totalPower * PRECISION) == p.totalPower * PRECISION * p.threshold.threshold.p;
      assert PRECISION * (p.totalPower * PRECISION) == p.totalPower * ONE;
      DivMono(p.totalPower * ONE, p.totalPower * PRECISION * p.threshold.threshold.p, ONE);
      DivUnique(p.totalPower * ONE, ONE, p.totalPower);
    }
  }

  // ----- tallies

  ghost function Cast(s: State, id: Id, vote: Vote): map<(Id, Addr), int> {
    map k | k in s.ballots && k.0 == id && s.ballots[k].vote == vote :: s.ballots[k].power
  }

  function Count(v: Votes, vote: Vote): nat {
    match vote case Yes => v.yes case No => v.no case Abstain => v.abstain
  }

  ghost predicate Tallied(s: State, id: Id, v: Votes) {
    forall vote: Vote :: Count(v, vote) == Total(Cast(s, id, vote))
  }

  // ----- deposits

  predicate Unfinished(p: Proposal) {
    p.status != Executed && p.status != Closed
  }

  /** A deposit for each of the proposer's proposals that is not executed or closed. */
  ghost function Deposits(s: State, a: Addr): map<Id, int> {
    map id | id in s.proposals && s.proposals[id].proposer == a && Unfinished(s.proposals[id]) :: s.limit
  }

  /** Ids are counted up, and every ballot belongs to a proposal. */
  predicate Numbered(s: State) {
    && (forall id :: id in s.proposals ==> id <= s.count)
    && forall k :: k in s.ballots ==> k.0 in s.proposals
  }

  ghost predicate TalliesHold(s: State) {
    forall id :: id in s.proposals ==> Tallied(s, id, s.proposals[id].votes)
  }

  ghost predicate DepositsHold(s: State) {
    forall a :: Get(s.locked, a) == Total(Deposits(s, a))
  }

  ghost predicate Law(s: State) {
    Numbered(s) && TalliesHold(s) && DepositsHold(s)
  }

  /** The statuses a proposal can go through. */
  predicate Follows(a: Status, b: Status) {
    || a == b
    || a == Open
    || (a == Passed && b == Executed)
    || (a == Rejected && b == Closed)
  }

  ghost predicate Forward(s: State, s1: State) {
    forall id :: id in s.proposals ==>
      id in s1.proposals && s1.proposals[id].proposer == s.proposals[id].proposer
      && Follows(s.proposals[id].status, s1.proposals[id].status)
  }

  lemma ProposalWritten(s: State, s1: State, id: Id, p: Proposal, a: Addr)
    requires s1.proposals == s.proposals[id := p] && s1.limit == s.limit
    ensures Total(Deposits(s1, a)) == Total(Deposits(s, a))
              - (if id in s.proposals && s.proposals[id].proposer == a && Unfinished(s.proposals[id]) then s.limit else 0)
              + (if p.proposer == a && Unfinished(p) then s.limit else 0)
  {
    var m, m1 := Deposits(s, a), Deposits(s1, a);
    if p.proposer == a && Unfinished(p) {
      assert m1 == m[id := s.limit];
      TotalUpdate(m, id, s.limit);
    } else {
      assert m1 == m - {id};
      TotalDrop(m, id);
    }
  }

  lemma CastWritten(s: State, s1: State, k: (Id, Addr), ballot: Ballot, id: Id, vote: Vote)
    requires s1.ballots == s.ballots[k := ballot]
    ensures Cast(s1, id, vote)
         == if k.0 == id && ballot.vote == vote then Cast(s, id, vote)[k := ballot.power] else Cast(s, id, vote) - {k}
  {
  }

  lemma BallotWritten(s: State, s1: State, k: (Id, Addr), ballot: Ballot, id: Id, vote: Vote)
    requires s1.ballots == s.ballots[k := ballot]
    ensures Total(Cast(s1, id, vote)) == Total(Cast(s, id, vote))
              - (if k in s.ballots && k.0 == id && s.ballots[k].vote == vote then s.ballots[k].power else 0)
              + (if k.0 == id && ballot.vote == vote then ballot.power else 0)
  {
    CastWritten(s, s1, k, ballot, id, vote);
    TotalUpdate(Cast(s, id, vote), k, ballot.power);
    TotalDrop(Cast(s, id, vote), k);
  }

  lemma SameBallots(s: State, s1: State, id: Id, v: Votes)
    requires s1.ballots == s.ballots
    ensures Tallied(s, id, v) == Tallied(s1, id, v)
  {
  }

  // ----- every call

  lemma FreshTally(s: State, s1: State, id: Id)
    requires Numbered(s) && id !in s.proposals && s1.ballots == s.ballots
    ensures Tallied(s1, id, NO_VOTES)
  {
  }

  lemma ProposeTallies(s: State, s1: State, id: Id, p: Proposal)
    requires TalliesHold(s) && s1.ballots == s.ballots
    requires s1.proposals == s.proposals[id := p] && Tallied(s1, id, p.votes)
    ensures TalliesHold(s1)
  {
  }

  lemma ProposeDeposits(s: State, s1: State, id: Id, p: Proposal)
    requires DepositsHold(s) && id !in s.proposals && Unfinished(p) && s1.limit == s.limit
    requires s1.proposals == s.proposals[id := p]
    requires s1.locked == s.locked[p.proposer := Get(s.locked, p.proposer) + s.limit]
    ensures DepositsHold(s1)
  {
    forall a ensures Get(s1.locked, a) == Total(Deposits(s1, a)) {
      ProposalWritten(s, s1, id, p, a);
    }
  }

  lemma ProposeShape(s: State, b: Block, sender: Addr, power: nat, expiration: Expiration) returns (p: Proposal)
    requires Propose(s, b, sender, power, expiration).Ok?
    ensures p.proposer == sender && p.votes == NO_VOTES && Unfinished(p)
    ensures Propose(s, b, sender, power, expiration).value
         == s.(count := s.count + 1, proposals := s.proposals[s.count + 1 := p],
               locked := s.locked[sender := Get(s.locked, sender) + s.limit])
  {
    p := Propose(s, b, sender, power, expiration).value.proposals[s.count + 1];
  }

  lemma ProposedKeeps(s: State, s1: State, p: Proposal)
    requires Law(s) && p.votes == NO_VOTES && Unfinished(p)
    requires s1 == s.(count := s.count + 1, proposals := s.proposals[s.count + 1 := p],
                      locked := s.locked[p.proposer := Get(s.locked, p.proposer) + s.limit])
    ensures Law(s1) && Forward(s, s1)
  {
    FreshTally(s, s1, s.count + 1);
    ProposeTallies(s, s1, s.count + 1, p);
    ProposeDeposits(s, s1, s.count + 1, p);
  }

  lemma ProposeKeeps(s: State, b: Block, sender: Addr, power: nat, expiration: Expiration)
    requires Law(s) && Propose(s, b, sender, power, expiration).Ok?
    ensures var s1 := Propose(s, b, sender, power, expiration).value;
            Law(s1) && Forward(s, s1)
  {
    var p := ProposeShape(s, b, sender, power, expiration);
    ProposedKeeps(s, Propose(s, b, sender, power, expiration).value, p);
  }

  /** A voter's earlier ballot is within the tally it is taken from, so replacing it cannot abort. */
  lemma ReplacingNeverUnderflows(s: State, id: Id, sender: Addr)
    requires Law(s) && id in s.proposals && (id, sender) in s.ballots
    ensures RemoveVote(s.proposals[id].votes, s.ballots[(id, sender)].vote, s.ballots[(id, sender)].power).Ok?
  {
    EntryWithinTotal(Cast(s, id, s.ballots[(id, sender)].vote), (id, sender));
  }

  lemma VoteTallies(s: State, s1: State, id: Id, sender: Addr, power: nat, vote: Vote, kept: Votes, votes: Votes)
    requires id in s.proposals && Tallied(s, id, s.proposals[id].votes)
    requires s1.ballots == s.ballots[(id, sender) := Ballot(power, vote)]
    requires if (id, sender) in s.ballots
             then RemoveVote(s.proposals[id].votes, s.ballots[(id, sender)].vote, s.ballots[(id, sender)].power) == Ok(kept)
             else kept == s.proposals[id].votes
    requires AddVote(kept, vote, power) == Ok(votes)
    ensures Tallied(s1, id, votes)
  {
    CountsMove(s, id, sender, power, vote, kept, votes);
    forall v: Vote ensures Count(votes, v) == Total(Cast(s1, id, v)) {
      BallotWritten(s, s1, (id, sender), Ballot(power, vote), id, v);
    }
  }

  lemma CountsMove(s: State, id: Id, sender: Addr, power: nat, vote: Vote, kept: Votes, votes: Votes)
    requires id in s.proposals
    requires if (id, sender) in s.ballots
             then RemoveVote(s.proposals[id].votes, s.ballots[(id, sender)].vote, s.ballots[(id, sender)].power) == Ok(kept)
             else kept == s.proposals[id].votes
    requires AddVote(kept, vote, power) == Ok(votes)
    ensures var p := s.proposals[id];
            forall v: Vote :: Count(votes, v) == Count(p.votes, v) - TakenFrom(s, id, sender, v) + (if v == vote then power else 0)
  {
  }

  /** What replacing a voter's ballot takes out of one of the three tallies. */
  function TakenFrom(s: State, id: Id, sender: Addr, v: Vote): nat {
    if (id, sender) in s.ballots && s.ballots[(id, sender)].vote == v then s.ballots[(id, sender)].power else 0
  }

  lemma OtherTallies(s: State, s1: State, k: (Id, Addr), ballot: Ballot, id: Id, v: Votes)
    requires s1.ballots == s.ballots[k := ballot] && k.0 != id && Tallied(s, id, v)
    ensures Tallied(s1, id, v)
  {
    forall vote: Vote ensures Count(v, vote) == Total(Cast(s1, id, vote)) {
      BallotWritten(s, s1, k, ballot, id, vote);
    }
  }

  /** Rewriting a proposal without finishing it leaves the deposits alone. */
  lemma DepositsUntouched(s: State, s1: State, id: Id, p: Proposal)
    requires DepositsHold(s) && id in s.proposals && s1.limit == s.limit && s1.locked == s.locked
    requires s1.proposals == s.proposals[id := p] && p.proposer == s.proposals[id].proposer
    requires Unfinished(p) == Unfinished(s.proposals[id])
    ensures DepositsHold(s1)
  {
    forall a ensures Get(s1.locked, a) == Total(Deposits(s1, a)) {
      ProposalWritten(s, s1, id, p, a);
    }
  }

  lemma TalliesAfterVote(s: State, s1: State, id: Id, sender: Addr, ballot: Ballot)
    requires TalliesHold(s) && id in s.proposals && id in s1.proposals
    requires s1.ballots == s.ballots[(id, sender) := ballot]
    requires s1.proposals == s.proposals[id := s1.proposals[id]] && Tallied(s1, id, s1.proposals[id].votes)
    ensures TalliesHold(s1)
  {
    forall i | i in s1.proposals && i != id ensures Tallied(s1, i, s1.proposals[i].votes) {
      OtherTallies(s, s1, (id, sender), ballot, i, s.proposals[i].votes);
    }
  }

  lemma VoteKeeps(s: State, b: Block, id: Id, sender: Addr, power: nat, total: nat, vote: Vote)
    requires Law(s) && CastVote(s, b, id, sender, power, total, vote).Ok?
    ensures var s1 := CastVote(s, b, id, sender, power, total, vote).value;
            Law(s1) && Forward(s, s1)
  {
    var s1 := CastVote(s, b, id, sender, power, total, vote).value;
    var p, p1, key := s.proposals[id], s1.proposals[id], (id, sender);
    var kept := if key in s.ballots then RemoveVote(p.votes, s.ballots[key].vote, s.ballots[key].power).value else p.votes;
    VoteTallies(s, s1, id, sender, power, vote, kept, p1.votes);
    TalliesAfterVote(s, s1, id, sender, Ballot(power, vote));
    DepositsUntouched(s, s1, id, p1);
  }

  /** An unfinished proposal's deposit is there to be released. */
  lemma ReleaseNeverUnderflows(s: State, id: Id)
    requires Law(s) && id in s.proposals && Unfinished(s.proposals[id])
    ensures Release(s, s.proposals[id].proposer).Ok?
  {
    EntryWithinTotal(Deposits(s, s.proposals[id].proposer), id);
  }

  /** Finishing a proposal releases exactly its deposit. */
  lemma FinishDeposits(s: State, s1: State, id: Id, p1: Proposal)
    requires DepositsHold(s) && id in s.proposals && Unfinished(s.proposals[id]) && !Unfinished(p1)
    requires Release(s, s.proposals[id].proposer).Ok?
    requires s1 == Release(s, s.proposals[id].proposer).value.(proposals := s.proposals[id := p1])
    ensures DepositsHold(s1)
  {
    forall a ensures Get(s1.locked, a) == Total(Deposits(s1, a)) {
      ProposalWritten(s, s1, id, p1, a);
    }
  }

  lemma FinishKeeps(s: State, s1: State, id: Id, p1: Proposal)
    requires Law(s) && id in s.proposals && Unfinished(s.proposals[id])
    requires Release(s, s.proposals[id].proposer).Ok?
    requires s1 == Release(s, s.proposals[id].proposer).value.(proposals := s.proposals[id := p1])
    requires p1 == s.proposals[id].(status := p1.status) && !Unfinished(p1)
    requires Follows(s.proposals[id].status, p1.status)
    ensures Law(s1) && Forward(s, s1)
  {
    FinishDeposits(s, s1, id, p1);
    forall i | i in s1.proposals ensures Tallied(s1, i, s1.proposals[i].votes) {
      SameBallots(s, s1, i, s.proposals[i].votes);
    }
  }

  datatype Call =
    | CallPropose(sender: Addr, power: nat, expiration: Expiration)
    | CallVote(id: Id, sender: Addr, power: nat, total: nat, vote: Vote)
    | CallExecute(id: Id, power: nat)
    | CallClose(id: Id)

  function Made(s: State, b: Block, c: Call): Result<State> {
    match c
    case CallPropose(sender, power, expiration) => Propose(s, b, sender, power, expiration)
    case CallVote(id, sender, power, total, vote) => CastVote(s, b, id, sender, power, total, vote)
    case CallExecute(id, power) => Execute(s, b, id, power)
    case CallClose(id) => Close(s, b, id)
  }

  lemma CallKeeps(s: State, b: Block, c: Call)
    requires Law(s) && Made(s, b, c).Ok?
    ensures Law(Made(s, b, c).value) && Forward(s, Made(s, b, c).value)
  {
    match c
    case CallPropose(sender, power, expiration) => ProposeKeeps(s, b, sender, power, expiration);
    case CallVote(id, sender, power, total, vote) => VoteKeeps(s, b, id, sender, power, total, vote);
    case CallExecute(id, power) =>
      FinishKeeps(s, Execute(s, b, id, power).value, id, Execute(s, b, id, power).value.proposals[id]);
    case CallClose(id) =>
      FinishKeeps(s, Close(s, b, id).value, id, Close(s, b, id).value.proposals[id]);
  }

  lemma ForwardTransitive(s: State, s1: State, s2: State)
    requires Forward(s, s1) && Forward(s1, s2)
    ensures Forward(s, s2)
  {
  }

  function After(s: State, calls: seq<(Block, Call)>): State {
    if calls == [] then s
    else
      var s1 := After(s, calls[..|calls| - 1]);
      var (b, c) := calls[|calls| - 1];
      match Made(s1, b, c) case Ok(s2) => s2 case Err => s1
  }

  /**
   * In every run: votes are the sums of the stored ballots, each proposer's locked amount is the
   * deposit times the proposals not yet executed or closed, and statuses only move
   * Open, Passed, Executed or Open, Rejected, Closed.
   */
  lemma {:induction false} RunsKeepBooks(s: State, calls: seq<(Block, Call)>)
    requires Law(s)
    ensures Law(After(s, calls)) && Forward(s, After(s, calls))
  {
    if calls != [] {
      RunsKeepBooks(s, calls[..|calls| - 1]);
      var s1 := After(s, calls[..|calls| - 1]);
      var (b, c) := calls[|calls| - 1];
      if Made(s1, b, c).Ok? {
        CallKeeps(s1, b, c);
        ForwardTransitive(s, s1, Made(s1, b, c).value);
      }
    }
  }

  lemma {:induction false} AfterSplit(s: State, calls: seq<(Block, Call)>, i: nat)
    requires i <= |calls|
    ensures After(s, calls) == After(After(s, calls[..i]), calls[i..])
  {
    if i == |calls| {
      assert calls[..i] == calls && calls[i..] == [];
    } else {
      var before := calls[..|calls| - 1];
      AfterSplit(s, before, i);
      assert before[..i] == calls[..i] && calls[i..][..|calls| - i - 1] == before[i..];
    }
  }

  lemma EmptyIsLawful(s: State)
    requires s.proposals == map[] && s.ballots == map[] && s.locked == map[]
    ensures Law(s)
  {
  }

  /** From the contract as instantiated: the books hold at every moment, and statuses move forward between any two. */
  lemma BooksFromTheStart(s: State, calls: seq<(Block, Call)>, i: nat)
    requires s.proposals == map[] && s.ballots == map[] && s.locked == map[] && i <= |calls|
    ensures Law(After(s, calls[..i])) && Law(After(s, calls)) && Forward(After(s, calls[..i]), After(s, calls))
  {
    EmptyIsLawful(s);
    RunsKeepBooks(s, calls[..i]);
    AfterSplit(s, calls, i);
    RunsKeepBooks(After(s, calls[..i]), calls[i..]);
  }

  // ----- passing on abstentions

  lemma TwoCalls(s: State, calls: seq<(Block, Call)>, s1: State, s2: State)
    requires |calls| == 2
    requires Made(s, calls[0].0, calls[0].1) == Ok(s1) && Made(s1, calls[1].0, calls[1].1) == Ok(s2)
    ensures After(s, calls) == s2
  {
    assert calls[..1][..0] == [];
    assert After(s, calls[..1]) == s1;
  }

  const TINY := ThresholdQuorum(Percent(1), Percent(ONE / 2))

  /** Five of ten abstain under a quorum of half and a threshold of 10^-18. */
  lemma {:induction false} AbstentionsCount(p: Proposal, b: Block)
    requires p.threshold == TINY && p.votes == Votes(0, 0, 5) && p.totalPower == 10 && !p.allowRevoting
    ensures IsPassed(p, b) == Ok((!p.expiration.IsExpired(b), false))
  {
    assert 10 * PRECISION * (ONE / 2) / ONE == 5 * PRECISION;
    assert AtLeast(5, 10, ONE / 2);
    assert 10 * PRECISION * 1 / ONE == 0;
    assert AtLeast(0, 10, 1);
  }

  lemma NoOptionsFail(votes: nat, options: nat, power: nat, percentage: Percentage)
    requires options == 0
    ensures !CountPasses(votes, options, power, percentage)
  {
  }

  lemma BlankNotPassed(p: Proposal, b: Block)
    requires p.threshold.ThresholdQuorum? && p.votes.Total() < U128 && p.totalPower == 0
    requires !p.expiration.IsExpired(b)
    ensures IsPassed(p, b) == Ok((false, false))
  {
    NoOptionsFail(p.votes.Total(), p.totalPower, p.totalPower, p.threshold.quorum);
  }

  lemma NotPassedIsOpen(p: Proposal, b: Block)
    requires IsPassed(p, b) == Ok((false, false)) && p.status == Open && !p.expiration.IsExpired(b)
    ensures Updated(p, b) == Ok(p)
  {
    assert CurrentStatus(p, b) == Ok(Open);
    assert p.(status := Open) == p;
  }

  lemma {:induction false} AbstainVoted(s: State, b: Block, p: Proposal, id: Id, voter: Addr)
    requires id in s.proposals && s.proposals[id] == p && (id, voter) !in s.ballots
    requires p.threshold == TINY && p.votes == NO_VOTES && !p.allowRevoting
    requires p.status == Open && !p.expiration.IsExpired(b)
    ensures var p1 := p.(votes := Votes(0, 0, 5), totalPower := 10, status := Passed);
            && CastVote(s, b, id, voter, 5, 10, Abstain)
               == Ok(s.(proposals := s.proposals[id := p1], ballots := s.ballots[(id, voter) := Ballot(5, Abstain)]))
            && PassedEarly(p1, b, Votes(0, 0, 5))
  {
    var voted := p.(votes := Votes(0, 0, 5), totalPower := 10);
    assert AddVote(NO_VOTES, Abstain, 5) == Ok(voted.votes);
    AbstentionsCount(voted, b);
    AbstentionsCount(voted.(status := Passed), b);
    assert Updated(voted, b) == Ok(voted.(status := Passed));
  }

  /**
   * Half of the power abstains and nobody says yes: a proposal with a threshold of 10^-18 is passed at
   * once, and would fail if the same votes were counted at expiry.
   */
  lemma AbstentionsPassEarlyOnly(s: State, b: Block, atExpiry: Block, calls: seq<(Block, Call)>)
    requires s.threshold == TINY && s.limit == 0 && s.count == 0 && s.proposals == map[] && s.ballots == map[] && s.locked == map[]
    requires b.time < 100 <= atExpiry.time
    requires calls == [(b, CallPropose(1, 10, AtTime(100))), (b, CallVote(1, 2, 5, 10, Abstain))]
    ensures var s1 := After(s, calls);
            && 1 in s1.proposals && s1.proposals[1].status == Passed
            && PassedEarly(s1.proposals[1], b, Votes(0, 0, 5))
            && IsPassed(s1.proposals[1], atExpiry) == Ok((false, false))
  {
    var blank := Proposal(1, AtTime(100), TINY, Open, NO_VOTES, false, 0, b.time / NANOS);
    BlankNotPassed(blank, b);
    NotPassedIsOpen(blank, b);
    var s0 := s.(count := 1, proposals := s.proposals[1 := blank], locked := s.locked[1 := 0]);
    assert Made(s, calls[0].0, calls[0].1) == Ok(s0);
    AbstainVoted(s0, b, blank, 1, 2);
    var s1 := Made(s0, calls[1].0, calls[1].1).value;
    TwoCalls(s, calls, s0, s1);
    AbstentionsCount(s1.proposals[1], atExpiry);
  }
}
