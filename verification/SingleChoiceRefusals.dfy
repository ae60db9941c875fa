/**
 * Exactly when a single-choice call goes through. The DAO's total power is read at each vote, the
 * ballots keep the power they were cast with; when abstainers leave the DAO the two can cross.
 */
module SingleChoiceRefusals {
  import opened Prelude
  import opened Decimals
  import opened MapSums
  import opened Expirations
  import opened SingleChoice
  import opened SingleChoiceLaws
  import opened SingleChoiceOutcomes

  /** Quorums are never over a hundred percent, as `Threshold::validate` demands. */
  predicate RealQuorum(t: Threshold) {
    t.ThresholdQuorum? && t.quorum.Percent? ==> t.quorum.p <= ONE
  }

  /** More has abstained from an undecided quorum proposal than the DAO holds. */
  predicate Crossed(p: Proposal, b: Block) {
    && p.threshold.ThresholdQuorum? && !p.allowRevoting && !p.expiration.IsExpired(b)
    && 0 < p.totalPower < p.votes.abstain
  }

  /** An absolute percentage has its answer at expiry only, and says so when asked earlier. */
  predicate TooEarly(p: Proposal, b: Block) {
    p.threshold.AbsolutePercentage? && !p.allowRevoting && !p.expiration.IsExpired(b)
  }

  lemma QuorumMet(votes: nat, total: nat, quorum: Percentage)
    requires 0 < total < votes && (quorum.Percent? ==> quorum.p <= ONE)
    ensures CountPasses(votes, total, total, quorum)
  {
    if quorum.Percent? {
      MulMono(quorum.p, ONE, total * PRECISION);
      DivMono(total * PRECISION * quorum.p, total * PRECISION * ONE, ONE);
      DivUnique(total * PRECISION * ONE, ONE, total * PRECISION);
    }
  }

  lemma PassingFailsExactly(p: Proposal, b: Block)
    requires RealQuorum(p.threshold) && p.votes.Total() < U128
    ensures IsPassed(p, b).Ok? <==> !Crossed(p, b)
    ensures IsPassed(p, b).Ok? ==> IsPassed(p, b).value.1 == TooEarly(p, b)
  {
    if Crossed(p, b) {
      QuorumMet(p.votes.Total(), p.totalPower, p.threshold.quorum);
    }
  }

  /** The status of an open proposal cannot be computed exactly when the powers have crossed. */
  lemma StatusFailsExactly(p: Proposal, b: Block)
    requires RealQuorum(p.threshold) && p.votes.Total() < U128
    ensures CurrentStatus(p, b).Ok? <==> !(p.status == Open && Crossed(p, b))
  {
    PassingFailsExactly(p, b);
  }

  lemma StartsExactly(s: State, b: Block, sender: Addr, power: nat, expiration: Expiration, p: Result<Proposal>)
    requires power < U128 && p.Ok?
    requires p == Updated(Proposal(sender, expiration, s.threshold, Open, NO_VOTES, false, 0, b.time / NANOS), b)
    ensures Propose(s, b, sender, power, expiration).Ok? <==> 0 < power && Get(s.locked, sender) + s.limit <= power
  {
  }

  /** A proposal is made exactly by those whose power covers the deposits they hold and one more. */
  lemma ProposesExactly(s: State, b: Block, sender: Addr, power: nat, expiration: Expiration)
    requires power < U128 && RealQuorum(s.threshold)
    ensures Propose(s, b, sender, power, expiration).Ok? <==> 0 < power && Get(s.locked, sender) + s.limit <= power
  {
    var blank := Proposal(sender, expiration, s.threshold, Open, NO_VOTES, false, 0, b.time / NANOS);
    StatusFailsExactly(blank, b);
    StartsExactly(s, b, sender, power, expiration, Updated(blank, b));
  }

  /** What `vote` counts without `voter`'s earlier ballot. */
  function OthersFor(s: State, id: Id, voter: Addr, vote: Vote): int
    requires id in s.proposals
  {
    Count(s.proposals[id].votes, vote)
      - match BallotOf(s, id, voter) case Some(old_) => if old_.vote == vote then old_.power else 0 case None => 0
  }

  function Others(s: State, id: Id, voter: Addr): int
    requires id in s.proposals
  {
    OthersFor(s, id, voter, Yes) + OthersFor(s, id, voter, No) + OthersFor(s, id, voter, Abstain)
  }

  /** The proposal takes votes at all, and this one is not a repetition. */
  predicate TakesVote(s: State, b: Block, id: Id, voter: Addr, vote: Vote)
    requires id in s.proposals
  {
    && !s.proposals[id].expiration.IsExpired(b) && Unfinished(s.proposals[id])
    && !(s.proposals[id].allowRevoting && BallotOf(s, id, voter).Some? && BallotOf(s, id, voter).value.vote == vote)
  }

  /** With this vote more will have abstained from an open quorum proposal than the DAO holds. */
  predicate Crosses(s: State, id: Id, voter: Addr, power: nat, total: nat, vote: Vote)
    requires id in s.proposals
  {
    && s.proposals[id].status == Open && s.proposals[id].threshold.ThresholdQuorum? && !s.proposals[id].allowRevoting
    && 0 < total < OthersFor(s, id, voter, Abstain) + if vote == Abstain then power else 0
  }

  lemma {:induction false} KeptTally(s: State, id: Id, voter: Addr) returns (kept: Votes)
    requires Law(s) && id in s.proposals
    ensures (if (id, voter) in s.ballots
             then RemoveVote(s.proposals[id].votes, s.ballots[(id, voter)].vote, s.ballots[(id, voter)].power)
             else Ok(s.proposals[id].votes)) == Ok(kept)
    ensures kept == Votes(OthersFor(s, id, voter, Yes), OthersFor(s, id, voter, No), OthersFor(s, id, voter, Abstain))
  {
    kept := s.proposals[id].votes;
    if (id, voter) in s.ballots {
      ReplacingNeverUnderflows(s, id, voter);
      kept := RemoveVote(kept, s.ballots[(id, voter)].vote, s.ballots[(id, voter)].power).value;
    }
  }

  lemma AddsUp(kept: Votes, vote: Vote, power: nat)
    requires kept.Total() + power < U128
    ensures AddVote(kept, vote, power).Ok? && AddVote(kept, vote, power).value.Total() == kept.Total() + power
    ensures AddVote(kept, vote, power).value.abstain == kept.abstain + if vote == Abstain then power else 0
  {
  }

  /** The vote goes through exactly when it is taken and the new status can be computed. */
  lemma CastsExactly(s: State, b: Block, id: Id, voter: Addr, power: nat, total: nat, vote: Vote, kept: Votes, votes: Votes)
    requires id in s.proposals && 0 < power && AddVote(kept, vote, power) == Ok(votes)
    requires (if (id, voter) in s.ballots
              then RemoveVote(s.proposals[id].votes, s.ballots[(id, voter)].vote, s.ballots[(id, voter)].power)
              else Ok(s.proposals[id].votes)) == Ok(kept)
    ensures CastVote(s, b, id, voter, power, total, vote).Ok? <==>
      TakesVote(s, b, id, voter, vote) && CurrentStatus(s.proposals[id].(votes := votes, totalPower := total), b).Ok?
  {
  }

  /**
   * While the votes add up to a `u128`, a vote is refused only for want of a proposal or of power,
   * after expiry or a final status, as a repetition where revoting is allowed - and when more
   * has abstained than the DAO now holds.
   */
  lemma VotesExactly(s: State, b: Block, id: Id, voter: Addr, power: nat, total: nat, vote: Vote)
    requires Law(s) && (id in s.proposals ==> RealQuorum(s.proposals[id].threshold) && Others(s, id, voter) + power < U128)
    ensures CastVote(s, b, id, voter, power, total, vote).Ok? <==>
      id in s.proposals && 0 < power && TakesVote(s, b, id, voter, vote) && !Crosses(s, id, voter, power, total, vote)
  {
    if id in s.proposals && 0 < power {
      var kept := KeptTally(s, id, voter);
      AddsUp(kept, vote, power);
      var votes := AddVote(kept, vote, power).value;
      CastsExactly(s, b, id, voter, power, total, vote, kept, votes);
      StatusFailsExactly(s.proposals[id].(votes := votes, totalPower := total), b);
    }
  }

  /** Members execute exactly the passed proposals, and the deposit is there to release. */
  lemma ExecutesExactly(s: State, b: Block, id: Id, power: nat)
    requires Law(s)
    requires id in s.proposals ==> RealQuorum(s.proposals[id].threshold) && s.proposals[id].votes.Total() < U128
    ensures Execute(s, b, id, power).Ok? <==>
      && id in s.proposals && 0 < power && CurrentStatus(s.proposals[id], b) == Ok(Passed)
      && !TooEarly(s.proposals[id], b) && !Crossed(s.proposals[id], b)
  {
    if id in s.proposals {
      PassingFailsExactly(s.proposals[id], b);
      if Unfinished(s.proposals[id]) {
        ReleaseNeverUnderflows(s, id);
      }
    }
  }

  /** Anyone closes exactly the rejected proposals past their hold time. */
  lemma ClosesExactly(s: State, b: Block, id: Id)
    requires Law(s)
    ensures Close(s, b, id).Ok? <==>
      && id in s.proposals && CurrentStatus(s.proposals[id], b) == Ok(Rejected)
      && s.proposals[id].start + s.holdSeconds <= b.time / NANOS
  {
    if id in s.proposals && Unfinished(s.proposals[id]) {
      ReleaseNeverUnderflows(s, id);
    }
  }

  // ----- the powers cross

  const HALVES := ThresholdQuorum(Majority, Majority)

  lemma {:induction false} SixtyAbstain(s: State, b: Block, p: Proposal)
    requires s.proposals == map[1 := p] && s.ballots == map[] && p.threshold == HALVES && p.votes == NO_VOTES
    requires p.status == Open && !p.allowRevoting && !p.expiration.IsExpired(b)
    ensures CastVote(s, b, 1, 2, 60, 100, Abstain)
         == Ok(s.(proposals := map[1 := p.(votes := Votes(0, 0, 60), totalPower := 100)],
                  ballots := map[(1, 2) := Ballot(60, Abstain)]))
  {
    var voted := p.(votes := Votes(0, 0, 60), totalPower := 100);
    assert AddVote(NO_VOTES, Abstain, 60) == Ok(voted.votes);
    assert IsPassed(voted, b) == Ok((false, false));
    NotPassedIsOpen(voted, b);
    assert s.proposals[1 := voted] == map[1 := voted];
  }

  lemma {:induction false} VoteBlocked(s: State, b: Block, voter: Addr, power: nat, total: nat, vote: Vote)
    requires 1 in s.proposals && (1, voter) !in s.ballots && s.proposals[1].threshold == HALVES
    requires s.proposals[1].votes == Votes(0, 0, 60) && s.proposals[1].status == Open && !s.proposals[1].allowRevoting
    requires 60 + power < U128 && 0 < total < 60
    ensures CastVote(s, b, 1, voter, power, total, vote).Err?
  {
    AddsUp(Votes(0, 0, 60), vote, power);
    var votes := AddVote(Votes(0, 0, 60), vote, power).value;
    StatusFailsExactly(s.proposals[1].(votes := votes, totalPower := total), b);
  }

  /**
   * Someone with sixty of a hundred abstains and leaves the DAO: from then on nobody else can vote
   * on the open proposal, whatever they vote and with whatever power.
   */
  lemma LeavingBlocksTheVote(s: State, b: Block, calls: seq<(Block, Call)>, later: Block, voter: Addr, power: nat, total: nat, vote: Vote)
    requires s.threshold == HALVES && s.limit == 0 && s.count == 0 && s.proposals == map[] && s.ballots == map[] && s.locked == map[]
    requires calls == [(b, CallPropose(1, 10, AtTime(100))), (b, CallVote(1, 2, 60, 100, Abstain))]
    requires b.time < 100 && voter != 2 && 60 + power < U128 && 0 < total < 60
    ensures CastVote(After(s, calls), later, 1, voter, power, total, vote).Err?
  {
    var blank := Proposal(1, AtTime(100), HALVES, Open, NO_VOTES, false, 0, b.time / NANOS);
    BlankNotPassed(blank, b);
    NotPassedIsOpen(blank, b);
    var s0 := s.(count := 1, proposals := s.proposals[1 := blank], locked := s.locked[1 := 0]);
    assert Made(s, calls[0].0, calls[0].1) == Ok(s0);
    SixtyAbstain(s0, b, blank);
    var s1 := Made(s0, calls[1].0, calls[1].1).value;
    TwoCalls(s, calls, s0, s1);
    VoteBlocked(s1, later, voter, power, total, vote);
  }
}
