/** What a single-choice call stores, and what its thresholds mean. */
module SingleChoiceOutcomes {
  import opened Prelude
  import opened Decimals
  import opened Expirations
  import opened SingleChoice
  import opened SingleChoiceLaws

  // ----- thresholds

  /** Votes that reach the share pass; votes that pass miss it by less than a billionth of a vote. */
  lemma AtLeastMeans(votes: nat, total: nat, p: nat)
    ensures votes * ONE >= total * p ==> AtLeast(votes, total, p)
    ensures AtLeast(votes, total, p) ==> (votes * PRECISION + 1) * PRECISION > total * p
  {
    assert ONE == PRECISION * PRECISION;
    assert total * PRECISION * p == total * p * PRECISION;
    DivBounds(total * p * PRECISION, ONE);
    FloorAtLeast(votes, total * p);
  }

  lemma FloorAtLeast(votes: nat, need: nat)
    ensures votes * ONE >= need ==> votes * PRECISION >= need * PRECISION / ONE
    ensures votes * PRECISION >= need * PRECISION / ONE ==> (votes * PRECISION + 1) * PRECISION > need
  {
    var q := need * PRECISION / ONE;
    DivBounds(need * PRECISION, ONE);
    assert ONE == PRECISION * PRECISION;
  }

  /** At expiry a quorum proposal passes exactly when enough have voted and enough of the deciding votes say yes. */
  lemma PassesAtExpiryExactly(p: Proposal, b: Block)
    requires p.threshold.ThresholdQuorum? && p.expiration.IsExpired(b) && p.votes.Total() < U128
    ensures IsPassed(p, b) == Ok((
      && 0 < p.totalPower
      && (match p.threshold.quorum case Majority => p.totalPower < 2 * p.votes.Total()
          case Percent(q) => AtLeast(p.votes.Total(), p.totalPower, q))
      && 0 < p.votes.yes + p.votes.no
      && (match p.threshold.threshold case Majority => p.votes.no < p.votes.yes
          case Percent(q) => AtLeast(p.votes.yes, p.totalPower, q)), false))
  {
  }

  // ----- calls

  /** The counter of `vote` gains `power`, the counter of the replaced ballot loses its power. */
  ghost predicate Counted(before: Votes, old_: Option<Ballot>, power: nat, vote: Vote, after: Votes) {
    forall v: Vote :: Count(after, v)
      == Count(before, v) + (if v == vote then power else 0) - (if old_.Some? && old_.value.vote == v then old_.value.power else 0)
  }

  function BallotOf(s: State, id: Id, voter: Addr): Option<Ballot> {
    if (id, voter) in s.ballots then Some(s.ballots[(id, voter)]) else None
  }

  /** A vote that goes through stores exactly what was cast and counts it where it belongs. */
  lemma VoteOutcome(s: State, b: Block, id: Id, voter: Addr, power: nat, total: nat, vote: Vote)
    requires CastVote(s, b, id, voter, power, total, vote).Ok?
    ensures var s1 := CastVote(s, b, id, voter, power, total, vote).value;
            && id in s.proposals && id in s1.proposals && 0 < power
            && s1 == s.(proposals := s.proposals[id := s1.proposals[id]], ballots := s.ballots[(id, voter) := Ballot(power, vote)])
            && Counted(s.proposals[id].votes, BallotOf(s, id, voter), power, vote, s1.proposals[id].votes)
            && s1.proposals[id] == s.proposals[id].(votes := s1.proposals[id].votes, totalPower := total, status := s1.proposals[id].status)
            && CurrentStatus(s.proposals[id].(votes := s1.proposals[id].votes, totalPower := total), b) == Ok(s1.proposals[id].status)
  {
    var s1 := CastVote(s, b, id, voter, power, total, vote).value;
    var p, key := s.proposals[id], (id, voter);
    var kept := if key in s.ballots then RemoveVote(p.votes, s.ballots[key].vote, s.ballots[key].power).value else p.votes;
    CountsMove(s, id, voter, power, vote, kept, s1.proposals[id].votes);
  }

  /** A proposal starts without votes under the next number, and its deposit is locked. */
  lemma ProposeOutcome(s: State, b: Block, sender: Addr, power: nat, expiration: Expiration)
    requires Propose(s, b, sender, power, expiration).Ok?
    ensures Get(s.locked, sender) + s.limit <= power && 0 < power
    ensures var s1 := Propose(s, b, sender, power, expiration).value;
            var id := s.count + 1;
            && id in s1.proposals
            && s1 == s.(count := id, proposals := s.proposals[id := s1.proposals[id]],
                        locked := s.locked[sender := Get(s.locked, sender) + s.limit])
            && s1.proposals[id] == Proposal(sender, expiration, s.threshold, s1.proposals[id].status, NO_VOTES, false, 0, b.time / NANOS)
  {
  }

  /** Executing takes a passed proposal, releases its deposit, and changes nothing but its status. */
  lemma ExecuteOutcome(s: State, b: Block, id: Id, power: nat)
    requires Execute(s, b, id, power).Ok?
    ensures var s1 := Execute(s, b, id, power).value;
            && id in s.proposals && 0 < power && CurrentStatus(s.proposals[id], b) == Ok(Passed)
            && s.limit <= Get(s.locked, s.proposals[id].proposer)
            && s1 == s.(proposals := s.proposals[id := s.proposals[id].(status := Executed)],
                        locked := s.locked[s.proposals[id].proposer := Get(s.locked, s.proposals[id].proposer) - s.limit])
  {
  }

  /** Closing takes a rejected proposal past its hold time and releases its deposit. */
  lemma CloseOutcome(s: State, b: Block, id: Id)
    requires Close(s, b, id).Ok?
    ensures var s1 := Close(s, b, id).value;
            && id in s.proposals && CurrentStatus(s.proposals[id], b) == Ok(Rejected)
            && s.proposals[id].start + s.holdSeconds <= b.time / NANOS
            && s.limit <= Get(s.locked, s.proposals[id].proposer)
            && s1 == s.(proposals := s.proposals[id := s.proposals[id].(status := Status.Closed)],
                        locked := s.locked[s.proposals[id].proposer := Get(s.locked, s.proposals[id].proposer) - s.limit])
  {
  }
}
