/**
 * The single-choice proposal contract: thresholds, passing before and after expiry, voting with
 * ballots that can be replaced, executing and closing, and the proposer's locked deposit.
 */
module SingleChoice {
  import opened Prelude
  import opened Decimals
  import opened Expirations

  datatype Vote = Yes | No | Abstain

  datatype Votes = Votes(yes: nat, no: nat, abstain: nat) {
    function Total(): nat { yes + no + abstain }
  }

  const NO_VOTES := Votes(0, 0, 0)

  datatype Percentage = Majority | Percent(p: nat)

  datatype Threshold =
    | AbsolutePercentage(percentage: Percentage)
    | ThresholdQuorum(threshold: Percentage, quorum: Percentage)
    | AbsoluteCount(count: nat)

  const PRECISION: nat := 1_000_000_000

  /** `compare_vote_count` with `Geq`: both sides scaled by 10^9, the product floored, in 256 bits. */
  predicate AtLeast(votes: nat, total: nat, p: nat) {
    votes * PRECISION >= total * PRECISION * p / ONE
  }

  /** `does_vote_count_pass` */
  predicate CountPasses(votes: nat, options: nat, power: nat, percentage: Percentage) {
    options != 0 &&
    match percentage
    case Majority => 2 * votes > options
    case Percent(p) => AtLeast(votes, power, p)
  }

  datatype Status = Open | Rejected | Passed | Executed | Closed | ExecutionFailed

  datatype Proposal = Proposal(
    proposer: Addr, expiration: Expiration, threshold: Threshold, status: Status, votes: Votes,
    allowRevoting: bool, totalPower: nat, start: nat)

  /** `is_passed`: the answer, and whether a description is attached. Subtractions can abort. */
  function IsPassed(p: Proposal, b: Block): Result<(bool, bool)> {
    var expired := p.expiration.IsExpired(b);
    if p.allowRevoting && !expired then Ok((false, false))
    else match p.threshold
      case AbsolutePercentage(percentage) =>
        if !expired then Ok((false, true))
        else if p.votes.Total() >= U128 then Err
        else Ok((CountPasses(p.votes.yes, p.votes.yes + p.votes.no, p.totalPower, percentage), false))
      case ThresholdQuorum(threshold, quorum) =>
        if p.votes.Total() >= U128 then Err
        else if !CountPasses(p.votes.Total(), p.totalPower, p.totalPower, quorum) then Ok((false, false))
        else if expired then Ok((CountPasses(p.votes.yes, p.votes.yes + p.votes.no, p.totalPower, threshold), false))
        else
          var options :- SubU128(p.totalPower, p.votes.abstain);
          Ok((CountPasses(p.votes.yes, options, p.totalPower, threshold), false))
      case AbsoluteCount(count) => Ok((p.votes.yes >= count, false))
  }

  /** `current_status` */
  function CurrentStatus(p: Proposal, b: Block): Result<Status> {
    if p.status != Open then Ok(p.status)
    else
      var (passed, _) :- IsPassed(p, b);
      Ok(if p.expiration.IsExpired(b) && !passed then Rejected else if passed then Passed else Open)
  }

  function Updated(p: Proposal, b: Block): Result<Proposal> {
    var status :- CurrentStatus(p, b);
    Ok(p.(status := status))
  }

  function AddVote(v: Votes, vote: Vote, power: nat): Result<Votes> {
    match vote
    case Yes =>
      var n :- AddU128(v.yes, power);
      Ok(v.(yes := n))
    case No =>
      var n :- AddU128(v.no, power);
      Ok(v.(no := n))
    case Abstain =>
      var n :- AddU128(v.abstain, power);
      Ok(v.(abstain := n))
  }

  function RemoveVote(v: Votes, vote: Vote, power: nat): Result<Votes> {
    match vote
    case Yes =>
      var n :- SubU128(v.yes, power);
      Ok(v.(yes := n))
    case No =>
      var n :- SubU128(v.no, power);
      Ok(v.(no := n))
    case Abstain =>
      var n :- SubU128(v.abstain, power);
      Ok(v.(abstain := n))
  }

  datatype Ballot = Ballot(power: nat, vote: Vote)

  type Id = nat

  datatype State = State(
    threshold: Threshold, limit: nat, holdSeconds: nat,
    count: nat, proposals: map<Id, Proposal>, ballots: map<(Id, Addr), Ballot>, locked: map<Addr, nat>)

  /** `execute_propose`, once the voting period is accepted; `expiration` is `period.after(block)`. */
  function Propose(s: State, b: Block, sender: Addr, power: nat, expiration: Expiration): Result<State> {
    if power == 0 then Err
    else
      var held := Get(s.locked, sender);
      var free :- SubU128(power, held);
      if free < s.limit then Err
      else
        var locked :- AddU128(held, s.limit);
        var p :- Updated(Proposal(sender, expiration, s.threshold, Open, NO_VOTES, false, 0, b.time / NANOS), b);
        Ok(s.(count := s.count + 1, proposals := s.proposals[s.count + 1 := p], locked := s.locked[sender := locked]))
  }

  /** `execute_vote`; `total` is the DAO's total power at this block. */
  function CastVote(s: State, b: Block, id: Id, sender: Addr, power: nat, total: nat, vote: Vote): Result<State> {
    if id !in s.proposals || power == 0 then Err
    else
      var p := s.proposals[id];
      var key := (id, sender);
      if p.expiration.IsExpired(b) || p.status == Executed || p.status == Closed then Err
      else if key in s.ballots && p.allowRevoting && s.ballots[key].vote == vote then Err
      else
        var kept :- if key in s.ballots then RemoveVote(p.votes, s.ballots[key].vote, s.ballots[key].power) else Ok(p.votes);
        var votes :- AddVote(kept, vote, power);
        var p1 :- Updated(p.(votes := votes, totalPower := total), b);
        Ok(s.(proposals := s.proposals[id := p1], ballots := s.ballots[key := Ballot(power, vote)]))
  }

  function Release(s: State, proposer: Addr): Result<State> {
    var locked :- SubU128(Get(s.locked, proposer), s.limit);
    Ok(s.(locked := s.locked[proposer := locked]))
  }

  /** `execute_execute` */
  function Execute(s: State, b: Block, id: Id, power: nat): Result<State> {
    if id !in s.proposals || power == 0 then Err
    else
      var p := s.proposals[id];
      var s1 :- Release(s, p.proposer);
      var (_, described) :- IsPassed(p, b);
      if described then Err
      else
        var p1 :- Updated(p, b);
        if p1.status != Passed then Err
        else Ok(s1.(proposals := s.proposals[id := p1.(status := Executed)]))
  }

  /** `execute_close` */
  function Close(s: State, b: Block, id: Id): Result<State> {
    if id !in s.proposals then Err
    else
      var p := s.proposals[id];
      if p.start + s.holdSeconds > b.time / NANOS then Err
      else
        var p1 :- Updated(p, b);
        if p1.status != Rejected then Err
        else
          var s1 :- Release(s, p.proposer);
          Ok(s1.(proposals := s.proposals[id := p1.(status := Closed)]))
  }
}
