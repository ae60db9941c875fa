/**
 * A multiple-choice proposal that mirrors an upstream gauge proposal. Each upstream period is a
 * version with its own ballots. The storage modelled is that of one proposal; another proposal's
 * entries live under other keys and no call reads them.
 */
module MultipleChoice {
  import opened Prelude
  import opened Decimals
  import opened Expirations
  import opened Apportionment

  datatype Status = Open | VotingClosed | Passed | Executed | Closed | ExecutionFailed | Rejected | TimeOut

  datatype Proposal = Proposal(
    expiration: Expiration, pendingPeriod: Duration, status: Status, allowRevoting: bool,
    totalPower: nat, votingStart: nat, choices: seq<Choice>)

  datatype Ballot = Ballot(power: nat, vote: Share)

  datatype Snapshot = Snapshot(status: Status, totalPower: nat, choices: seq<Choice>, votingStart: nat, expiration: Expiration)

  /** What the upstream gauge answers. */
  datatype Upstream = Upstream(expiration: Expiration, votingStart: nat, pools: set<Pool>)

  type Key = (nat, Addr, Pool)

  datatype State = State(prop: Proposal, version: nat, ballots: map<Key, Ballot>, history: map<nat, Snapshot>)

  /** `current_status_custom` */
  function CurrentStatus(p: Proposal, b: Block): Status {
    if p.status == Open && p.expiration.IsExpiredAhead(b, p.pendingPeriod) then VotingClosed else p.status
  }

  /** `update_status`: this one waits for the deadline itself. */
  function Refreshed(p: Proposal, b: Block): Proposal {
    if p.status == Open && p.expiration.IsExpired(b) then p.(status := VotingClosed) else p
  }

  function Record(s: State, p: Proposal): State {
    s.(history := s.history[s.version := Snapshot(p.status, p.totalPower, p.choices, p.votingStart, p.expiration)])
  }

  function Zeroed(choices: seq<Choice>): (r: seq<Choice>)
    ensures |r| == |choices|
    ensures forall i :: 0 <= i < |r| ==> r[i] == Choice(choices[i].pool, 0)
  {
    seq(|choices|, i requires 0 <= i < |choices| => Choice(choices[i].pool, 0))
  }

  /** `advance_proposal_version` and the history entry of `update_props`; the proposal is not saved. */
  function Advance(s: State): Result<State> {
    var version :- AddU128(s.version, 1);
    Ok(Record(s.(version := version), s.prop.(status := TimeOut)))
  }

  /** The proposal as `update_props` leaves it in memory. */
  function Restarted(p: Proposal, up: Upstream): Proposal {
    p.(status := Open, votingStart := up.votingStart, expiration := up.expiration, totalPower := 0, choices := Zeroed(p.choices))
  }

  // ----- voting

  /** The first choice with this pool. */
  function Position(choices: seq<Choice>, pool: Pool): (i: nat)
    ensures i <= |choices|
    ensures i < |choices| ==> choices[i].pool == pool
    ensures forall j :: 0 <= j < i ==> choices[j].pool != pool
  {
    if choices == [] || choices[0].pool == pool then 0 else 1 + Position(choices[1..], pool)
  }

  /** `power * percentage / 100`; percentages were checked to add to at most a hundred. */
  function Assigned(power: nat, percentage: nat): nat {
    power * percentage / 100
  }

  /** One turn of the loop of `execute_vote`. */
  function CastOne(p: Proposal, ballots: map<Key, Ballot>, version: nat, voter: Addr, power: nat, item: Share): Result<(Proposal, map<Key, Ballot>)> {
    var i := Position(p.choices, item.pool);
    var key := (version, voter, item.pool);
    if i == |p.choices| then Err
    else if key in ballots && p.allowRevoting && ballots[key].vote == item then Err
    else
      var was := if key in ballots then ballots[key].power else 0;
      var kept :- SubU128(p.choices[i].power, was);
      var total :- SubU128(p.totalPower, was);
      var now :- AddU128(kept, Assigned(power, item.percentage));
      Ok((p.(choices := p.choices[i := Choice(item.pool, now)], totalPower := total),
          ballots[key := Ballot(Assigned(power, item.percentage), item)]))
  }

  function CastAll(p: Proposal, ballots: map<Key, Ballot>, version: nat, voter: Addr, power: nat, items: seq<Share>): Result<(Proposal, map<Key, Ballot>)> {
    if items == [] then Ok((p, ballots))
    else
      var (p1, ballots1) :- CastAll(p, ballots, version, voter, power, items[..|items| - 1]);
      CastOne(p1, ballots1, version, voter, power, items[|items| - 1])
  }

  /** `execute_vote` once the status is settled: the loop, the total, the save. */
  function CastVote(s: State, b: Block, voter: Addr, power: nat, items: seq<Share>): Result<State> {
    if Percents(items) > 100 then Err
    else
      var (p, ballots) :- CastAll(s.prop, s.ballots, s.version, voter, power, items);
      var total :- AddU128(p.totalPower, power);
      Ok(s.(prop := Refreshed(p.(totalPower := total), b), ballots := ballots))
  }

  /** The version has to roll over before anyone can vote again. */
  predicate MustRoll(status: Status) {
    status == Executed || status == ExecutionFailed || status == Rejected || status == VotingClosed
  }

  function Vote(s: State, b: Block, up: Upstream, voter: Addr, power: nat, items: seq<Share>): Result<State> {
    var status := CurrentStatus(s.prop, b);
    if |items| > |s.prop.choices| || power == 0 || status == Closed then Err
    else if !MustRoll(status) then CastVote(s, b, voter, power, items)
    else if !up.expiration.Later(s.prop.expiration) then Err
    else
      var s1 :- Advance(s);
      CastVote(s1.(prop := Restarted(s.prop, up)), b, voter, power, items)
  }

  // ----- the other calls

  /** `execute_execute`: the message list is what the upstream gauge will be asked to vote. */
  function Execute(s: State, b: Block, up: Upstream, power: nat): Result<(State, seq<Share>)> {
    if power == 0 || CurrentStatus(s.prop, b) != VotingClosed then Err
    else if up.expiration.Later(s.prop.expiration) then
      var s1 :- Advance(s);
      Ok((s1, []))
    else
      var votes :- ExecutionVotes(s.prop.choices, s.prop.totalPower);
      var p := s.prop.(status := Executed);
      Ok((Record(s.(prop := p), p), votes))
  }

  function Reject(s: State, b: Block, up: Upstream, power: nat): Result<State> {
    if power == 0 || CurrentStatus(s.prop, b) != VotingClosed then Err
    else if up.expiration.Later(s.prop.expiration) then Advance(s)
    else
      var p := s.prop.(status := Rejected);
      Ok(Record(s.(prop := p), p))
  }

  /** `execute_close`, as far as the proposal goes. */
  function Close(s: State): State {
    s.(prop := s.prop.(status := Status.Closed))
  }

  function NewChoices(pools: seq<Pool>): (r: seq<Choice>)
    ensures |r| == |pools|
    ensures forall i :: 0 <= i < |r| ==> r[i] == Choice(pools[i], 0)
  {
    seq(|pools|, i requires 0 <= i < |pools| => Choice(pools[i], 0))
  }

  function AddChoices(s: State, up: Upstream, pools: seq<Pool>): Result<State> {
    if exists q :: q in pools && (q !in up.pools || Position(s.prop.choices, q) < |s.prop.choices|) then Err
    else Ok(s.(prop := s.prop.(choices := s.prop.choices + NewChoices(pools))))
  }

  function Without(choices: seq<Choice>, pools: seq<Pool>): seq<Choice> {
    if choices == [] then []
    else
      var last := choices[|choices| - 1];
      Without(choices[..|choices| - 1], pools) + if last.pool in pools then [] else [last]
  }

  function RemoveChoices(s: State, pools: seq<Pool>): State {
    s.(prop := s.prop.(choices := Without(s.prop.choices, pools)))
  }
}
