/**
 * Turning choice powers into whole percentages for the upstream gauge: floors first, then one
 * point more for each of the smallest until a hundred is reached.
 */
module Apportionment {
  import opened Prelude
  import opened Decimals

  type Pool = string

  const U32: nat := 0x1_0000_0000

  datatype Choice = Choice(pool: Pool, power: nat)

  /** A `MultipleChoiceVote`: an entry of the emitted list, or of a voter's list. */
  datatype Share = Share(pool: Pool, percentage: nat)

  /** `calculate_vote_result`: the quotient is cast to `u32`, dropping higher bits. */
  function PercentOf(power: nat, total: nat): nat
    requires 0 < total
  {
    power * 100 / total % U32
  }

  function Floors(choices: seq<Choice>, total: nat): (s: seq<Share>)
    requires 0 < total
    ensures |s| == |choices|
    ensures forall i :: 0 <= i < |s| ==> s[i] == Share(choices[i].pool, PercentOf(choices[i].power, total))
  {
    seq(|choices|, i requires 0 <= i < |choices| => Share(choices[i].pool, PercentOf(choices[i].power, total)))
  }

  function Percents(s: seq<Share>): nat {
    if s == [] then 0 else Percents(s[..|s| - 1]) + s[|s| - 1].percentage
  }

  function Powers(choices: seq<Choice>): nat {
    if choices == [] then 0 else Powers(choices[..|choices| - 1]) + choices[|choices| - 1].power
  }

  // ----- the stable sort, biggest first

  function InsertShare(s: seq<Share>, x: Share): seq<Share> {
    if s != [] && s[|s| - 1].percentage < x.percentage
    then InsertShare(s[..|s| - 1], x) + [s[|s| - 1]]
    else s + [x]
  }

  function SortShares(s: seq<Share>): seq<Share> {
    if s == [] then [] else InsertShare(SortShares(s[..|s| - 1]), s[|s| - 1])
  }

  function Raise(x: Share): Share {
    x.(percentage := x.percentage + 1)
  }

  /** The last `k` entries, last first, each raised by a point. */
  function Popped(s: seq<Share>, k: nat): (r: seq<Share>)
    requires k <= |s|
    ensures |r| == k
  {
    if k == 0 then [] else Popped(s, k - 1) + [Raise(s[|s| - k])]
  }

  /** `get_execution_message`: the list put into the vote message. */
  function ExecutionVotes(choices: seq<Choice>, total: nat): Result<seq<Share>> {
    if choices != [] && total == 0 then Err
    else
      var floors := if choices == [] then [] else Floors(choices, total);
      var sum := Percents(floors);
      if sum >= U32 then Err
      else if sum >= 100 then Ok([])
      else
        var sorted := SortShares(floors);
        var k := 100 - sum;
        if k > |sorted| then Err
        else Ok(Popped(sorted, k) + sorted[..|sorted| - k])
  }

  // ----- what the sort does

  ghost predicate Descends(s: seq<Share>) {
    forall i, j :: 0 <= i < j < |s| ==> s[i].percentage >= s[j].percentage
  }

  lemma {:induction false} PercentsAppend(a: seq<Share>, b: seq<Share>)
    ensures Percents(a + b) == Percents(a) + Percents(b)
  {
    if b == [] {
      assert a + b == a;
    } else {
      PercentsAppend(a, b[..|b| - 1]);
      assert (a + b)[..|a + b| - 1] == a + b[..|b| - 1];
    }
  }

  lemma {:induction false} InsertPercents(s: seq<Share>, x: Share)
    ensures Percents(InsertShare(s, x)) == Percents(s) + x.percentage
  {
    var r := InsertShare(s, x);
    if s != [] && s[|s| - 1].percentage < x.percentage {
      InsertPercents(s[..|s| - 1], x);
      assert r[..|r| - 1] == InsertShare(s[..|s| - 1], x);
    } else {
      assert r[..|r| - 1] == s;
    }
  }

  lemma {:induction false} InsertMembers(s: seq<Share>, x: Share)
    ensures multiset(InsertShare(s, x)) == multiset(s) + multiset{x}
    ensures |InsertShare(s, x)| == |s| + 1
  {
    if s != [] && s[|s| - 1].percentage < x.percentage {
      InsertMembers(s[..|s| - 1], x);
      assert s == s[..|s| - 1] + [s[|s| - 1]];
    }
  }

  lemma {:induction false} InsertDescends(s: seq<Share>, x: Share)
    requires Descends(s)
    ensures Descends(InsertShare(s, x))
    ensures forall y :: y in InsertShare(s, x) ==> y == x || y in s
  {
    if s != [] && s[|s| - 1].percentage < x.percentage {
      var before, last := s[..|s| - 1], s[|s| - 1];
      InsertDescends(before, x);
      var r := InsertShare(before, x);
      forall i | 0 <= i < |r| ensures r[i].percentage >= last.percentage {
        assert r[i] in r;
      }
    }
  }

  lemma {:induction false} SortMembers(s: seq<Share>)
    ensures multiset(SortShares(s)) == multiset(s)
  {
    if s != [] {
      var before := s[..|s| - 1];
      SortMembers(before);
      InsertMembers(SortShares(before), s[|s| - 1]);
      assert s == before + [s[|s| - 1]];
    }
  }

  lemma {:induction false} SortDescends(s: seq<Share>)
    ensures Descends(SortShares(s))
    ensures |SortShares(s)| == |s| && Percents(SortShares(s)) == Percents(s)
  {
    if s != [] {
      var before := s[..|s| - 1];
      SortDescends(before);
      InsertDescends(SortShares(before), s[|s| - 1]);
      InsertMembers(SortShares(before), s[|s| - 1]);
      InsertPercents(SortShares(before), s[|s| - 1]);
    }
  }

  /** Sorting gives the same entries, highest percentage first. */
  lemma SortSorts(s: seq<Share>)
    ensures Descends(SortShares(s)) && multiset(SortShares(s)) == multiset(s)
    ensures |SortShares(s)| == |s| && Percents(SortShares(s)) == Percents(s)
  {
    SortMembers(s);
    SortDescends(s);
  }

  /** Entries of one percentage, in the order they stand. */
  function Only(s: seq<Share>, p: nat): seq<Share> {
    if s == [] then []
    else Only(s[..|s| - 1], p) + if s[|s| - 1].percentage == p then [s[|s| - 1]] else []
  }

  lemma {:induction false} InsertIsStable(s: seq<Share>, x: Share, p: nat)
    requires Descends(s)
    ensures Only(InsertShare(s, x), p) == Only(s, p) + if x.percentage == p then [x] else []
  {
    var r := InsertShare(s, x);
    if s != [] && s[|s| - 1].percentage < x.percentage {
      InsertIsStable(s[..|s| - 1], x, p);
      assert r[..|r| - 1] == InsertShare(s[..|s| - 1], x);
    } else {
      assert r[..|r| - 1] == s;
    }
  }

  /** The sort is stable: entries with equal percentages keep their order. */
  lemma {:induction false} SortIsStable(s: seq<Share>, p: nat)
    ensures Only(SortShares(s), p) == Only(s, p)
  {
    if s != [] {
      SortIsStable(s[..|s| - 1], p);
      SortSorts(s[..|s| - 1]);
      InsertIsStable(SortShares(s[..|s| - 1]), s[|s| - 1], p);
    }
  }

  // ----- what is emitted

  /** `k` entries with their extra point taken off again, then the rest. */
  function Unraised(votes: seq<Share>, k: nat): seq<Share>
    requires k <= |votes| && forall i :: 0 <= i < k ==> 0 < votes[i].percentage
  {
    seq(|votes|, i requires 0 <= i < |votes| =>
      if i < k then votes[i].(percentage := votes[i].percentage - 1) else votes[i])
  }

  lemma {:induction false} PoppedEntries(s: seq<Share>, k: nat)
    requires k <= |s|
    ensures forall i :: 0 <= i < k ==> Popped(s, k)[i] == Raise(s[|s| - 1 - i])
  {
    if 0 < k {
      PoppedEntries(s, k - 1);
    }
  }

  lemma PercentsOne(x: Share)
    ensures Percents([x]) == x.percentage
  {
  }

  lemma {:induction false} PoppedPercents(s: seq<Share>, k: nat)
    requires k <= |s|
    ensures Percents(Popped(s, k)) == Percents(s[|s| - k..]) + k
  {
    if k == 0 {
      assert s[|s|..] == [];
    } else {
      PoppedPercents(s, k - 1);
      PercentsSnoc(Popped(s, k - 1), Raise(s[|s| - k]));
      PercentsSuffix(s, |s| - k);
    }
  }

  lemma PercentsSuffix(s: seq<Share>, i: nat)
    requires i < |s|
    ensures Percents(s[i..]) == s[i].percentage + Percents(s[i + 1..])
  {
    assert s[i..] == [s[i]] + s[i + 1..];
    PercentsCons(s[i], s[i + 1..]);
  }

  lemma PercentsSnoc(s: seq<Share>, x: Share)
    ensures Percents(s + [x]) == Percents(s) + x.percentage
  {
    assert (s + [x])[..|s|] == s;
  }

  lemma PercentsCons(x: Share, s: seq<Share>)
    ensures Percents([x] + s) == x.percentage + Percents(s)
  {
    PercentsAppend([x], s);
    PercentsOne(x);
  }

  lemma PoppedIs(s: seq<Share>, k: nat)
    requires k <= |s|
    ensures forall i :: 0 <= i < k ==> Popped(s, k)[i] == Raise(s[|s| - 1 - i])
    ensures Percents(Popped(s, k)) == Percents(s[|s| - k..]) + k
  {
    PoppedEntries(s, k);
    PoppedPercents(s, k);
  }

  lemma {:induction false} ReverseMultiset(s: seq<Share>, r: seq<Share>)
    requires |r| == |s| && forall i :: 0 <= i < |s| ==> r[i] == s[|s| - 1 - i]
    ensures multiset(r) == multiset(s)
  {
    if s != [] {
      ReverseMultiset(s[1..], r[..|r| - 1]);
      assert s == [s[0]] + s[1..] && r == r[..|r| - 1] + [s[0]];
    }
  }

  /** The two parts of the list: the popped tail of the sorted floors, and what was left of them. */
  lemma EmittedParts(choices: seq<Choice>, total: nat) returns (k: nat, head: seq<Share>, tail: seq<Share>)
    requires choices != [] && 0 < total && ExecutionVotes(choices, total).Ok?
    requires ExecutionVotes(choices, total).value != []
    ensures k == 100 - Percents(Floors(choices, total)) && 0 < k == |tail|
    ensures SortShares(Floors(choices, total)) == head + tail
    ensures ExecutionVotes(choices, total).value == Popped(head + tail, k) + head
  {
    var sorted := SortShares(Floors(choices, total));
    k := 100 - Percents(Floors(choices, total));
    head, tail := sorted[..|sorted| - k], sorted[|sorted| - k..];
    assert sorted == head + tail;
  }

  /** Whole percentages: a list that is emitted and not empty adds up to exactly a hundred. */
  lemma EmittedSumsToHundred(choices: seq<Choice>, total: nat)
    requires choices != [] && 0 < total && ExecutionVotes(choices, total).Ok?
    requires ExecutionVotes(choices, total).value != []
    ensures Percents(ExecutionVotes(choices, total).value) == 100
  {
    var k, head, tail := EmittedParts(choices, total);
    PoppedIs(head + tail, k);
    assert (head + tail)[|head|..] == tail;
    PercentsAppend(head, tail);
    PercentsAppend(Popped(head + tail, k), head);
    SortSorts(Floors(choices, total));
  }

  lemma {:induction false} UnraisedEntries(head: seq<Share>, tail: seq<Share>)
    ensures var votes := Popped(head + tail, |tail|) + head;
            && (forall i :: 0 <= i < |tail| ==> votes[i] == Raise(tail[|tail| - 1 - i]))
            && (forall i :: 0 <= i < |tail| ==> 0 < votes[i].percentage)
            && Unraised(votes, |tail|)[|tail|..] == head
            && forall i :: 0 <= i < |tail| ==> Unraised(votes, |tail|)[i] == tail[|tail| - 1 - i]
  {
    var all := head + tail;
    PoppedEntries(all, |tail|);
    var votes := Popped(all, |tail|) + head;
    forall i | 0 <= i < |tail| ensures votes[i] == Raise(tail[|tail| - 1 - i]) {
      assert all[|all| - 1 - i] == tail[|tail| - 1 - i];
    }
  }

  lemma {:induction false} UnraisedParts(head: seq<Share>, tail: seq<Share>)
    ensures var votes := Popped(head + tail, |tail|) + head;
            && (forall i :: 0 <= i < |tail| ==> 0 < votes[i].percentage)
            && multiset(Unraised(votes, |tail|)) == multiset(head + tail)
  {
    UnraisedEntries(head, tail);
    var back := Unraised(Popped(head + tail, |tail|) + head, |tail|);
    ReverseMultiset(tail, back[..|tail|]);
    assert back == back[..|tail|] + head;
  }

  /**
   * Taking the extra points off the first `k` entries gives back every choice with its floor, and
   * no choice that got a point had a larger floor than one that did not.
   */
  lemma EmittedIsApportioned(choices: seq<Choice>, total: nat)
    requires choices != [] && 0 < total && ExecutionVotes(choices, total).Ok?
    requires ExecutionVotes(choices, total).value != []
    ensures var votes, floors := ExecutionVotes(choices, total).value, Floors(choices, total);
            var k := 100 - Percents(floors);
            && 0 < k <= |votes| == |choices|
            && (forall i :: 0 <= i < k ==> 0 < votes[i].percentage)
            && multiset(Unraised(votes, k)) == multiset(floors)
            && forall i, j :: 0 <= i < k <= j < |votes| ==> votes[i].percentage - 1 <= votes[j].percentage
  {
    var k, head, tail := EmittedParts(choices, total);
    SortSorts(Floors(choices, total));
    PoppedIs(head + tail, k);
    UnraisedParts(head, tail);
  }

  /** Nothing is emitted exactly when the floors already reach a hundred. */
  lemma {:induction false} EmittedEmptyExactly(choices: seq<Choice>, total: nat)
    requires choices != [] && 0 < total && Percents(Floors(choices, total)) < U32
    ensures ExecutionVotes(choices, total) == Ok([]) <==> 100 <= Percents(Floors(choices, total))
  {
    if Percents(Floors(choices, total)) < 100 && ExecutionVotes(choices, total).Ok? {
      PoppedIs(SortShares(Floors(choices, total)), 100 - Percents(Floors(choices, total)));
    }
  }

  // ----- when the pop loop runs out

  /** The floors against the powers: together they miss less than a point per choice. */
  lemma {:induction false} FloorSum(choices: seq<Choice>, total: nat)
    requires 0 < total && forall c :: c in choices ==> c.power <= total
    ensures Percents(Floors(choices, total)) * total <= Powers(choices) * 100
    ensures Powers(choices) * 100 <= (Percents(Floors(choices, total)) + |choices|) * total
    ensures choices != [] ==> Powers(choices) * 100 < (Percents(Floors(choices, total)) + |choices|) * total
  {
    if choices != [] {
      var before, c := choices[..|choices| - 1], choices[|choices| - 1];
      FloorSum(before, total);
      assert Floors(choices, total)[..|choices| - 1] == Floors(before, total);
      NoTruncation(c.power, total);
      OneMoreFloor(Percents(Floors(before, total)), PercentOf(c.power, total), |before|, total);
    }
  }

  lemma OneMoreFloor(f: nat, p: nat, n: nat, total: nat)
    ensures (f + p) * total == f * total + p * total
    ensures (f + p + (n + 1)) * total == (f + n) * total + (p * total + total)
  {
  }

  lemma {:induction false} NoTruncation(power: nat, total: nat)
    requires 0 < total && power <= total
    ensures PercentOf(power, total) == power * 100 / total <= 100
    ensures PercentOf(power, total) * total <= power * 100 < PercentOf(power, total) * total + total
  {
    DivBounds(power * 100, total);
    DivMono(power * 100, total * 100, total);
    DivUnique(total * 100, total, 100);
  }

  lemma {:induction false} PowerWithinSum(choices: seq<Choice>)
    ensures forall c :: c in choices ==> c.power <= Powers(choices)
  {
    if choices != [] {
      var before, last := choices[..|choices| - 1], choices[|choices| - 1];
      PowerWithinSum(before);
      assert choices == before + [last];
      forall c | c in choices ensures c.power <= Powers(choices) {
        assert c in before || c == last;
      }
    }
  }

  lemma {:induction false} CancelTotal(a: int, b: int, c: nat)
    requires 0 < c
    ensures a * c <= b * c ==> a <= b
    ensures a * c < b * c ==> a < b
  {
    MulMono(b + 1, a, c);
    MulMono(b, a, c);
  }

  /** While choice powers stay within the total, the call aborts exactly when the gap exceeds the number of choices. */
  lemma {:induction false} AbortsExactly(choices: seq<Choice>, total: nat)
    requires 0 < total && Powers(choices) <= total
    ensures var sum := if choices == [] then 0 else Percents(Floors(choices, total));
            && sum <= 100
            && (ExecutionVotes(choices, total).Err? <==> 100 - sum > |choices|)
  {
    PowerWithinSum(choices);
    FloorSum(choices, total);
    SortSorts(Floors(choices, total));
    assert choices == [] ==> Floors(choices, total) == [];
    CancelTotal(Percents(Floors(choices, total)), 100, total);
    assert Powers(choices) * 100 <= 100 * total;
  }

  /** When everybody's whole power is spread over the choices, the gap is smaller than their number. */
  lemma FullPowerNeverAborts(choices: seq<Choice>, total: nat)
    requires 0 < total && Powers(choices) == total
    ensures ExecutionVotes(choices, total).Ok?
  {
    AbortsExactly(choices, total);
    PowerWithinSum(choices);
    FloorSum(choices, total);
    assert choices != [];
    CancelTotal(100, Percents(Floors(choices, total)) + |choices|, total);
  }

  /** A single choice with one vote out of a hundred: the ninety-nine missing points run out of entries. */
  lemma ThinVoteAborts()
    ensures ExecutionVotes([Choice("a", 1)], 100) == Err
  {
    var c := [Choice("a", 1)];
    assert c[..0] == [];
    assert Powers(c) == 1;
    var f := Floors(c, 100);
    assert f[..0] == [];
    assert Percents(f) == 1;
    AbortsExactly(c, 100);
  }

  // ----- the loop

  method FloorVotes(choices: seq<Choice>, total: nat) returns (votes: seq<Share>, sum: nat)
    requires choices != [] ==> 0 < total
    ensures votes == if choices == [] then [] else Floors(choices, total)
    ensures sum == Percents(votes)
  {
    votes, sum := [], 0;
    for i := 0 to |choices|
      invariant |votes| == i && sum == Percents(votes)
      invariant forall j :: 0 <= j < i ==> votes[j] == Share(choices[j].pool, PercentOf(choices[j].power, total))
    {
      var amount := PercentOf(choices[i].power, total);
      PercentsSnoc(votes, Share(choices[i].pool, amount));
      votes := votes + [Share(choices[i].pool, amount)];
      sum := sum + amount;
    }
  }

  /** `get_execution_message` as it runs: a vector sorted, popped from the back and appended. */
  method GetExecutionVotes(choices: seq<Choice>, total: nat) returns (r: Result<seq<Share>>)
    ensures r == ExecutionVotes(choices, total)
  {
    if choices != [] && total == 0 {
      return Err;
    }
    var votes, sum := FloorVotes(choices, total);
    if sum >= U32 {
      return Err;
    }
    var finalVotes: seq<Share> := [];
    if sum < 100 {
      votes := SortBigToSmall(votes);
      ghost var sorted := votes;
      var i := 0;
      while i < 100 - sum
        invariant 0 <= i <= 100 - sum && i <= |sorted|
        invariant votes == sorted[..|sorted| - i]
        invariant finalVotes == Popped(sorted, i)
      {
        if votes == [] {
          return Err;
        }
        var vote := votes[|votes| - 1];
        assert vote == sorted[|sorted| - (i + 1)];
        assert Popped(sorted, i + 1) == Popped(sorted, i) + [Raise(vote)];
        assert votes[..|votes| - 1] == sorted[..|sorted| - (i + 1)];
        votes := votes[..|votes| - 1];
        finalVotes := finalVotes + [Raise(vote)];
        i := i + 1;
      }
      finalVotes := finalVotes + votes;
    }
    return Ok(finalVotes);
  }

  /** `sort_by` with the comparison reversed; the standard sort is stable. */
  method SortBigToSmall(votes: seq<Share>) returns (sorted: seq<Share>)
    ensures sorted == SortShares(votes)
  {
    sorted := [];
    for i := 0 to |votes|
      invariant sorted == SortShares(votes[..i])
    {
      assert votes[..i + 1][..i] == votes[..i];
      sorted := InsertShare(sorted, votes[i]);
    }
    assert votes[..|votes|] == votes;
  }
}
