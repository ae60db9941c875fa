/** The group contract: weighted members, a running total, and snapshots of both by height. */
module Group {
  import opened Prelude
  import opened MapSums
  import opened Snapshots

  const U64: nat := 0x1_0000_0000_0000_0000

  datatype Member = Member(addr: Addr, weight: nat)

  /** `MemberDiff`: the weight before and after, absent for a non-member. */
  datatype Diff = Diff(key: Addr, was: Option<nat>, now: Option<nat>)

  /** `TOTAL` is a snapshot of a single cell. */
  datatype State = State(admin: Option<Addr>, members: Snapshot<Addr>, total: Snapshot<()>)

  function TotalNow(s: State): nat {
    Get(s.total.current, ())
  }

  // ----- validate_unique_members

  /** Stable insertion by address. */
  function InsertMember(s: seq<Member>, x: Member): seq<Member> {
    if s != [] && s[|s| - 1].addr > x.addr
    then InsertMember(s[..|s| - 1], x) + [s[|s| - 1]]
    else s + [x]
  }

  function SortMembers(s: seq<Member>): seq<Member> {
    if s == [] then [] else InsertMember(SortMembers(s[..|s| - 1]), s[|s| - 1])
  }

  /** The comparison of neighbours in the sorted list. */
  predicate NeighboursDiffer(s: seq<Member>) {
    forall i :: 0 < i < |s| ==> s[i - 1].addr != s[i].addr
  }

  predicate Unique(s: seq<Member>) {
    forall i, j :: 0 <= i < j < |s| ==> s[i].addr != s[j].addr
  }

  // ----- create and update_members

  /** The loop of `update_members` over the members to add; diffs are collected in order. */
  function AddAll(s: State, adds: seq<Member>, height: nat): Result<(State, nat, seq<Diff>)> {
    if adds == [] then Ok((s, TotalNow(s), []))
    else
      var (s1, total, diffs) :- AddAll(s, adds[..|adds| - 1], height);
      var m := adds[|adds| - 1];
      var was := Now(s1.members, m.addr);
      var lowered :- SubU128(total, if was.Some? then was.value else 0);
      if lowered + m.weight >= U64 then Err
      else Ok((s1.(members := Write(s1.members, m.addr, Some(m.weight), height)), lowered + m.weight,
               diffs + [Diff(m.addr, was, Some(m.weight))]))
  }

  /** The loop over the addresses to remove; strangers are skipped. */
  function RemoveAll(s: State, total: nat, removes: seq<Addr>, height: nat): Result<(State, nat, seq<Diff>)> {
    if removes == [] then Ok((s, total, []))
    else
      var (s1, total1, diffs) :- RemoveAll(s, total, removes[..|removes| - 1], height);
      var a := removes[|removes| - 1];
      match Now(s1.members, a)
      case None => Ok((s1, total1, diffs))
      case Some(weight) =>
        var lowered :- SubU128(total1, weight);
        Ok((s1.(members := Write(s1.members, a, None, height)), lowered, diffs + [Diff(a, Some(weight), None)]))
  }

  function UpdateMembers(s: State, height: nat, sender: Addr, adds: seq<Member>, removes: seq<Addr>): Result<(State, seq<Diff>)> {
    var sorted := SortMembers(adds);
    if !NeighboursDiffer(sorted) || s.admin != Some(sender) then Err
    else
      var (s1, total1, added) :- AddAll(s, sorted, height);
      var (s2, total2, removed) :- RemoveAll(s1, total1, removes, height);
      Ok((s2.(total := Write(s2.total, (), Some(total2), height)), added + removed))
  }

  const EMPTY := State(None, Snapshot(map[], map[]), Snapshot(map[], map[]))

  function Create(admin: Option<Addr>, members: seq<Member>, height: nat): Result<State> {
    var sorted := SortMembers(members);
    if !NeighboursDiffer(sorted) then Err
    else
      var (s1, total, _) :- AddAll(EMPTY.(admin := admin), sorted, height);
      Ok(s1.(total := Write(s1.total, (), Some(total), height)))
  }

  // ----- the uniqueness check

  lemma {:induction false} InsertMembers(s: seq<Member>, x: Member)
    ensures multiset(InsertMember(s, x)) == multiset(s) + multiset{x}
    ensures |InsertMember(s, x)| == |s| + 1
  {
    if s != [] && s[|s| - 1].addr > x.addr {
      InsertMembers(s[..|s| - 1], x);
      assert s == s[..|s| - 1] + [s[|s| - 1]];
    }
  }

  predicate Ascends(s: seq<Member>) {
    forall i, j :: 0 <= i < j < |s| ==> s[i].addr <= s[j].addr
  }

  lemma {:induction false} InsertAscends(s: seq<Member>, x: Member)
    requires Ascends(s)
    ensures Ascends(InsertMember(s, x))
    ensures forall y :: y in InsertMember(s, x) ==> y == x || y in s
  {
    if s != [] && s[|s| - 1].addr > x.addr {
      var before, last := s[..|s| - 1], s[|s| - 1];
      InsertAscends(before, x);
      var r := InsertMember(before, x);
      forall i | 0 <= i < |r| ensures r[i].addr <= last.addr {
        assert r[i] in r;
      }
    }
  }

  lemma {:induction false} SortedMembers(s: seq<Member>)
    ensures Ascends(SortMembers(s)) && multiset(SortMembers(s)) == multiset(s) && |SortMembers(s)| == |s|
  {
    if s != [] {
      var before := s[..|s| - 1];
      SortedMembers(before);
      InsertAscends(SortMembers(before), s[|s| - 1]);
      InsertMembers(SortMembers(before), s[|s| - 1]);
      assert s == before + [s[|s| - 1]];
    }
  }

  function AddressesOf(s: seq<Member>): multiset<Addr> {
    if s == [] then multiset{} else AddressesOf(s[..|s| - 1]) + multiset{s[|s| - 1].addr}
  }

  lemma {:induction false} AddressesAre(s: seq<Member>)
    ensures forall a :: a in AddressesOf(s) <==> exists i :: 0 <= i < |s| && s[i].addr == a
  {
    if s != [] {
      var before := s[..|s| - 1];
      AddressesAre(before);
      forall a ensures a in AddressesOf(s) <==> exists i :: 0 <= i < |s| && s[i].addr == a {
        if a in AddressesOf(before) {
          var i :| 0 <= i < |before| && before[i].addr == a;
          assert s[i].addr == a;
        }
        if i :| 0 <= i < |s| && s[i].addr == a {
          assert i < |before| ==> before[i].addr == a;
        }
      }
    }
  }

  lemma UniqueLonger(s: seq<Member>)
    requires s != []
    ensures var before, last := s[..|s| - 1], s[|s| - 1];
            Unique(s) <==> Unique(before) && forall i :: 0 <= i < |before| ==> before[i].addr != last.addr
  {
    var before := s[..|s| - 1];
    assert forall i :: 0 <= i < |before| ==> before[i] == s[i];
  }

  lemma {:induction false} UniqueMeansOnce(s: seq<Member>)
    ensures Unique(s) <==> forall a :: AddressesOf(s)[a] <= 1
  {
    if s != [] {
      var before, last := s[..|s| - 1], s[|s| - 1];
      UniqueMeansOnce(before);
      UniqueLonger(s);
      AddressesAre(before);
      assert forall a :: AddressesOf(s)[a] == AddressesOf(before)[a] + if a == last.addr then 1 else 0;
      assert last.addr in AddressesOf(before) ==> AddressesOf(s)[last.addr] >= 2;
    }
  }

  lemma {:induction false} AddressesInsert(s: seq<Member>, x: Member)
    ensures AddressesOf(InsertMember(s, x)) == AddressesOf(s) + multiset{x.addr}
  {
    var r := InsertMember(s, x);
    if s != [] && s[|s| - 1].addr > x.addr {
      AddressesInsert(s[..|s| - 1], x);
      assert r[..|r| - 1] == InsertMember(s[..|s| - 1], x);
    } else {
      assert r[..|r| - 1] == s;
    }
  }

  lemma {:induction false} AddressesSorted(s: seq<Member>)
    ensures AddressesOf(SortMembers(s)) == AddressesOf(s)
  {
    if s != [] {
      AddressesSorted(s[..|s| - 1]);
      AddressesInsert(SortMembers(s[..|s| - 1]), s[|s| - 1]);
    }
  }

  lemma SameAddressesSameUniqueness(members: seq<Member>, sorted: seq<Member>)
    requires sorted == SortMembers(members)
    ensures Unique(members) <==> Unique(sorted)
  {
    AddressesSorted(members);
    UniqueMeansOnce(members);
    UniqueMeansOnce(sorted);
  }

  /** Sorting and comparing neighbours accepts exactly the lists without a repeated address. */
  lemma SortCheckIsUniqueness(members: seq<Member>)
    ensures NeighboursDiffer(SortMembers(members)) <==> Unique(members)
    ensures NeighboursDiffer(SortMembers(members)) ==> Unique(SortMembers(members))
  {
    var sorted := SortMembers(members);
    SortedMembers(members);
    SameAddressesSameUniqueness(members, sorted);
    SortedNeighbours(sorted);
  }

  lemma SortedNeighbours(sorted: seq<Member>)
    requires Ascends(sorted)
    ensures NeighboursDiffer(sorted) <==> Unique(sorted)
  {
    if NeighboursDiffer(sorted) {
      forall i, j | 0 <= i < j < |sorted| ensures sorted[i].addr != sorted[j].addr {
        assert sorted[j - 1].addr != sorted[j].addr;
        assert sorted[i].addr <= sorted[j - 1].addr <= sorted[j].addr;
      }
    }
  }

  /** Where an element ends up: after the last one that is not larger. */
  lemma {:induction false} InsertAt(s: seq<Member>, j: nat, x: Member)
    requires j <= |s| && (j == 0 || s[j - 1].addr <= x.addr)
    requires forall k :: j <= k < |s| ==> s[k].addr > x.addr
    ensures InsertMember(s, x) == s[..j] + [x] + s[j..]
  {
    if j < |s| {
      var n := |s| - 1;
      InsertAt(s[..n], j, x);
      assert s[..n][..j] == s[..j] && s[..n][j..] + [s[n]] == s[j..];
    } else {
      assert s[..j] == s && s[j..] == [];
    }
  }

  /** One element sinks into the sorted part before it. */
  method InsertInPlace(members: array<Member>, i: nat)
    requires i < members.Length
    modifies members
    ensures members[..i + 1] == InsertMember(old(members[..i]), old(members[i]))
    ensures forall k :: i < k < members.Length ==> members[k] == old(members[k])
  {
    ghost var sorted := members[..i];
    var x := members[i];
    var j := i;
    while j > 0 && members[j - 1].addr > x.addr
      invariant 0 <= j <= i
      invariant forall k :: 0 <= k < j ==> members[k] == sorted[k]
      invariant forall k :: j < k <= i ==> members[k] == sorted[k - 1]
      invariant forall k :: j <= k < i ==> sorted[k].addr > x.addr
      invariant forall k :: i < k < members.Length ==> members[k] == old(members[k])
    {
      members[j] := members[j - 1];
      j := j - 1;
    }
    members[j] := x;
    InsertAt(sorted, j, x);
    assert members[..i + 1] == sorted[..j] + [x] + sorted[j..];
  }

  method CompareNeighbours(members: array<Member>) returns (ok: bool)
    ensures ok == NeighboursDiffer(members[..])
  {
    var i := 1;
    while i < members.Length
      invariant 1 <= i
      invariant forall k :: 0 < k < i && k < members.Length ==> members[k - 1].addr != members[k].addr
    {
      if members[i - 1].addr == members[i].addr {
        assert members[..][i - 1].addr == members[..][i].addr;
        return false;
      }
      i := i + 1;
    }
    return true;
  }

  /** The check as it runs: the slice is sorted in place, then neighbours are compared. */
  method ValidateUniqueMembers(members: array<Member>) returns (ok: bool)
    modifies members
    ensures members[..] == SortMembers(old(members[..]))
    ensures ok == Unique(old(members[..]))
  {
    ghost var start := members[..];
    for i := 0 to members.Length
      invariant members[..i] == SortMembers(start[..i])
      invariant forall k :: i <= k < members.Length ==> members[k] == start[k]
    {
      assert start[..i + 1][..i] == start[..i];
      InsertInPlace(members, i);
    }
    assert members[..members.Length] == members[..] && start[..members.Length] == start;
    ok := CompareNeighbours(members);
    SortCheckIsUniqueness(start);
  }
}
