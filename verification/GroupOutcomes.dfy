/** What an update asks for is what the group becomes, address by address. */
module GroupOutcomes {
  import opened Prelude
  import opened MapSums
  import opened Snapshots
  import opened Group
  import opened GroupLaws

  /** The weight a list of distinct members gives an address. */
  function Listed(adds: seq<Member>, a: Addr): Option<nat> {
    if adds == [] then None
    else if adds[|adds| - 1].addr == a then Some(adds[|adds| - 1].weight)
    else Listed(adds[..|adds| - 1], a)
  }

  /** Removed addresses are out, listed ones have the listed weight, all others are as before. */
  function Asked(was: Option<nat>, adds: seq<Member>, removes: seq<Addr>, a: Addr): Option<nat> {
    if a in removes then None
    else if Listed(adds, a).Some? then Listed(adds, a)
    else was
  }

  lemma {:induction false} ListedIs(adds: seq<Member>, a: Addr)
    requires Unique(adds)
    ensures Listed(adds, a).None? <==> forall m :: m in adds ==> m.addr != a
    ensures forall m :: m in adds && m.addr == a ==> Listed(adds, a) == Some(m.weight)
  {
    if adds != [] {
      var before, last := adds[..|adds| - 1], adds[|adds| - 1];
      ListedIs(before, a);
      assert adds == before + [last];
      assert forall m :: m in adds <==> m in before || m == last;
      forall m | m in before ensures m.addr != last.addr {
        var i :| 0 <= i < |before| && before[i] == m;
        assert adds[i].addr != adds[|adds| - 1].addr;
      }
    }
  }

  /** Sorting does not change what is asked. */
  lemma SortedListsTheSame(adds: seq<Member>, a: Addr)
    requires Unique(adds)
    ensures Unique(SortMembers(adds)) && Listed(SortMembers(adds), a) == Listed(adds, a)
  {
    SortCheckIsUniqueness(adds);
    SortedMembers(adds);
    ListedIs(adds, a);
    ListedIs(SortMembers(adds), a);
    assert forall m :: m in adds <==> m in multiset(adds);
    assert forall m :: m in SortMembers(adds) <==> m in multiset(SortMembers(adds));
    if Listed(adds, a).Some? {
      var m :| m in adds && m.addr == a;
      assert m in SortMembers(adds);
    }
  }

  lemma {:induction false} AddsWritten(s: State, adds: seq<Member>, height: nat, a: Addr)
    requires AddAll(s, adds, height).Ok?
    ensures var s1 := AddAll(s, adds, height).value.0;
            && s1 == s.(members := s1.members)
            && Now(s1.members, a) == if Listed(adds, a).Some? then Listed(adds, a) else Now(s.members, a)
  {
    if adds != [] {
      AddsWritten(s, adds[..|adds| - 1], height, a);
    }
  }

  lemma {:induction false} RemovesWritten(s: State, total: nat, removes: seq<Addr>, height: nat, a: Addr)
    requires RemoveAll(s, total, removes, height).Ok?
    ensures var s1 := RemoveAll(s, total, removes, height).value.0;
            && s1 == s.(members := s1.members)
            && Now(s1.members, a) == if a in removes then None else Now(s.members, a)
  {
    if removes != [] {
      var before, last := removes[..|removes| - 1], removes[|removes| - 1];
      RemovesWritten(s, total, before, height, a);
      assert a in removes <==> a in before || a == last;
    }
  }

  function WeightOf(adds: seq<Member>): nat {
    if adds == [] then 0 else WeightOf(adds[..|adds| - 1]) + adds[|adds| - 1].weight
  }

  lemma {:induction false} AddsFit(s: State, adds: seq<Member>, height: nat)
    requires Law(s) && TotalNow(s) + WeightOf(adds) < U64
    ensures AddAll(s, adds, height).Ok? && AddAll(s, adds, height).value.1 <= TotalNow(s) + WeightOf(adds)
  {
    if adds != [] {
      AddsFit(s, adds[..|adds| - 1], height);
      AddAllProgress(s, adds[..|adds| - 1], height);
      var (s1, total, _) := AddAll(s, adds[..|adds| - 1], height).value;
      EntryWithinTotal(s1.members.current, adds[|adds| - 1].addr);
    }
  }

  /**
   * While the weights fit, an update is refused only for a repeated address or a sender who is not
   * the admin; it makes the membership exactly what was asked, and leaves the admin.
   */
  lemma UpdateOutcome(s: State, height: nat, sender: Addr, adds: seq<Member>, removes: seq<Addr>, a: Addr)
    requires Law(s) && TotalNow(s) + WeightOf(SortMembers(adds)) < U64
    ensures UpdateMembers(s, height, sender, adds, removes).Ok? <==> Unique(adds) && s.admin == Some(sender)
    ensures UpdateMembers(s, height, sender, adds, removes).Ok? ==>
      var s1 := UpdateMembers(s, height, sender, adds, removes).value.0;
      s1.admin == s.admin && Now(s1.members, a) == Asked(Now(s.members, a), adds, removes, a)
  {
    SortCheckIsUniqueness(adds);
    if Unique(adds) && s.admin == Some(sender) {
      var sorted := SortMembers(adds);
      AddsFit(s, sorted, height);
      AddAllProgress(s, sorted, height);
      AddsWritten(s, sorted, height, a);
      var (s1, total, _) := AddAll(s, sorted, height).value;
      RemovesNeverAbort(s1, total, removes, height);
      RemovesWritten(s1, total, removes, height, a);
      SortedListsTheSame(adds, a);
    }
  }

  /** Creation makes exactly the listed addresses members, each with its weight. */
  lemma CreateOutcome(admin: Option<Addr>, members: seq<Member>, height: nat, a: Addr)
    requires Create(admin, members, height).Ok?
    ensures var s := Create(admin, members, height).value;
            Unique(members) && s.admin == admin && Now(s.members, a) == Listed(members, a)
  {
    SortCheckIsUniqueness(members);
    SortedListsTheSame(members, a);
    AddsWritten(EMPTY.(admin := admin), SortMembers(members), height, a);
  }
}
