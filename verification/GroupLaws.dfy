/** Totals, now and at past heights, and what the reported diffs say. */
module GroupLaws {
  import opened Prelude
  import opened MapSums
  import opened Snapshots
  import opened Group

  /** The total is the sum of the weights. */
  ghost predicate Law(s: State) {
    Total(s.members.current) == TotalNow(s)
  }

  // ----- the diffs

  /** A diff carried out on a plain membership. */
  function Applied(members: map<Addr, nat>, d: Diff): map<Addr, nat> {
    match d.now case Some(w) => members[d.key := w] case None => members - {d.key}
  }

  function AppliedAll(members: map<Addr, nat>, diffs: seq<Diff>): map<Addr, nat> {
    if diffs == [] then members
    else Applied(AppliedAll(members, diffs[..|diffs| - 1]), diffs[|diffs| - 1])
  }

  /** Each diff, in its turn, names the weight that was there. */
  predicate Truthful(members: map<Addr, nat>, diffs: seq<Diff>) {
    diffs == [] ||
      var before, d := diffs[..|diffs| - 1], diffs[|diffs| - 1];
      && Truthful(members, before)
      && d.was == (if d.key in AppliedAll(members, before) then Some(AppliedAll(members, before)[d.key]) else None)
  }

  lemma {:induction false} AppliedAppend(members: map<Addr, nat>, a: seq<Diff>, b: seq<Diff>)
    ensures AppliedAll(members, a + b) == AppliedAll(AppliedAll(members, a), b)
    ensures Truthful(members, a) && Truthful(AppliedAll(members, a), b) ==> Truthful(members, a + b)
  {
    if b == [] {
      assert a + b == a;
    } else {
      AppliedAppend(members, a, b[..|b| - 1]);
      assert (a + b)[..|a + b| - 1] == a + b[..|b| - 1];
    }
  }

  // ----- the loops

  /** What a loop of `update_members` has done so far. */
  ghost predicate Progress(s: State, s1: State, total: nat, diffs: seq<Diff>, height: nat) {
    && s1 == s.(members := s1.members)
    && Total(s1.members.current) == total
    && AppliedAll(s.members.current, diffs) == s1.members.current
    && Truthful(s.members.current, diffs)
    && PastKept(s, s1, height)
  }

  /** Reading the members at this height or an earlier one gives what it gave before. */
  ghost predicate PastKept(s: State, s1: State, height: nat) {
    LoggedUpTo(s.members, height) ==>
      && LoggedUpTo(s1.members, height)
      && forall a: Addr, h: nat :: h <= height ==> AtHeight(s1.members, a, h) == AtHeight(s.members, a, h)
  }

  lemma OneWrite(s: State, s1: State, k: Addr, v: Option<nat>, height: nat)
    requires s1 == s.(members := Write(s.members, k, v, height))
    ensures PastKept(s, s1, height)
  {
    if LoggedUpTo(s.members, height) {
      forall a: Addr, h: nat | h <= height ensures AtHeight(s1.members, a, h) == AtHeight(s.members, a, h) {
        WriteKeepsPast(s.members, k, v, height, a, h);
      }
    }
  }

  lemma ProgressStep(s: State, s1: State, total: nat, diffs: seq<Diff>, height: nat, d: Diff, s2: State)
    requires Progress(s, s1, total, diffs, height) && d.was == Now(s1.members, d.key)
    requires s2 == s1.(members := Write(s1.members, d.key, d.now, height))
    ensures Total(s2.members.current) == total - (if d.was.Some? then d.was.value else 0) + (if d.now.Some? then d.now.value else 0)
    ensures AppliedAll(s.members.current, diffs + [d]) == s2.members.current
    ensures Truthful(s.members.current, diffs + [d])
    ensures PastKept(s, s2, height)
  {
    if d.now.Some? {
      TotalUpdate(s1.members.current, d.key, d.now.value);
    } else {
      TotalDrop(s1.members.current, d.key);
    }
    assert (diffs + [d])[..|diffs|] == diffs;
    OneWrite(s1, s2, d.key, d.now, height);
  }

  lemma {:induction false} AddAllProgress(s: State, adds: seq<Member>, height: nat)
    requires Law(s) && AddAll(s, adds, height).Ok?
    ensures var (s1, total, diffs) := AddAll(s, adds, height).value;
            Progress(s, s1, total, diffs, height)
  {
    if adds != [] {
      var m := adds[|adds| - 1];
      AddAllProgress(s, adds[..|adds| - 1], height);
      var (s1, total, diffs) := AddAll(s, adds[..|adds| - 1], height).value;
      ProgressStep(s, s1, total, diffs, height, Diff(m.addr, Now(s1.members, m.addr), Some(m.weight)),
                   AddAll(s, adds, height).value.0);
    }
  }

  lemma {:induction false} RemoveAllProgress(s: State, total: nat, removes: seq<Addr>, height: nat)
    requires Total(s.members.current) == total && RemoveAll(s, total, removes, height).Ok?
    ensures var (s1, total1, diffs) := RemoveAll(s, total, removes, height).value;
            Progress(s, s1, total1, diffs, height)
  {
    if removes != [] {
      var a := removes[|removes| - 1];
      RemoveAllProgress(s, total, removes[..|removes| - 1], height);
      var (s1, total1, diffs) := RemoveAll(s, total, removes[..|removes| - 1], height).value;
      if Now(s1.members, a).Some? {
        ProgressStep(s, s1, total1, diffs, height, Diff(a, Now(s1.members, a), None), RemoveAll(s, total, removes, height).value.0);
      }
    }
  }

  /**
   * An update keeps the total equal to the sum, and the diffs it reports, carried out in order on
   * the old membership, give the new one, each naming the weight it replaced.
   */
  lemma UpdateKeepsTotal(s: State, height: nat, sender: Addr, adds: seq<Member>, removes: seq<Addr>)
    requires Law(s) && UpdateMembers(s, height, sender, adds, removes).Ok?
    ensures var (s1, diffs) := UpdateMembers(s, height, sender, adds, removes).value;
            && Law(s1)
            && AppliedAll(s.members.current, diffs) == s1.members.current
            && Truthful(s.members.current, diffs)
            && s1.total == Write(s.total, (), Some(TotalNow(s1)), height)
            && PastKept(s, s1, height)
  {
    var sorted := SortMembers(adds);
    var (s1, total1, added) := AddAll(s, sorted, height).value;
    AddAllProgress(s, sorted, height);
    var (s2, total2, removed) := RemoveAll(s1, total1, removes, height).value;
    RemoveAllProgress(s1, total1, removes, height);
    AppliedAppend(s.members.current, added, removed);
  }

  /** Removing or replacing a member cannot underflow the total: it aborts only for the checks and for overflow. */
  lemma {:induction false} RemovesNeverAbort(s: State, total: nat, removes: seq<Addr>, height: nat)
    requires Total(s.members.current) == total
    ensures RemoveAll(s, total, removes, height).Ok?
  {
    if removes != [] {
      var a := removes[|removes| - 1];
      RemovesNeverAbort(s, total, removes[..|removes| - 1], height);
      RemoveAllProgress(s, total, removes[..|removes| - 1], height);
      EntryWithinTotal(RemoveAll(s, total, removes[..|removes| - 1], height).value.0.members.current, a);
    }
  }

  // ----- runs, and reading the past

  datatype Update = Update(height: nat, sender: Addr, adds: seq<Member>, removes: seq<Addr>)

  function After(s: State, updates: seq<Update>): State {
    if updates == [] then s
    else
      var s1, u := After(s, updates[..|updates| - 1]), updates[|updates| - 1];
      match UpdateMembers(s1, u.height, u.sender, u.adds, u.removes) case Ok((s2, _)) => s2 case Err => s1
  }

  /** Blocks come in order, after the one the group was created in. */
  predicate InOrder(start: nat, updates: seq<Update>) {
    && (forall i :: 0 <= i < |updates| ==> start <= updates[i].height)
    && forall i, j :: 0 <= i < j < |updates| ==> updates[i].height <= updates[j].height
  }

  /** The updates of the blocks before height `h`. */
  function Before(updates: seq<Update>, h: nat): seq<Update> {
    if updates == [] then []
    else if updates[|updates| - 1].height < h then updates
    else Before(updates[..|updates| - 1], h)
  }

  function Latest(start: nat, updates: seq<Update>): nat {
    if updates == [] then start else updates[|updates| - 1].height
  }

  /** The snapshots hold nothing from after the last block. */
  ghost predicate Logged(s: State, height: nat) {
    LoggedUpTo(s.members, height) && LoggedUpTo(s.total, height)
  }

  lemma LoggedLater(s: State, a: nat, b: nat)
    requires Logged(s, a) && a <= b
    ensures Logged(s, b)
  {
  }

  lemma {:induction false} RunKeepsTotal(s: State, start: nat, updates: seq<Update>)
    requires Law(s) && Logged(s, start) && InOrder(start, updates)
    ensures Law(After(s, updates)) && Logged(After(s, updates), Latest(start, updates))
  {
    if updates != [] {
      var before, u := updates[..|updates| - 1], updates[|updates| - 1];
      RunKeepsTotal(s, start, before);
      var s1 := After(s, before);
      LoggedLater(s1, Latest(start, before), u.height);
      if UpdateMembers(s1, u.height, u.sender, u.adds, u.removes).Ok? {
        UpdateKeepsTotal(s1, u.height, u.sender, u.adds, u.removes);
      }
    }
  }

  /** A read at height `h` does not notice an update in block `h` or later. */
  lemma UpdateKeepsPast(s: State, u: Update, h: nat, a: Addr)
    requires Law(s) && Logged(s, u.height) && h <= u.height
    requires UpdateMembers(s, u.height, u.sender, u.adds, u.removes).Ok?
    ensures var s1 := UpdateMembers(s, u.height, u.sender, u.adds, u.removes).value.0;
            AtHeight(s1.members, a, h) == AtHeight(s.members, a, h) && AtHeight(s1.total, (), h) == AtHeight(s.total, (), h)
  {
    UpdateKeepsTotal(s, u.height, u.sender, u.adds, u.removes);
    var s1 := UpdateMembers(s, u.height, u.sender, u.adds, u.removes).value.0;
    WriteKeepsPast(s.total, (), Some(TotalNow(s1)), u.height, (), h);
  }

  /**
   * Snapshots are history: a member's weight and the total read at a height after the group's
   * creation are those the updates of all earlier blocks had left.
   */
  lemma {:induction false} SnapshotsAreHistory(s: State, start: nat, updates: seq<Update>, h: nat, a: Addr)
    requires Law(s) && Logged(s, start) && InOrder(start, updates) && start < h
    ensures var past, now := After(s, Before(updates, h)), After(s, updates);
            AtHeight(now.members, a, h) == Now(past.members, a) && AtHeight(now.total, (), h) == Now(past.total, ())
  {
    RunKeepsTotal(s, start, updates);
    var s1 := After(s, updates);
    if updates == [] || updates[|updates| - 1].height < h {
      assert Before(updates, h) == updates;
      LaterReadsNow(s1.members, Latest(start, updates), a, h);
      LaterReadsNow(s1.total, Latest(start, updates), (), h);
    } else {
      var before, u := updates[..|updates| - 1], updates[|updates| - 1];
      SnapshotsAreHistory(s, start, before, h, a);
      RunKeepsTotal(s, start, before);
      LoggedLater(After(s, before), Latest(start, before), u.height);
      if UpdateMembers(After(s, before), u.height, u.sender, u.adds, u.removes).Ok? {
        UpdateKeepsPast(After(s, before), u, h, a);
      }
    }
  }

  lemma {:induction false} BeforeIsPrefix(updates: seq<Update>, h: nat)
    ensures Before(updates, h) <= updates
  {
    if updates != [] && updates[|updates| - 1].height >= h {
      BeforeIsPrefix(updates[..|updates| - 1], h);
    }
  }

  /** The members as read at height `h`. */
  ghost function MembersAt(s: State, universe: set<Addr>, h: nat): map<Addr, int> {
    map a | a in universe && AtHeight(s.members, a, h).Some? :: AtHeight(s.members, a, h).value
  }

  /** At every past height too, the total read is the sum of the weights read. */
  lemma TotalAtEveryHeight(s: State, start: nat, updates: seq<Update>, h: nat, universe: set<Addr>)
    requires Law(s) && Logged(s, start) && InOrder(start, updates) && start < h && () in s.total.current
    requires After(s, Before(updates, h)).members.current.Keys <= universe
    ensures AtHeight(After(s, updates).total, (), h) == Some(Total(MembersAt(After(s, updates), universe, h)))
  {
    var past, now := After(s, Before(updates, h)), After(s, updates);
    BeforeIsPrefix(updates, h);
    RunKeepsTotal(s, start, Before(updates, h));
    TotalIsSet(s, Before(updates, h));
    SnapshotsAreHistory(s, start, updates, h, 0);
    var read := MembersAt(now, universe, h);
    forall a: Addr ensures a in read <==> a in past.members.current
            ensures a in read ==> read[a] == past.members.current[a] {
      SnapshotsAreHistory(s, start, updates, h, a);
    }
    assert read == past.members.current;
  }

  lemma {:induction false} TotalIsSet(s: State, updates: seq<Update>)
    requires () in s.total.current
    ensures () in After(s, updates).total.current
  {
    if updates != [] {
      var before, u := updates[..|updates| - 1], updates[|updates| - 1];
      TotalIsSet(s, before);
      UpdateSetsTotal(After(s, before), u);
    }
  }

  lemma UpdateSetsTotal(s: State, u: Update)
    ensures UpdateMembers(s, u.height, u.sender, u.adds, u.removes).Ok? ==>
      () in UpdateMembers(s, u.height, u.sender, u.adds, u.removes).value.0.total.current
  {
  }

  /** Creation establishes all of this. */
  lemma CreatedIsLawful(admin: Option<Addr>, members: seq<Member>, height: nat)
    requires Create(admin, members, height).Ok?
    ensures var s := Create(admin, members, height).value;
            Law(s) && Logged(s, height) && () in s.total.current
  {
    var empty := EMPTY.(admin := admin);
    assert empty.members.current == map[];
    AddAllProgress(empty, SortMembers(members), height);
  }
}
