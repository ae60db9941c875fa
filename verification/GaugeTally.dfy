/**
 * The gauge's tally store: points per option, a secondary index of the same entries kept sorted
 * by points, and the running total of each gauge. Three maps that must tell the same story.
 */
module GaugeTally {
  import opened Prelude
  import opened MapSums

  type GaugeId = nat
  type Name = string

  datatype Tallies = Tallies(
    tally: map<(GaugeId, Name), nat>, total: map<GaugeId, nat>, index: set<(GaugeId, nat, Name)>)

  const NO_TALLIES := Tallies(map[], map[], {})

  /** One change of `update_tallies`: the votes `option` loses and gains. */
  datatype Update = Update(option: Name, was: nat, now: nat)

  /** One turn of the loop: the count moves, and the index entry moves with it. */
  function Bump(t: Tallies, g: GaugeId, u: Update): Result<Tallies> {
    var k := (g, u.option);
    var raised :- AddU128(Get(t.tally, k), u.now);
    var count :- SubU128(raised, u.was);
    var kept := if k in t.tally then t.index - {(g, t.tally[k], u.option)} else t.index;
    Ok(t.(tally := t.tally[k := count], index := kept + {(g, count, u.option)}))
  }

  /** The loop, with its two running sums. */
  function BumpAll(t: Tallies, g: GaugeId, ups: seq<Update>): Result<(Tallies, nat, nat)> {
    if ups == [] then Ok((t, 0, 0))
    else
      var u := ups[|ups| - 1];
      var (t1, was, now) :- BumpAll(t, g, ups[..|ups| - 1]);
      var was1 :- AddU128(was, u.was);
      var now1 :- AddU128(now, u.now);
      var t2 :- Bump(t1, g, u);
      Ok((t2, was1, now1))
  }

  function UpdateTallies(t: Tallies, g: GaugeId, ups: seq<Update>): Result<Tallies> {
    var (t1, was, now) :- BumpAll(t, g, ups);
    var raised :- AddU128(Get(t1.total, g), now);
    var total :- SubU128(raised, was);
    Ok(t1.(total := t1.total[g := total]))
  }

  function RemoveTally(t: Tallies, g: GaugeId, option: Name): Result<Tallies> {
    if (g, option) !in t.tally then Ok(t)
    else
      var was := t.tally[(g, option)];
      var total :- SubU128(Get(t.total, g), was);
      Ok(Tallies(t.tally - {(g, option)}, t.total[g := total], t.index - {(g, was, option)}))
  }

  // ----- agreement of the three maps

  ghost function OfGauge(tally: map<(GaugeId, Name), nat>, g: GaugeId): map<(GaugeId, Name), int> {
    map k | k in tally && k.0 == g :: tally[k]
  }

  /** Exactly one index entry per option, carrying its count. */
  ghost predicate Indexed(t: Tallies) {
    forall g, n, o :: (g, n, o) in t.index <==> (g, o) in t.tally && t.tally[(g, o)] == n
  }

  ghost predicate Totalled(t: Tallies) {
    forall g :: Get(t.total, g) == Total(OfGauge(t.tally, g))
  }

  ghost predicate Agrees(t: Tallies) {
    Indexed(t) && Totalled(t)
  }

  lemma TallyWritten(tally: map<(GaugeId, Name), nat>, k: (GaugeId, Name), n: nat, g: GaugeId)
    ensures Total(OfGauge(tally[k := n], g)) == Total(OfGauge(tally, g)) + if k.0 == g then n - Get(tally, k) else 0
  {
    if k.0 == g {
      assert OfGauge(tally[k := n], g) == OfGauge(tally, g)[k := n];
      TotalUpdate(OfGauge(tally, g), k, n);
    } else {
      assert OfGauge(tally[k := n], g) == OfGauge(tally, g);
    }
  }

  lemma TallyDropped(tally: map<(GaugeId, Name), nat>, k: (GaugeId, Name), g: GaugeId)
    ensures Total(OfGauge(tally - {k}, g)) == Total(OfGauge(tally, g)) - if k.0 == g then Get(tally, k) else 0
  {
    if k.0 == g {
      assert OfGauge(tally - {k}, g) == OfGauge(tally, g) - {k};
      TotalDrop(OfGauge(tally, g), k);
    } else {
      assert OfGauge(tally - {k}, g) == OfGauge(tally, g);
    }
  }

  lemma CountWithinTotal(t: Tallies, g: GaugeId, o: Name)
    requires Totalled(t)
    ensures Get(t.tally, (g, o)) <= Get(t.total, g)
  {
    EntryWithinTotal(OfGauge(t.tally, g), (g, o));
  }

  /** The net change a list of updates makes to one option, and to the gauge. */
  function NetOf(ups: seq<Update>, o: Name): int {
    if ups == [] then 0
    else
      var u := ups[|ups| - 1];
      NetOf(ups[..|ups| - 1], o) + if u.option == o then u.now - u.was else 0
  }

  function Olds(ups: seq<Update>): nat {
    if ups == [] then 0 else Olds(ups[..|ups| - 1]) + ups[|ups| - 1].was
  }

  function News(ups: seq<Update>): nat {
    if ups == [] then 0 else News(ups[..|ups| - 1]) + ups[|ups| - 1].now
  }

  /** One turn keeps the index exact and moves one count. */
  lemma BumpEffect(t: Tallies, g: GaugeId, u: Update)
    requires Indexed(t) && Bump(t, g, u).Ok?
    ensures var t1 := Bump(t, g, u).value;
            && Indexed(t1) && t1.total == t.total
            && (forall h: GaugeId, o: Name :: (h, o) in t1.tally <==> (h, o) in t.tally || (h, o) == (g, u.option))
            && (forall h: GaugeId, o: Name ::
                  Get(t1.tally, (h, o)) == Get(t.tally, (h, o)) + if (h, o) == (g, u.option) then u.now - u.was else 0)
  {
  }

  lemma BumpTotals(t: Tallies, g: GaugeId, u: Update, h: GaugeId)
    requires Bump(t, g, u).Ok?
    ensures Total(OfGauge(Bump(t, g, u).value.tally, h)) == Total(OfGauge(t.tally, h)) + if h == g then u.now - u.was else 0
  {
    var count: nat := Get(t.tally, (g, u.option)) + u.now - u.was;
    assert Bump(t, g, u).value.tally == t.tally[(g, u.option) := count];
    TallyWritten(t.tally, (g, u.option), count, h);
  }

  /** What the loop does, for any list of updates: repeated options included. */
  lemma {:induction false} BumpAllEffect(t: Tallies, g: GaugeId, ups: seq<Update>)
    requires Indexed(t) && BumpAll(t, g, ups).Ok?
    ensures var (t1, was, now) := BumpAll(t, g, ups).value;
            && was == Olds(ups) && now == News(ups)
            && Indexed(t1) && t1.total == t.total
            && forall h: GaugeId, o: Name :: Get(t1.tally, (h, o)) == Get(t.tally, (h, o)) + if h == g then NetOf(ups, o) else 0
  {
    if ups != [] {
      var u := ups[|ups| - 1];
      BumpAllEffect(t, g, ups[..|ups| - 1]);
      BumpEffect(BumpAll(t, g, ups[..|ups| - 1]).value.0, g, u);
    }
  }

  lemma {:induction false} BumpAllTotals(t: Tallies, g: GaugeId, ups: seq<Update>, h: GaugeId)
    requires BumpAll(t, g, ups).Ok?
    ensures Total(OfGauge(BumpAll(t, g, ups).value.0.tally, h))
         == Total(OfGauge(t.tally, h)) + if h == g then News(ups) - Olds(ups) else 0
  {
    if ups != [] {
      BumpAllTotals(t, g, ups[..|ups| - 1], h);
      BumpTotals(BumpAll(t, g, ups[..|ups| - 1]).value.0, g, ups[|ups| - 1], h);
    }
  }

  /** Index and total agree with the tally after any update that does not abort. */
  lemma UpdateAgrees(t: Tallies, g: GaugeId, ups: seq<Update>)
    requires Agrees(t) && UpdateTallies(t, g, ups).Ok?
    ensures var t1 := UpdateTallies(t, g, ups).value;
            && Agrees(t1)
            && (forall h: GaugeId, o: Name :: Get(t1.tally, (h, o)) == Get(t.tally, (h, o)) + if h == g then NetOf(ups, o) else 0)
            && (forall h: GaugeId :: Get(t1.total, h) == Get(t.total, h) + if h == g then News(ups) - Olds(ups) else 0)
  {
    BumpAllEffect(t, g, ups);
    forall h: GaugeId ensures Total(OfGauge(UpdateTallies(t, g, ups).value.tally, h))
                           == Total(OfGauge(t.tally, h)) + if h == g then News(ups) - Olds(ups) else 0 {
      BumpAllTotals(t, g, ups, h);
    }
  }

  /** Removing an option never aborts once the maps agree, and leaves them agreeing. */
  lemma RemoveAgrees(t: Tallies, g: GaugeId, o: Name)
    requires Agrees(t)
    ensures RemoveTally(t, g, o).Ok?
    ensures var t1 := RemoveTally(t, g, o).value;
            && Agrees(t1)
            && (forall h: GaugeId, p: Name :: Get(t1.tally, (h, p)) == if (h, p) == (g, o) then 0 else Get(t.tally, (h, p)))
            && (forall h: GaugeId :: Get(t1.total, h) == Get(t.total, h) - if h == g then Get(t.tally, (g, o)) else 0)
  {
    CountWithinTotal(t, g, o);
    if (g, o) in t.tally {
      forall h: GaugeId ensures Total(OfGauge(t.tally - {(g, o)}, h)) == Total(OfGauge(t.tally, h)) - if h == g then Get(t.tally, (g, o)) else 0 {
        TallyDropped(t.tally, (g, o), h);
      }
    }
  }

  // ----- the order of the updates

  /** `ups` visits every entry of the hash map `diff` once, in some order. */
  ghost predicate Lists(ups: seq<Update>, diff: map<Name, (nat, nat)>) {
    && (forall i, j :: 0 <= i < j < |ups| ==> ups[i].option != ups[j].option)
    && (forall u :: u in ups ==> u.option in diff && diff[u.option] == (u.was, u.now))
    && (forall o :: o in diff ==> Update(o, diff[o].0, diff[o].1) in ups)
  }

  ghost function OldOf(diff: map<Name, (nat, nat)>): map<Name, int> {
    map o | o in diff :: diff[o].0
  }

  ghost function NewOf(diff: map<Name, (nat, nat)>): map<Name, int> {
    map o | o in diff :: diff[o].1
  }

  /** No addition of the loop overflows and no subtraction goes below zero. */
  ghost predicate Fits(t: Tallies, g: GaugeId, diff: map<Name, (nat, nat)>) {
    && Total(OldOf(diff)) < U128 && Total(NewOf(diff)) < U128
    && forall o :: o in diff ==> diff[o].0 <= Get(t.tally, (g, o)) + diff[o].1 < U128
  }

  lemma ListsShorter(ups: seq<Update>, diff: map<Name, (nat, nat)>)
    requires Lists(ups, diff) && ups != []
    ensures ups[|ups| - 1].option in diff
    ensures Lists(ups[..|ups| - 1], diff - {ups[|ups| - 1].option})
  {
  }

  lemma SumsShorter(diff: map<Name, (nat, nat)>, o: Name)
    requires o in diff
    ensures Total(OldOf(diff)) == Total(OldOf(diff - {o})) + diff[o].0
    ensures Total(NewOf(diff)) == Total(NewOf(diff - {o})) + diff[o].1
    ensures 0 <= Total(OldOf(diff - {o})) && 0 <= Total(NewOf(diff - {o}))
  {
    TotalRemove(OldOf(diff), o);
    TotalRemove(NewOf(diff), o);
    assert OldOf(diff) - {o} == OldOf(diff - {o});
    assert NewOf(diff) - {o} == NewOf(diff - {o});
    TotalNonNegative(OldOf(diff - {o}));
    TotalNonNegative(NewOf(diff - {o}));
  }

  /** The net change a map of diffs makes to one option. */
  function DiffOf(diff: map<Name, (nat, nat)>, o: Name): int {
    if o in diff then diff[o].1 as int - diff[o].0 as int else 0
  }

  /** A listing's sums and net changes are those of the map it lists. */
  lemma {:induction false} ListingSums(ups: seq<Update>, diff: map<Name, (nat, nat)>)
    requires Lists(ups, diff)
    ensures Olds(ups) == Total(OldOf(diff)) && News(ups) == Total(NewOf(diff))
    ensures forall o: Name :: NetOf(ups, o) == DiffOf(diff, o)
  {
    if ups == [] {
      assert diff == map[];
    } else {
      var u, before := ups[|ups| - 1], ups[..|ups| - 1];
      ListsShorter(ups, diff);
      assert u in ups;
      ListingSums(before, diff - {u.option});
      SumsShorter(diff, u.option);
      forall o: Name ensures NetOf(ups, o) == DiffOf(diff, o) {
        assert NetOf(before, o) == DiffOf(diff - {u.option}, o);
      }
    }
  }

  /** The running sums and the count of `o` stay in range when its change is made last. */
  ghost predicate FitsLast(t: Tallies, g: GaugeId, diff: map<Name, (nat, nat)>, o: Name)
    requires o in diff
  {
    && Total(OldOf(diff - {o})) + diff[o].0 < U128 && Total(NewOf(diff - {o})) + diff[o].1 < U128
    && diff[o].0 <= Get(t.tally, (g, o)) + diff[o].1 < U128
  }

  lemma FitsShorter(t: Tallies, g: GaugeId, diff: map<Name, (nat, nat)>, o: Name)
    requires o in diff
    ensures Fits(t, g, diff) <==> Fits(t, g, diff - {o}) && FitsLast(t, g, diff, o)
  {
    SumsShorter(diff, o);
    assert forall p :: p in diff <==> p == o || p in diff - {o};
  }

  lemma {:induction false} BumpAllKeys(t: Tallies, g: GaugeId, ups: seq<Update>, h: GaugeId, o: Name)
    requires BumpAll(t, g, ups).Ok?
    ensures (h, o) in BumpAll(t, g, ups).value.0.tally <==> (h, o) in t.tally || (h == g && exists u :: u in ups && u.option == o)
  {
    if ups != [] {
      var u, before := ups[|ups| - 1], ups[..|ups| - 1];
      BumpAllKeys(t, g, before, h, o);
      assert u in ups && forall w :: w in ups <==> w in before || w == u;
    }
  }

  lemma ListingKeys(t: Tallies, g: GaugeId, ups: seq<Update>, diff: map<Name, (nat, nat)>)
    requires Lists(ups, diff) && BumpAll(t, g, ups).Ok?
    ensures forall h: GaugeId, o: Name :: (h, o) in BumpAll(t, g, ups).value.0.tally <==> (h, o) in t.tally || (h == g && o in diff)
  {
    forall h: GaugeId, o: Name
      ensures (h, o) in BumpAll(t, g, ups).value.0.tally <==> (h, o) in t.tally || (h == g && o in diff) {
      BumpAllKeys(t, g, ups, h, o);
      if o in diff {
        assert Update(o, diff[o].0, diff[o].1).option == o;
      }
    }
  }

  /** The last update finds its count untouched by the others. */
  lemma LastCount(t: Tallies, g: GaugeId, ups: seq<Update>, diff: map<Name, (nat, nat)>)
    requires Indexed(t) && Lists(ups, diff) && ups != [] && BumpAll(t, g, ups[..|ups| - 1]).Ok?
    ensures var u := ups[|ups| - 1];
            var (t1, was, now) := BumpAll(t, g, ups[..|ups| - 1]).value;
            && Get(t1.tally, (g, u.option)) == Get(t.tally, (g, u.option))
            && was == Total(OldOf(diff - {u.option})) && now == Total(NewOf(diff - {u.option}))
            && u.option in diff && diff[u.option] == (u.was, u.now)
  {
    var u, before := ups[|ups| - 1], ups[..|ups| - 1];
    assert u in ups;
    ListsShorter(ups, diff);
    BumpAllEffect(t, g, before);
    ListingSums(before, diff - {u.option});
    assert NetOf(before, u.option) == DiffOf(diff - {u.option}, u.option);
  }

  lemma LastFits(t: Tallies, g: GaugeId, ups: seq<Update>, diff: map<Name, (nat, nat)>)
    requires Indexed(t) && Lists(ups, diff) && ups != [] && BumpAll(t, g, ups[..|ups| - 1]).Ok?
    ensures ups[|ups| - 1].option in diff
    ensures BumpAll(t, g, ups).Ok? <==> FitsLast(t, g, diff, ups[|ups| - 1].option)
  {
    LastCount(t, g, ups, diff);
  }

  /** Whether the loop aborts depends on the map alone. */
  lemma {:induction false} ListingFits(t: Tallies, g: GaugeId, ups: seq<Update>, diff: map<Name, (nat, nat)>)
    requires Indexed(t) && Lists(ups, diff)
    ensures BumpAll(t, g, ups).Ok? <==> Fits(t, g, diff)
  {
    if ups == [] {
      assert diff == map[];
      assert OldOf(diff) == map[] && NewOf(diff) == map[];
    } else {
      var before, o := ups[..|ups| - 1], ups[|ups| - 1].option;
      ListsShorter(ups, diff);
      ListingFits(t, g, before, diff - {o});
      FitsShorter(t, g, diff, o);
      if BumpAll(t, g, before).Ok? {
        LastFits(t, g, ups, diff);
      }
    }
  }

  lemma SameTallies(a: Tallies, b: Tallies)
    requires Indexed(a) && Indexed(b) && a.total == b.total
    requires a.tally.Keys == b.tally.Keys
    requires forall g: GaugeId, o: Name :: Get(a.tally, (g, o)) == Get(b.tally, (g, o))
    ensures a == b
  {
    forall k | k in a.tally ensures a.tally[k] == b.tally[k] {
      assert k == (k.0, k.1);
      assert Get(a.tally, (k.0, k.1)) == Get(b.tally, (k.0, k.1));
    }
    assert a.tally == b.tally;
    forall e ensures e in a.index <==> e in b.index {
      assert e == (e.0, e.1, e.2);
    }
    assert a.index == b.index;
  }

  /** The storage after the update does not depend on the order in which the hash map is visited. */
  lemma OrderDoesNotMatter(t: Tallies, g: GaugeId, a: seq<Update>, b: seq<Update>, diff: map<Name, (nat, nat)>)
    requires Indexed(t) && Lists(a, diff) && Lists(b, diff)
    ensures UpdateTallies(t, g, a) == UpdateTallies(t, g, b)
  {
    ListingFits(t, g, a, diff);
    ListingFits(t, g, b, diff);
    if BumpAll(t, g, a).Ok? {
      BumpAllEffect(t, g, a);
      BumpAllEffect(t, g, b);
      ListingSums(a, diff);
      ListingSums(b, diff);
      ListingKeys(t, g, a, diff);
      ListingKeys(t, g, b, diff);
      var ta, tb := BumpAll(t, g, a).value.0, BumpAll(t, g, b).value.0;
      assert ta.tally.Keys == tb.tally.Keys by {
        forall k ensures k in ta.tally <==> k in tb.tally {
          assert k == (k.0, k.1);
        }
      }
      SameTallies(ta, tb);
    }
  }
}
