/**
 * `selected_set`: the options with the most points, read off the sorted index instead of sorting
 * the tally, filtered by a minimum share, cut to a maximum share, and normalised.
 */
module GaugeSelection {
  import opened Prelude
  import opened Decimals
  import opened MapSums
  import opened GaugeTally

  datatype Gauge = Gauge(
    minPercent: Option<nat>, maxOptions: nat, maxPercent: Option<nat>, isStopped: bool,
    epoch: nat, nextEpoch: nat, pendingSize: nat, lastSet: Option<seq<(Name, nat)>>)

  // ----- the order of index keys: points, then name, byte by byte

  type Entry = (nat, Name)

  predicate NameLess(a: Name, b: Name) {
    b != "" && (a == "" || a[0] < b[0] || (a[0] == b[0] && NameLess(a[1..], b[1..])))
  }

  lemma {:induction false} NameOrder(a: Name, b: Name)
    ensures a == b || NameLess(a, b) || NameLess(b, a)
    ensures !(NameLess(a, b) && NameLess(b, a)) && !NameLess(a, a)
  {
    if a != "" && b != "" {
      NameOrder(a[1..], b[1..]);
      assert a == [a[0]] + a[1..] && b == [b[0]] + b[1..];
    }
    if a != "" {
      NameOrder(a[1..], a[1..]);
    }
  }

  lemma {:induction false} NameTransitive(a: Name, b: Name, c: Name)
    requires NameLess(a, b) && NameLess(b, c)
    ensures NameLess(a, c)
  {
    if a != "" && a[0] == b[0] && b[0] == c[0] {
      NameTransitive(a[1..], b[1..], c[1..]);
    }
  }

  /** `a` comes before `b` in descending order. */
  predicate Above(a: Entry, b: Entry) {
    a.0 > b.0 || (a.0 == b.0 && NameLess(b.1, a.1))
  }

  lemma AboveOrder(a: Entry, b: Entry)
    ensures a == b || Above(a, b) || Above(b, a)
    ensures !(Above(a, b) && Above(b, a)) && !Above(a, a)
  {
    NameOrder(a.1, b.1);
    NameOrder(a.1, a.1);
  }

  lemma AboveTransitive(a: Entry, b: Entry, c: Entry)
    requires Above(a, b) && Above(b, c)
    ensures Above(a, c)
  {
    if a.0 == c.0 {
      NameTransitive(c.1, b.1, a.1);
    }
  }

  ghost predicate Falling(s: seq<Entry>) {
    forall i, j :: 0 <= i < j < |s| ==> Above(s[i], s[j])
  }

  // ----- reading the index

  ghost predicate Top(m: Entry, s: set<Entry>) {
    m in s && forall e :: e in s ==> e == m || Above(m, e)
  }

  lemma {:induction false} HasTop(s: set<Entry>)
    requires s != {}
    ensures exists m :: Top(m, s)
    decreases |s|
  {
    var e :| e in s;
    var rest := s - {e};
    if rest == {} {
      assert forall x :: x in s ==> x == e || x in rest;
      assert Top(e, s);
    } else {
      HasTop(rest);
      var t :| Top(t, rest);
      AboveOrder(e, t);
      if Above(e, t) {
        forall x | x in rest && x != t ensures Above(e, x) {
          AboveTransitive(e, t, x);
        }
        assert Top(e, s);
      } else {
        assert Top(t, s);
      }
    }
  }

  /** Iterating keys from the highest down. */
  ghost function Descending(s: set<Entry>): seq<Entry>
    decreases |s|
  {
    if s == {} then []
    else
      HasTop(s);
      var m :| Top(m, s);
      [m] + Descending(s - {m})
  }

  lemma {:induction false} DescendingIs(s: set<Entry>)
    ensures Falling(Descending(s))
    ensures forall e :: e in Descending(s) <==> e in s
    decreases |s|
  {
    if s != {} {
      HasTop(s);
      var m :| Top(m, s) && Descending(s) == [m] + Descending(s - {m});
      var rest := Descending(s - {m});
      DescendingIs(s - {m});
      forall e ensures e in [m] + rest <==> e in s {
        assert e in s - {m} <==> e in s && e != m;
      }
    }
  }

  lemma HasFirst(s: seq<Entry>)
    ensures s == [] || s[0] in s
  {
  }

  /** Strictly falling sequences with the same members are the same sequence. */
  lemma {:induction false} FallingUnique(a: seq<Entry>, b: seq<Entry>)
    requires Falling(a) && Falling(b)
    requires forall e :: e in a <==> e in b
    ensures a == b
  {
    HasFirst(a);
    HasFirst(b);
    if a != [] {
      assert b[0] in a;
      AboveOrder(a[0], b[0]);
      assert a[0] == b[0];
      forall e ensures e in a[1..] <==> e in b[1..] {
        AboveOrder(a[0], a[0]);
        assert e in a[1..] ==> e in a && e != a[0];
        assert e in b[1..] ==> e in b && e != b[0];
        assert e in a && e != a[0] ==> e in a[1..];
        assert e in b && e != b[0] ==> e in b[1..];
      }
      FallingUnique(a[1..], b[1..]);
      assert a == [a[0]] + a[1..] && b == [b[0]] + b[1..];
    }
  }

  // ----- the query

  ghost function EntriesOf(t: Tallies, g: GaugeId): set<Entry> {
    set e | e in t.index && e.0 == g :: (e.1, e.2)
  }

  /** `Decimal::from_ratio`; here the numerator never exceeds the denominator. */
  function Ratio(n: nat, d: nat): nat
    requires 0 < d
  {
    n * ONE / d
  }

  predicate Eligible(gauge: Gauge, total: nat, power: nat)
    requires 0 < total
  {
    match gauge.minPercent
    case Some(p) => Ratio(power, total) >= p
    case None => power != 0
  }

  function Capped(gauge: Gauge, total: nat, power: nat): nat
    requires 0 < total
  {
    if gauge.maxPercent.Some? && Ratio(power, total) > gauge.maxPercent.value
    then total * gauge.maxPercent.value / ONE
    else power
  }

  function EligibleOf(gauge: Gauge, total: nat, entries: seq<Entry>): seq<Entry>
    requires 0 < total
  {
    if entries == [] then []
    else
      (if Eligible(gauge, total, entries[0].0) then [entries[0]] else []) + EligibleOf(gauge, total, entries[1..])
  }

  function Take<T>(s: seq<T>, k: nat): seq<T> {
    if k < |s| then s[..k] else s
  }

  /** The winning entries, before the cut. */
  ghost function Winners(t: Tallies, g: GaugeId, gauge: Gauge): seq<Entry>
    requires 0 < Get(t.total, g)
  {
    Take(EligibleOf(gauge, Get(t.total, g), Descending(EntriesOf(t, g))), gauge.maxOptions)
  }

  ghost function SelectedSet(t: Tallies, g: GaugeId, gauge: Gauge): Result<seq<(Name, nat)>> {
    if g !in t.total then Err
    else if t.total[g] == 0 then Ok([])
    else
      var w := Winners(t, g, gauge);
      Ok(seq(|w|, i requires 0 <= i < |w| => (w[i].1, Capped(gauge, t.total[g], w[i].0))))
  }

  function PowerSum(s: seq<(Name, nat)>): nat {
    if s == [] then 0 else s[0].1 + PowerSum(s[1..])
  }

  datatype Vote = Vote(option: Name, weight: nat)

  /** The normalised votes: dividing by a zero sum aborts. */
  function Normalised(s: seq<(Name, nat)>, sum: nat): Result<seq<Vote>> {
    if s == [] then Ok([])
    else if sum == 0 then Err
    else
      var rest :- Normalised(s[1..], sum);
      Ok([Vote(s[0].0, Ratio(s[0].1, sum))] + rest)
  }

  function WeightSum(votes: seq<Vote>): nat {
    if votes == [] then 0 else votes[0].weight + WeightSum(votes[1..])
  }

  // ----- the index against sorting the tally

  function Insert(e: Entry, s: seq<Entry>): seq<Entry> {
    if s == [] || Above(e, s[0]) then [e] + s else [s[0]] + Insert(e, s[1..])
  }

  function Sort(s: seq<Entry>): seq<Entry> {
    if s == [] then [] else Insert(s[0], Sort(s[1..]))
  }

  ghost predicate Distinct(s: seq<Entry>) {
    forall i, j :: 0 <= i < j < |s| ==> s[i] != s[j]
  }

  lemma {:induction false} InsertFalls(e: Entry, s: seq<Entry>)
    requires Falling(s) && e !in s
    ensures Falling(Insert(e, s))
    ensures forall x :: x in Insert(e, s) <==> x == e || x in s
  {
    if s != [] {
      AboveOrder(e, s[0]);
      if Above(e, s[0]) {
        forall j | 0 < j < |s| ensures Above(e, s[j]) {
          AboveTransitive(e, s[0], s[j]);
        }
      } else {
        assert s == [s[0]] + s[1..];
        InsertFalls(e, s[1..]);
        var r := Insert(e, s[1..]);
        forall x | x in r ensures Above(s[0], x) {
          assert x == e || x in s[1..];
        }
      }
    }
  }

  lemma {:induction false} SortFalls(s: seq<Entry>)
    requires Distinct(s)
    ensures Falling(Sort(s))
    ensures forall x :: x in Sort(s) <==> x in s
  {
    if s != [] {
      SortFalls(s[1..]);
      assert s[0] !in s[1..];
      InsertFalls(s[0], Sort(s[1..]));
    }
  }

  /** `xs` enumerates the options of gauge `g` with their tallies, in any order. */
  ghost predicate ListsTally(xs: seq<Entry>, t: Tallies, g: GaugeId) {
    && Distinct(xs)
    && forall e :: e in xs <==> (g, e.1) in t.tally && t.tally[(g, e.1)] == e.0
  }

  /** Reading the index backwards is sorting the tally by points and name, highest first. */
  lemma IndexRefinesSort(t: Tallies, g: GaugeId, xs: seq<Entry>)
    requires Indexed(t) && ListsTally(xs, t, g)
    ensures Sort(xs) == Descending(EntriesOf(t, g))
  {
    SortFalls(xs);
    DescendingIs(EntriesOf(t, g));
    forall e ensures e in Sort(xs) <==> e in EntriesOf(t, g) {
      assert e == (e.0, e.1);
      assert (g, e.0, e.1) in t.index <==> e in xs;
      assert (g, e.0, e.1) in t.index <==> e in EntriesOf(t, g);
    }
    FallingUnique(Sort(xs), Descending(EntriesOf(t, g)));
  }

  // ----- what is selected

  lemma {:induction false} EligibleFalls(gauge: Gauge, total: nat, entries: seq<Entry>)
    requires 0 < total && Falling(entries)
    ensures Falling(EligibleOf(gauge, total, entries))
    ensures forall e :: e in EligibleOf(gauge, total, entries) <==> e in entries && Eligible(gauge, total, e.0)
  {
    if entries != [] {
      EligibleFalls(gauge, total, entries[1..]);
      assert entries == [entries[0]] + entries[1..];
      var rest := EligibleOf(gauge, total, entries[1..]);
      forall e | e in rest ensures Above(entries[0], e) {
        assert e in entries[1..];
      }
    }
  }

  /**
   * The selection is the best: every winner is an eligible option of the tally, and an eligible
   * option left out means the set is full of options that rank above it.
   */
  lemma SelectionIsBest(t: Tallies, g: GaugeId, gauge: Gauge, o: Name)
    requires Indexed(t) && 0 < Get(t.total, g)
    ensures var w, total := Winners(t, g, gauge), Get(t.total, g);
            && Falling(w) && |w| <= gauge.maxOptions
            && (forall e :: e in w ==> (g, e.1) in t.tally && t.tally[(g, e.1)] == e.0 && Eligible(gauge, total, e.0))
            && ((g, o) in t.tally && Eligible(gauge, total, t.tally[(g, o)]) && (t.tally[(g, o)], o) !in w ==>
                  |w| == gauge.maxOptions && forall e :: e in w ==> Above(e, (t.tally[(g, o)], o)))
  {
    var total := Get(t.total, g);
    var entries := Descending(EntriesOf(t, g));
    DescendingIs(EntriesOf(t, g));
    EligibleFalls(gauge, total, entries);
    var all := EligibleOf(gauge, total, entries);
    forall e | e in all ensures (g, e.1) in t.tally && t.tally[(g, e.1)] == e.0 {
      assert e in EntriesOf(t, g);
      assert (g, e.0, e.1) in t.index;
    }
    if (g, o) in t.tally && Eligible(gauge, total, t.tally[(g, o)]) {
      var mine := (t.tally[(g, o)], o);
      assert (g, mine.0, o) in t.index;
      assert mine in EntriesOf(t, g);
      var k :| 0 <= k < |all| && all[k] == mine;
    }
  }

  // ----- sums

  function EntrySum(s: seq<Entry>): nat {
    if s == [] then 0 else s[0].0 + EntrySum(s[1..])
  }

  lemma {:induction false} EligibleSum(gauge: Gauge, total: nat, entries: seq<Entry>)
    requires 0 < total
    ensures EntrySum(EligibleOf(gauge, total, entries)) <= EntrySum(entries)
  {
    if entries != [] {
      EligibleSum(gauge, total, entries[1..]);
      var rest := EligibleOf(gauge, total, entries[1..]);
      assert ([entries[0]] + rest)[1..] == rest;
      assert [] + rest == rest;
    }
  }

  lemma {:induction false} TakeSum(s: seq<Entry>, k: nat)
    ensures EntrySum(Take(s, k)) <= EntrySum(s)
  {
    if 0 < k < |s| {
      TakeSum(s[1..], k - 1);
      assert s[..k][1..] == s[1..][..k - 1];
      assert k - 1 < |s[1..]|;
    }
  }

  /** Distinct entries drawn from the tally sum to no more than the tally. */
  lemma {:induction false} ListedSum(xs: seq<Entry>, m: map<(GaugeId, Name), int>, g: GaugeId)
    requires forall e :: e in xs ==> (g, e.1) in m && m[(g, e.1)] == e.0
    requires forall i, j :: 0 <= i < j < |xs| ==> xs[i].1 != xs[j].1
    requires forall k :: k in m ==> 0 <= m[k]
    ensures EntrySum(xs) <= Total(m)
  {
    if xs == [] {
      TotalNonNegative(m);
    } else {
      var k := (g, xs[0].1);
      assert xs[0] in xs;
      TotalRemove(m, k);
      ListedSum(xs[1..], m - {k}, g);
    }
  }

  lemma CutIsCut(gauge: Gauge, total: nat, power: nat)
    requires 0 < total
    ensures Capped(gauge, total, power) <= power
  {
  }

  lemma {:induction false} CappedSum(gauge: Gauge, total: nat, w: seq<Entry>, s: seq<(Name, nat)>)
    requires 0 < total && |s| == |w|
    requires forall i :: 0 <= i < |w| ==> s[i] == (w[i].1, Capped(gauge, total, w[i].0))
    ensures PowerSum(s) <= EntrySum(w)
  {
    if w != [] {
      CutIsCut(gauge, total, w[0].0);
      CappedSum(gauge, total, w[1..], s[1..]);
    }
  }

  /** The selected powers sum to at most the total cast. */
  lemma SelectedWithinTotal(t: Tallies, g: GaugeId, gauge: Gauge)
    requires Agrees(t) && SelectedSet(t, g, gauge).Ok?
    ensures PowerSum(SelectedSet(t, g, gauge).value) <= t.total[g]
  {
    if 0 < t.total[g] {
      var w := Winners(t, g, gauge);
      forall e | e in w ensures (g, e.1) in t.tally && t.tally[(g, e.1)] == e.0 {
        SelectionIsBest(t, g, gauge, e.1);
      }
      SelectionIsBest(t, g, gauge, "");
      forall i, j | 0 <= i < j < |w| ensures w[i].1 != w[j].1 {
        assert w[i] in w && w[j] in w;
        AboveOrder(w[i], w[j]);
      }
      ListedSum(w, OfGauge(t.tally, g), g);
      CappedSum(gauge, t.total[g], w, SelectedSet(t, g, gauge).value);
    }
  }

  lemma {:induction false} NormalisedSum(s: seq<(Name, nat)>, sum: nat)
    requires 0 < sum
    ensures Normalised(s, sum).Ok?
    ensures var votes := Normalised(s, sum).value;
            && |votes| == |s|
            && WeightSum(votes) * sum <= PowerSum(s) * ONE
            && PowerSum(s) * ONE <= (WeightSum(votes) + |s|) * sum
            && (s != [] ==> PowerSum(s) * ONE < (WeightSum(votes) + |s|) * sum)
  {
    if s != [] {
      NormalisedSum(s[1..], sum);
      var rest := Normalised(s[1..], sum).value;
      var w := Ratio(s[0].1, sum);
      DivBounds(s[0].1 * ONE, sum);
      var votes := [Vote(s[0].0, w)] + rest;
      assert votes[1..] == rest;
      var n, r, p := |rest|, WeightSum(rest), PowerSum(s[1..]);
      assert (w + r) * sum == w * sum + r * sum;
      assert (w + r + (n + 1)) * sum == (w * sum + sum) + (r + n) * sum;
      assert (s[0].1 + p) * ONE == s[0].1 * ONE + p * ONE;
    }
  }

  /** Normalised weights add to at most one, and fall short by less than one unit per option. */
  lemma {:induction false} WeightsNearOne(s: seq<(Name, nat)>)
    requires 0 < PowerSum(s)
    ensures Normalised(s, PowerSum(s)).Ok?
    ensures ONE - |s| < WeightSum(Normalised(s, PowerSum(s)).value) <= ONE
  {
    var sum := PowerSum(s);
    NormalisedSum(s, sum);
    var w := WeightSum(Normalised(s, sum).value);
    CancelFactor(w, ONE, sum);
    CancelFactor(ONE, w + |s|, sum);
  }

  lemma {:induction false} CancelFactor(a: int, b: int, c: nat)
    requires 0 < c
    ensures a * c <= b * c ==> a <= b
    ensures a * c < b * c ==> a < b
  {
    MulMono(b + 1, a, c);
    MulMono(b, a, c);
  }

  /** Normalising aborts exactly when something was selected and every cut power is zero. */
  lemma NormaliseAborts(s: seq<(Name, nat)>)
    ensures Normalised(s, PowerSum(s)).Err? <==> s != [] && forall e :: e in s ==> e.1 == 0
  {
    ZeroSum(s);
    if 0 < PowerSum(s) {
      NormalisedSum(s, PowerSum(s));
    }
  }

  lemma {:induction false} ZeroSum(s: seq<(Name, nat)>)
    ensures PowerSum(s) == 0 <==> forall e :: e in s ==> e.1 == 0
  {
    if s != [] {
      ZeroSum(s[1..]);
      assert s == [s[0]] + s[1..];
    }
  }
}
