/** Sums over the values of a finite map, the shape every ledger total in the contracts has. */
module MapSums {

  ghost function Total<K>(m: map<K, int>): int
    decreases |m|
  {
    if m == map[] then 0
    else
      var k :| k in m;
      m[k] + Total(m - {k})
  }

  ghost function At<K>(m: map<K, int>, k: K): int {
    if k in m then m[k] else 0
  }

  lemma {:induction false} TotalRemove<K>(m: map<K, int>, k: K)
    requires k in m
    ensures Total(m) == m[k] + Total(m - {k})
    decreases |m|
  {
    var j :| j in m && Total(m) == m[j] + Total(m - {j});
    if j != k {
      TotalRemove(m - {j}, k);
      TotalRemove(m - {k}, j);
      assert m - {j} - {k} == m - {k} - {j};
    }
  }

  /** Writing one entry moves the total by the change of that entry. */
  lemma TotalUpdate<K>(m: map<K, int>, k: K, v: int)
    ensures Total(m[k := v]) == Total(m) - At(m, k) + v
  {
    var n := m[k := v];
    TotalRemove(n, k);
    assert n - {k} == m - {k};
    if k in m {
      TotalRemove(m, k);
    } else {
      assert m - {k} == m;
    }
  }

  /** Removing one entry lowers the total by that entry. */
  lemma TotalDrop<K>(m: map<K, int>, k: K)
    ensures Total(m - {k}) == Total(m) - At(m, k)
  {
    if k in m {
      TotalRemove(m, k);
    } else {
      assert m - {k} == m;
    }
  }

  /** A pointwise linear combination of two maps sums to the same combination of their totals. */
  lemma {:induction false} TotalLinear<K>(m: map<K, int>, a: map<K, int>, b: map<K, int>, c: int)
    requires m.Keys == a.Keys == b.Keys
    requires forall k :: k in m ==> m[k] == a[k] + c * b[k]
    ensures Total(m) == Total(a) + c * Total(b)
    decreases |m|
  {
    if m == map[] {
      assert a == map[] && b == map[];
    } else {
      var k :| k in m;
      TotalRemove(m, k);
      TotalRemove(a, k);
      TotalRemove(b, k);
      TotalLinear(m - {k}, a - {k}, b - {k}, c);
      Distribute(c, b[k], Total(b - {k}));
    }
  }

  lemma Distribute(c: int, x: int, y: int)
    ensures c * x + c * y == c * (x + y)
  {
  }

  lemma {:induction false} TotalMono<K>(a: map<K, int>, b: map<K, int>)
    requires a.Keys == b.Keys
    requires forall k :: k in a ==> a[k] <= b[k]
    ensures Total(a) <= Total(b)
    decreases |a|
  {
    if a == map[] {
      assert b == map[];
    } else {
      var k :| k in a;
      TotalRemove(a, k);
      TotalRemove(b, k);
      TotalMono(a - {k}, b - {k});
    }
  }

  lemma {:induction false} TotalNonNegative<K>(m: map<K, int>)
    requires forall k :: k in m ==> 0 <= m[k]
    ensures 0 <= Total(m)
    decreases |m|
  {
    if m != map[] {
      var k :| k in m;
      TotalRemove(m, k);
      TotalNonNegative(m - {k});
    }
  }

  /** In a ledger without negative entries no entry exceeds the total. */
  lemma {:induction false} EntryWithinTotal<K>(m: map<K, int>, k: K)
    requires forall j :: j in m ==> 0 <= m[j]
    ensures At(m, k) <= Total(m)
  {
    TotalNonNegative(m);
    if k in m {
      TotalRemove(m, k);
      TotalNonNegative(m - {k});
    }
  }

  /** Entries that are zero may be added or dropped freely. */
  lemma {:induction false} TotalSameValues<K>(a: map<K, int>, b: map<K, int>)
    requires forall k :: At(a, k) == At(b, k)
    ensures Total(a) == Total(b)
    decreases |a|
  {
    if a == map[] {
      forall k | k in b ensures b[k] == 0 {
        assert At(a, k) == At(b, k);
      }
      ZeroTotal(b);
    } else {
      var k :| k in a;
      var a', b' := a - {k}, b - {k};
      forall j ensures At(a', j) == At(b', j) {
        assert At(a, j) == At(b, j);
        assert At(a', j) == (if j == k then 0 else At(a, j));
        assert At(b', j) == (if j == k then 0 else At(b, j));
      }
      TotalSameValues(a', b');
      TotalDrop(a, k);
      TotalDrop(b, k);
    }
  }

  lemma {:induction false} ZeroTotal<K>(m: map<K, int>)
    requires forall k :: k in m ==> m[k] == 0
    ensures Total(m) == 0
    decreases |m|
  {
    if m != map[] {
      var k :| k in m;
      TotalRemove(m, k);
      ZeroTotal(m - {k});
    }
  }
}
