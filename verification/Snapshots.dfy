/**
 * A storage map with a changelog: the first write to a key in a block records the value the block
 * started with. Reading at height `h` takes the oldest record from `h` on, or the current value.
 */
module Snapshots {
  import opened Prelude

  datatype Snapshot<!K> = Snapshot(current: map<K, nat>, log: map<(K, nat), Option<nat>>)

  function Now<K>(s: Snapshot<K>, k: K): Option<nat> {
    if k in s.current then Some(s.current[k]) else None
  }

  function Write<K>(s: Snapshot<K>, k: K, v: Option<nat>, height: nat): Snapshot<K> {
    Snapshot(
      if v.Some? then s.current[k := v.value] else s.current - {k},
      if (k, height) in s.log then s.log else s.log[(k, height) := Now(s, k)])
  }

  /** `at` is the first height from `h` on at which the key was changed. */
  ghost predicate FirstChange<K>(s: Snapshot<K>, k: K, h: nat, at: nat) {
    h <= at && (k, at) in s.log && forall i: nat :: h <= i && (k, i) in s.log ==> at <= i
  }

  /** `may_load_at_height` */
  ghost function AtHeight<K>(s: Snapshot<K>, k: K, h: nat): Option<nat> {
    if exists at :: FirstChange(s, k, h, at)
    then
      var at :| FirstChange(s, k, h, at);
      s.log[(k, at)]
    else Now(s, k)
  }

  /** No record is from after `height`. */
  ghost predicate LoggedUpTo<K(!new)>(s: Snapshot<K>, height: nat) {
    forall k: K, i: nat :: (k, i) in s.log ==> i <= height
  }

  lemma {:induction false} FirstChangeExists<K>(s: Snapshot<K>, k: K, h: nat, i: nat)
    requires h <= i && (k, i) in s.log
    ensures exists at :: FirstChange(s, k, h, at)
    decreases i - h
  {
    if j: nat :| h <= j < i && (k, j) in s.log {
      FirstChangeExists(s, k, h, j);
    } else {
      assert FirstChange(s, k, h, i);
    }
  }

  lemma AtFirstChange<K>(s: Snapshot<K>, k: K, h: nat, at: nat)
    requires FirstChange(s, k, h, at)
    ensures AtHeight(s, k, h) == s.log[(k, at)]
  {
  }

  /** A write in a later or the same block does not change what an earlier height reads. */
  lemma WriteKeepsPast<K>(s: Snapshot<K>, k: K, v: Option<nat>, height: nat, k2: K, h: nat)
    requires h <= height && forall i: nat :: (k2, i) in s.log ==> i <= height
    ensures AtHeight(Write(s, k, v, height), k2, h) == AtHeight(s, k2, h)
  {
    var s1 := Write(s, k, v, height);
    if i: nat :| h <= i && (k2, i) in s.log {
      FirstChangeExists(s, k2, h, i);
      var at :| FirstChange(s, k2, h, at);
      assert FirstChange(s1, k2, h, at);
      AtFirstChange(s, k2, h, at);
      AtFirstChange(s1, k2, h, at);
    } else if k2 == k {
      assert FirstChange(s1, k2, h, height);
      AtFirstChange(s1, k2, h, height);
    } else {
      assert forall i: nat :: (k2, i) in s1.log ==> (k2, i) in s.log;
    }
  }

  /** After the last block that wrote, a height reads the current value. */
  lemma LaterReadsNow<K(!new)>(s: Snapshot<K>, height: nat, k: K, h: nat)
    requires LoggedUpTo(s, height) && height < h
    ensures AtHeight(s, k, h) == Now(s, k)
  {
  }
}
