/**
 * The per-uid row dictionaries the controllers keep (`rows`, `onlineRows`,
 * `incomingRows`): adding a uid that already has a row and removing a uid
 * that has none change nothing. A replayed batch of row events leaves the
 * same rows as a single delivery.
 */
module RowCache {
  import opened Wrappers

  function Get<V>(rows: map<string, V>, key: string): Option<V> {
    if key in rows then Some(rows[key]) else None
  }

  /** Add a row unless the uid already has one (first write wins). */
  function Add<V>(rows: map<string, V>, key: string, v: V): (r: map<string, V>)
    ensures r.Keys == rows.Keys + {key}
    ensures r[key] == (if key in rows then rows[key] else v)
    ensures forall k :: k in rows ==> r[k] == rows[k]
    ensures |r| == if key in rows then |rows| else |rows| + 1
  {
    if key in rows then rows else rows[key := v]
  }

  /** Remove the row of a uid, if it has one. */
  function Remove<V>(rows: map<string, V>, key: string): (r: map<string, V>)
    ensures r.Keys == rows.Keys - {key}
    ensures forall k :: k in r ==> r[k] == rows[k]
    ensures |r| == if key in rows then |rows| - 1 else |rows|
  {
    rows - {key}
  }

  /** Adding the same row twice is adding it once. */
  lemma AddIdempotent<V>(rows: map<string, V>, key: string, v: V, w: V)
    ensures Add(Add(rows, key, v), key, w) == Add(rows, key, v)
  {
  }

  /** A child-added or child-removed delivery, as it reaches a row dictionary. */
  datatype RowEvent<V> = Added(key: string, v: V) | Removed(key: string)

  function Step<V>(rows: map<string, V>, e: RowEvent<V>): map<string, V> {
    match e
    case Added(k, v) => Add(rows, k, v)
    case Removed(k) => Remove(rows, k)
  }

  /** The events applied in delivery order. */
  function Replay<V>(rows: map<string, V>, evs: seq<RowEvent<V>>): map<string, V>
    decreases |evs|
  {
    if evs == [] then rows else Step(Replay(rows, evs[..|evs| - 1]), evs[|evs| - 1])
  }

  function KeysOf<V>(entries: seq<(string, V)>): (ks: set<string>)
    ensures forall i :: 0 <= i < |entries| ==> entries[i].0 in ks
    decreases |entries|
  {
    if entries == [] then {}
    else
      var pre := entries[..|entries| - 1];
      assert forall i :: 0 <= i < |pre| ==> pre[i] == entries[i];
      KeysOf(pre) + {entries[|entries| - 1].0}
  }

  /** Adding a batch of rows, as the initial snapshot does: one Added event per child. */
  function AddAll<V>(rows: map<string, V>, entries: seq<(string, V)>): (r: map<string, V>)
    ensures rows.Keys <= r.Keys
    ensures forall k :: k in rows ==> r[k] == rows[k]
    ensures r.Keys == rows.Keys + KeysOf(entries)
    decreases |entries|
  {
    if entries == [] then rows
    else Add(AddAll(rows, entries[..|entries| - 1]), entries[|entries| - 1].0, entries[|entries| - 1].1)
  }

  /** The Added events of a batch of rows, in order. */
  function AddedOf<V>(entries: seq<(string, V)>): (evs: seq<RowEvent<V>>)
    ensures |evs| == |entries|
    decreases |entries|
  {
    if entries == [] then []
    else AddedOf(entries[..|entries| - 1]) + [Added(entries[|entries| - 1].0, entries[|entries| - 1].1)]
  }

  lemma ReplaySnoc<V>(rows: map<string, V>, evs: seq<RowEvent<V>>, e: RowEvent<V>)
    ensures Replay(rows, evs + [e]) == Step(Replay(rows, evs), e)
  {
    assert (evs + [e])[..|evs|] == evs;
  }

  /** Replaying two batches one after the other is replaying their concatenation. */
  lemma {:induction false} ReplayAppend<V>(rows: map<string, V>, a: seq<RowEvent<V>>, b: seq<RowEvent<V>>)
    ensures Replay(rows, a + b) == Replay(Replay(rows, a), b)
    decreases |b|
  {
    if b == [] {
      assert a + b == a;
    } else {
      var pre := b[..|b| - 1];
      var e := b[|b| - 1];
      assert a + b == (a + pre) + [e];
      assert b == pre + [e];
      ReplaySnoc(rows, a + pre, e);
      ReplaySnoc(Replay(rows, a), pre, e);
      ReplayAppend(rows, a, pre);
    }
  }

  /** Seeding a batch is replaying its Added events. */
  lemma {:induction false} AddAllReplays<V>(rows: map<string, V>, entries: seq<(string, V)>)
    ensures AddAll(rows, entries) == Replay(rows, AddedOf(entries))
    decreases |entries|
  {
    if entries != [] {
      var pre := entries[..|entries| - 1];
      var last := entries[|entries| - 1];
      AddAllReplays(rows, pre);
      ReplaySnoc(rows, AddedOf(pre), Added(last.0, last.1));
    }
  }

  // ---- the state of one key along a replay ----

  function KeyStep<V>(o: Option<V>, e: RowEvent<V>, key: string): Option<V> {
    match e
    case Added(k, v) => if k == key && o.None? then Some(v) else o
    case Removed(k) => if k == key then None else o
  }

  function KeyReplay<V>(o: Option<V>, evs: seq<RowEvent<V>>, key: string): Option<V>
    decreases |evs|
  {
    if evs == [] then o else KeyStep(KeyReplay(o, evs[..|evs| - 1], key), evs[|evs| - 1], key)
  }

  predicate HasRemove<V>(evs: seq<RowEvent<V>>, key: string) {
    exists i :: 0 <= i < |evs| && evs[i] == Removed(key)
  }

  /** The label of the first Added event for `key`, if any. */
  function FirstAdd<V>(evs: seq<RowEvent<V>>, key: string): Option<V>
    decreases |evs|
  {
    if evs == [] then None
    else
      var f := FirstAdd(evs[..|evs| - 1], key);
      if f.Some? then f
      else match evs[|evs| - 1]
        case Added(k, v) => if k == key then Some(v) else None
        case Removed(_) => None
  }

  lemma {:induction false} ReplayAt<V>(rows: map<string, V>, evs: seq<RowEvent<V>>, key: string)
    ensures Get(Replay(rows, evs), key) == KeyReplay(Get(rows, key), evs, key)
    decreases |evs|
  {
    if evs != [] {
      ReplayAt(rows, evs[..|evs| - 1], key);
    }
  }

  /** Once a batch removes `key`, what `key` held before the batch no longer matters. */
  lemma {:induction false} KeyReplayForgets<V>(o: Option<V>, o': Option<V>, evs: seq<RowEvent<V>>, key: string)
    requires HasRemove(evs, key)
    ensures KeyReplay(o, evs, key) == KeyReplay(o', evs, key)
    decreases |evs|
  {
    var pre := evs[..|evs| - 1];
    if evs[|evs| - 1] != Removed(key) {
      var i :| 0 <= i < |evs| && evs[i] == Removed(key);
      assert pre[i] == Removed(key);
      KeyReplayForgets(o, o', pre, key);
    }
  }

  /** Without a removal of `key`, the first row for it stays: the old one, else the first added. */
  lemma {:induction false} KeyReplayNoRemove<V>(o: Option<V>, evs: seq<RowEvent<V>>, key: string)
    requires !HasRemove(evs, key)
    ensures KeyReplay(o, evs, key) == if o.Some? then o else FirstAdd(evs, key)
    decreases |evs|
  {
    if evs != [] {
      var pre := evs[..|evs| - 1];
      assert !HasRemove(pre, key) by {
        forall i | 0 <= i < |pre| ensures pre[i] != Removed(key) {
          assert pre[i] == evs[i];
        }
      }
      KeyReplayNoRemove(o, pre, key);
      assert evs[|evs| - 1] != Removed(key);
    }
  }

  lemma KeyReplayTwice<V>(o: Option<V>, evs: seq<RowEvent<V>>, key: string)
    ensures KeyReplay(KeyReplay(o, evs, key), evs, key) == KeyReplay(o, evs, key)
  {
    var once := KeyReplay(o, evs, key);
    if HasRemove(evs, key) {
      KeyReplayForgets(once, o, evs, key);
    } else {
      KeyReplayNoRemove(o, evs, key);
      KeyReplayNoRemove(once, evs, key);
    }
  }

  lemma MapsAgree<V>(m1: map<string, V>, m2: map<string, V>)
    requires forall k :: Get(m1, k) == Get(m2, k)
    ensures m1 == m2
  {
    assert m1.Keys == m2.Keys by {
      forall k ensures k in m1 <==> k in m2 {
        assert Get(m1, k).Some? <==> Get(m2, k).Some?;
      }
    }
    forall k | k in m1 ensures m1[k] == m2[k] {
      assert Get(m1, k) == Get(m2, k);
    }
  }

  /**
   * Duplicate delivery: replaying a batch of child-added / child-removed
   * events a second time leaves the rows a single replay produced.
   */
  lemma ReplayTwice<V>(rows: map<string, V>, evs: seq<RowEvent<V>>)
    ensures Replay(Replay(rows, evs), evs) == Replay(rows, evs)
  {
    var once := Replay(rows, evs);
    forall k ensures Get(Replay(once, evs), k) == Get(once, k) {
      ReplayAt(once, evs, k);
      ReplayAt(rows, evs, k);
      KeyReplayTwice(Get(rows, k), evs, k);
    }
    MapsAgree(Replay(once, evs), once);
  }
}
