/** How a ResourceWatcher brings the Records it owns in line with the output of its template. */
module WatcherSync {
  import opened Api
  import opened Names
  import opened Protocol

  /** A record of the template output, as decoded. */
  datatype Item = Item(name: string, labels: map<string, string>, spec: RecordSpec)

  /** `owned` are the records that refer to the watcher as their owner. */
  datatype Store = Store(w: World, owned: set<Name>)

  function KeyOf(ns: string, item: Item): Name {
    Name(ns, item.name)
  }

  function Keys(ns: string, out: seq<Item>): set<Name> {
    set i | 0 <= i < |out| :: KeyOf(ns, out[i])
  }

  function Put(st: Store, key: Name, r: RecordObj): Store {
    var w := PutRecord(st.w, key, r);
    Store(w, if key in w.records then st.owned else st.owned - {key})
  }

  function Edit(st: Store, key: Name, item: Item): Store
    requires key in st.w.records
  {
    var r := st.w.records[key];
    Put(st, key, RecordObj(Edited(r.meta, item.spec != r.spec, r.meta.finalizers), item.labels, item.spec, r.statuses))
  }

  function Add(st: Store, key: Name, item: Item): Store {
    var w := st.w.(nextUid := st.w.nextUid + 1);
    Put(Store(w, st.owned + {key}), key, RecordObj(Meta(st.w.nextUid, 1, false, []), item.labels, item.spec, []))
  }

  function Drop(st: Store, key: Name): Store
    requires key in st.w.records
  {
    var r := st.w.records[key];
    Put(st, key, r.(meta := Mark(r.meta)))
  }

  /** One item: a listed record is updated, any other name is created, which the API refuses when it is taken. */
  function Wrote(st: Store, ns: string, listed: seq<Name>, item: Item, fails: bool): (Store, bool) {
    var key := KeyOf(ns, item);
    if fails then (st, false)
    else if key in listed then if key in st.w.records then (Edit(st, key, item), true) else (st, false)
    else if key in st.w.records then (st, false)
    else (Add(st, key, item), true)
  }

  function Written(st: Store, ns: string, listed: seq<Name>, out: seq<Item>, fails: set<nat>): (Store, bool) {
    if out == [] then (st, true)
    else
      var n := |out| - 1;
      var (t, ok) := Written(st, ns, listed, out[..n], fails);
      if ok then Wrote(t, ns, listed, out[n], n in fails) else (t, false)
  }

  /** The sweep over the listed records that no item named; `base` numbers its API calls. */
  function Swept(st: Store, kept: set<Name>, listed: seq<Name>, fails: set<nat>, base: nat): (Store, bool) {
    if listed == [] then (st, true)
    else
      var n := |listed| - 1;
      var (t, ok) := Swept(st, kept, listed[..n], fails, base);
      if !ok then (t, false)
      else if listed[n] in kept then (t, true)
      else if base + n in fails || listed[n] !in t.w.records then (t, false)
      else (Drop(t, listed[n]), true)
  }

  /** The whole sync; an error ends it where it occurs. */
  function Synced(st: Store, ns: string, listed: seq<Name>, out: seq<Item>, fails: set<nat>): (Store, bool) {
    var (t, ok) := Written(st, ns, listed, out, fails);
    if ok then Swept(t, Keys(ns, out), listed, fails, |out|) else (t, false)
  }

  class Cluster {
    var st: Store

    constructor (st: Store)
      ensures this.st == st
    {
      this.st := st;
    }

    method Update(key: Name, item: Item, fails: bool) returns (ok: bool)
      modifies this
      ensures ok <==> !fails && key in old(st).w.records
      ensures st == if ok then Edit(old(st), key, item) else old(st)
    {
      ok := !fails && key in st.w.records;
      if ok {
        st := Edit(st, key, item);
      }
    }

    method Create(key: Name, item: Item, fails: bool) returns (ok: bool)
      modifies this
      ensures ok <==> !fails && key !in old(st).w.records
      ensures st == if ok then Add(old(st), key, item) else old(st)
    {
      ok := !fails && key !in st.w.records;
      if ok {
        st := Add(st, key, item);
      }
    }

    method Delete(key: Name, fails: bool) returns (ok: bool)
      modifies this
      ensures ok <==> !fails && key in old(st).w.records
      ensures st == if ok then Drop(old(st), key) else old(st)
    {
      ok := !fails && key in st.w.records;
      if ok {
        st := Drop(st, key);
      }
    }
  }

  /** RecordList.Get, as a position. */
  method Get(listed: seq<Name>, key: Name) returns (i: Option<nat>)
    ensures i == None <==> key !in listed
    ensures i.Some? ==> i.value < |listed| && listed[i.value] == key
  {
    for j := 0 to |listed|
      invariant key !in listed[..j]
    {
      if listed[j] == key {
        return Some(j);
      }
    }
    return None;
  }

  lemma KeysGrow(ns: string, out: seq<Item>, n: nat)
    requires n < |out|
    ensures Keys(ns, out[..n + 1]) == Keys(ns, out[..n]) + {KeyOf(ns, out[n])}
  {
    var a, b := out[..n], out[..n + 1];
    assert b == a + [out[n]];
    forall key ensures key in Keys(ns, b) <==> key in Keys(ns, a) || key == KeyOf(ns, out[n]) {
      if key in Keys(ns, a) {
        var i :| 0 <= i < n && KeyOf(ns, a[i]) == key;
        assert b[i] == a[i];
      }
      if key == KeyOf(ns, out[n]) {
        assert KeyOf(ns, b[n]) == key;
      }
    }
  }

  ghost predicate Marks(checked: array<bool>, listed: seq<Name>, kept: set<Name>)
    reads checked
  {
    checked.Length == |listed| && forall j :: 0 <= j < |listed| ==> (checked[j] <==> listed[j] in kept)
  }

  /** Updates or creates a record for every item, marking what was listed. */
  method Write(cluster: Cluster, ns: string, listed: seq<Name>, checked: array<bool>, out: seq<Item>, fails: set<nat>)
        returns (ok: bool)
    requires forall i, j :: 0 <= i < j < |listed| ==> listed[i] != listed[j]
    requires Marks(checked, listed, {})
    modifies cluster, checked
    ensures (cluster.st, ok) == Written(old(cluster.st), ns, listed, out, fails)
    ensures ok ==> Marks(checked, listed, Keys(ns, out))
  {
    ghost var st := cluster.st;
    for n := 0 to |out|
      invariant Written(st, ns, listed, out[..n], fails) == (cluster.st, true)
      invariant Marks(checked, listed, Keys(ns, out[..n]))
    {
      assert out[..n + 1][..n] == out[..n];
      KeysGrow(ns, out, n);
      WrittenPrefix(st, ns, listed, out, fails, n + 1);
      var key := KeyOf(ns, out[n]);
      var i := Get(listed, key);
      if i.Some? {
        ok := cluster.Update(key, out[n], n in fails);
        if !ok {
          return;
        }
        checked[i.value] := true;
      } else {
        ok := cluster.Create(key, out[n], n in fails);
        if !ok {
          return;
        }
      }
    }
    assert out[..|out|] == out;
    ok := true;
  }

  /** Deletes what is not marked. */
  method Sweep(cluster: Cluster, ghost kept: set<Name>, listed: seq<Name>, checked: array<bool>, fails: set<nat>,
        base: nat) returns (ok: bool)
    requires Marks(checked, listed, kept)
    modifies cluster
    ensures (cluster.st, ok) == Swept(old(cluster.st), kept, listed, fails, base)
  {
    ghost var st := cluster.st;
    for n := 0 to |listed|
      invariant Swept(st, kept, listed[..n], fails, base) == (cluster.st, true)
    {
      assert listed[..n + 1][..n] == listed[..n];
      SweptPrefix(st, kept, listed, fails, base, n + 1);
      if !checked[n] {
        ok := cluster.Delete(listed[n], base + n in fails);
        if !ok {
          return;
        }
      }
    }
    assert listed[..|listed|] == listed;
    ok := true;
  }

  /** The record half of the watcher's Reconcile. */
  method Sync(cluster: Cluster, ns: string, listed: seq<Name>, out: seq<Item>, fails: set<nat>) returns (ok: bool)
    requires forall i, j :: 0 <= i < j < |listed| ==> listed[i] != listed[j]
    modifies cluster
    ensures (cluster.st, ok) == Synced(old(cluster.st), ns, listed, out, fails)
  {
    var checked := new bool[|listed|](_ => false);
    ok := Write(cluster, ns, listed, checked, out, fails);
    if ok {
      ok := Sweep(cluster, Keys(ns, out), listed, checked, fails, |out|);
    }
  }

  /** Once an item fails, the rest is not tried. */
  lemma {:induction false} WrittenPrefix(st: Store, ns: string, listed: seq<Name>, out: seq<Item>, fails: set<nat>,
        n: nat)
    requires n <= |out|
    ensures !Written(st, ns, listed, out[..n], fails).1 ==>
      Written(st, ns, listed, out, fails) == Written(st, ns, listed, out[..n], fails)
    decreases |out|
  {
    if n == |out| {
      assert out[..n] == out;
    } else {
      assert out[..|out| - 1][..n] == out[..n];
      WrittenPrefix(st, ns, listed, out[..|out| - 1], fails, n);
    }
  }

  lemma {:induction false} SweptPrefix(st: Store, kept: set<Name>, listed: seq<Name>, fails: set<nat>, base: nat,
        n: nat)
    requires n <= |listed|
    ensures !Swept(st, kept, listed[..n], fails, base).1 ==>
      Swept(st, kept, listed, fails, base) == Swept(st, kept, listed[..n], fails, base)
    decreases |listed|
  {
    if n == |listed| {
      assert listed[..n] == listed;
    } else {
      assert listed[..|listed| - 1][..n] == listed[..n];
      SweptPrefix(st, kept, listed[..|listed| - 1], fails, base, n);
    }
  }
}
