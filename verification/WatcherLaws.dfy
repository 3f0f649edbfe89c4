/** What a watcher's sync leaves behind, when it succeeds, and why repeated syncs settle. */
module WatcherLaws {
  import opened Api
  import opened Names
  import opened Protocol
  import opened WatcherSync
  import Laws = RecordLaws
  import Safety = ProtocolSafety

  /** Owned records exist, and an object marked for deletion is there only because of a finalizer. */
  ghost predicate Sound(st: Store) {
    && st.owned <= st.w.records.Keys
    && forall k <- st.w.records :: st.w.records[k].meta.deleting ==> st.w.records[k].meta.finalizers != []
  }

  /** The list call returns the owned records of the namespace, in some order. */
  ghost predicate Lists(st: Store, ns: string, listed: seq<Name>) {
    && (forall i, j :: 0 <= i < j < |listed| ==> listed[i] != listed[j])
    && (forall k :: k in listed <==> k in st.owned && k.namespace == ns)
  }

  /** The last item of this name. */
  function Last(ns: string, out: seq<Item>, key: Name): Option<Item> {
    if out == [] then None
    else if KeyOf(ns, out[|out| - 1]) == key then Some(out[|out| - 1])
    else Last(ns, out[..|out| - 1], key)
  }

  lemma {:induction false} LastInKeys(ns: string, out: seq<Item>, key: Name)
    ensures Last(ns, out, key).Some? <==> key in Keys(ns, out)
    ensures Last(ns, out, key).Some? ==> Last(ns, out, key).value in out && KeyOf(ns, Last(ns, out, key).value) == key
  {
    if out != [] {
      var n := |out| - 1;
      LastInKeys(ns, out[..n], key);
      assert out[..n + 1] == out;
      KeysGrow(ns, out, n);
    }
  }

  /** Same object with the same ledger and finalizers; labels, spec and generation may have moved. */
  predicate SameLedger(a: RecordObj, b: RecordObj) {
    && a.statuses == b.statuses && a.meta.uid == b.meta.uid
    && a.meta.deleting == b.meta.deleting && a.meta.finalizers == b.meta.finalizers
  }

  predicate Blank(r: RecordObj) {
    r.statuses == [] && !r.meta.deleting && r.meta.finalizers == []
  }

  /** The record `key` after the items were written, successfully or not. */
  ghost predicate WrittenAt(st: Store, t: Store, ns: string, listed: seq<Name>, out: seq<Item>, key: Name) {
    && (key in st.w.records ==> key in t.w.records && SameLedger(t.w.records[key], st.w.records[key])
                                && (key in t.owned <==> key in st.owned))
    && (key in st.w.records && key !in listed ==> t.w.records[key] == st.w.records[key])
    && (key !in st.w.records && key in t.w.records ==>
          Blank(t.w.records[key]) && key in t.owned && key.namespace == ns && key in Keys(ns, out))
  }

  ghost predicate Matches(r: RecordObj, item: Item) {
    r.labels == item.labels && r.spec == item.spec
  }

  ghost predicate WroteAt(st: Store, t: Store, ns: string, out: seq<Item>, key: Name) {
    match Last(ns, out, key)
    case None => (key in t.w.records <==> key in st.w.records)
      && (key in st.w.records ==> t.w.records[key] == st.w.records[key])
    case Some(item) => key in t.w.records && key in t.owned && Matches(t.w.records[key], item)
  }

  ghost predicate Untouched(t: Store, u: Store, key: Name) {
    && (key in u.w.records <==> key in t.w.records) && (key in u.owned <==> key in t.owned)
    && (key in t.w.records ==> u.w.records[key] == t.w.records[key])
  }

  /** One item touches the record of its name and no other. */
  lemma WroteOne(t: Store, ns: string, listed: seq<Name>, item: Item, fails: bool, key: Name)
    requires Sound(t)
    ensures var (u, ok) := Wrote(t, ns, listed, item, fails);
      && Sound(u) && (!ok ==> u == t) && (key != KeyOf(ns, item) ==> Untouched(t, u, key))
      && (ok && key == KeyOf(ns, item) ==>
          && key in u.w.records && Matches(u.w.records[key], item) && (key in listed <==> key in t.w.records)
          && (key in listed ==> SameLedger(u.w.records[key], t.w.records[key]) && (key in u.owned <==> key in t.owned))
          && (key !in listed ==> Blank(u.w.records[key]) && key in u.owned))
  {
  }

  lemma DroppedOne(t: Store, dropped: Name, key: Name)
    requires Sound(t) && dropped in t.owned
    ensures var u := Drop(t, dropped);
      Sound(u) && (key != dropped ==> Untouched(t, u, key)) && SweptAt(t, u, [dropped], {}, dropped)
  {
  }

  lemma {:induction false} WrittenByKey(st: Store, ns: string, listed: seq<Name>, out: seq<Item>, fails: set<nat>,
        key: Name)
    requires Sound(st) && Lists(st, ns, listed)
    ensures var (t, ok) := Written(st, ns, listed, out, fails);
      Sound(t) && WrittenAt(st, t, ns, listed, out, key) && (ok ==> WroteAt(st, t, ns, out, key))
  {
    if out != [] {
      var n := |out| - 1;
      WrittenByKey(st, ns, listed, out[..n], fails, key);
      assert out[..n + 1] == out;
      KeysGrow(ns, out, n);
      var (t, ok) := Written(st, ns, listed, out[..n], fails);
      WrittenByKey(st, ns, listed, out[..n], fails, KeyOf(ns, out[n]));
      WroteOne(t, ns, listed, out[n], n in fails, key);
    }
  }

  ghost predicate SweptAt(t: Store, u: Store, listed: seq<Name>, kept: set<Name>, key: Name) {
    if key in listed && key !in kept then
      && key in t.w.records
      && (key in u.w.records <==> t.w.records[key].meta.finalizers != [])
      && (key in u.w.records ==> u.w.records[key] == t.w.records[key].(meta := Mark(t.w.records[key].meta)))
      && (key in u.owned <==> key in u.w.records)
    else
      Untouched(t, u, key)
  }

  ghost predicate Spared(t: Store, u: Store, key: Name) {
    && (key in t.w.records && t.w.records[key].meta.finalizers != [] ==>
          key in u.w.records && u.w.records[key].meta.finalizers == t.w.records[key].meta.finalizers
          && u.w.records[key].statuses == t.w.records[key].statuses)
    && (key in u.w.records ==> key in t.w.records)
    && (key in t.w.records && key !in t.owned ==> key in u.w.records && u.w.records[key] == t.w.records[key])
  }

  lemma {:induction false} SweptByKey(t: Store, kept: set<Name>, listed: seq<Name>, fails: set<nat>, base: nat,
        key: Name)
    requires Sound(t) && (forall k <- listed :: k in t.owned)
    requires forall i, j :: 0 <= i < j < |listed| ==> listed[i] != listed[j]
    ensures var (u, ok) := Swept(t, kept, listed, fails, base);
      Sound(u) && Spared(t, u, key) && (ok ==> SweptAt(t, u, listed, kept, key))
      && (key !in listed ==> SweptAt(t, u, listed, kept, key))
  {
    if listed != [] {
      var n := |listed| - 1;
      var last := listed[n];
      assert listed == listed[..n] + [last];
      SweptByKey(t, kept, listed[..n], fails, base, key);
      SweptByKey(t, kept, listed[..n], fails, base, last);
      var (u, ok) := Swept(t, kept, listed[..n], fails, base);
      if ok && last !in kept && last in u.w.records {
        DroppedOne(u, last, key);
      }
    }
  }

  /** What a successful sync owes to one name. */
  ghost predicate InLine(st: Store, u: Store, ns: string, listed: seq<Name>, out: seq<Item>, key: Name) {
    match Last(ns, out, key)
    case Some(item) =>
      && key in u.w.records && key in u.owned && Matches(u.w.records[key], item)
      && (key in st.w.records ==> SameLedger(u.w.records[key], st.w.records[key]))
      && (key !in st.w.records ==> Blank(u.w.records[key]))
    case None => SweptAt(st, u, listed, {}, key)
  }

  /**
   After a successful sync every name of the output has an owned record with the content of its last item, its
   ledger and finalizers as before; every other listed record is marked for deletion or gone; and any record
   the watcher does not own is as it was.
   */
  lemma SyncBringsInLine(st: Store, ns: string, listed: seq<Name>, out: seq<Item>, fails: set<nat>, key: Name)
    requires Sound(st) && Lists(st, ns, listed) && Synced(st, ns, listed, out, fails).1
    ensures var u := Synced(st, ns, listed, out, fails).0; Sound(u) && InLine(st, u, ns, listed, out, key)
  {
    var t := Written(st, ns, listed, out, fails).0;
    WrittenByKey(st, ns, listed, out, fails, key);
    ListedStaysOwned(st, ns, listed, out, fails);
    SweptByKey(t, Keys(ns, out), listed, fails, |out|, key);
    LastInKeys(ns, out, key);
  }

  lemma {:induction false} LastIsLast(ns: string, out: seq<Item>, i: nat)
    requires i < |out| && forall j | i < j < |out| :: out[j].name != out[i].name
    ensures Last(ns, out, Name(ns, out[i].name)) == Some(out[i])
    decreases |out|
  {
    if i < |out| - 1 {
      LastIsLast(ns, out[..|out| - 1], i);
    }
  }

  lemma {:induction false} LastIsNone(ns: string, out: seq<Item>, key: Name)
    requires forall i | 0 <= i < |out| :: key != Name(ns, out[i].name)
    ensures Last(ns, out, key) == None
  {
    if out != [] {
      LastIsNone(ns, out[..|out| - 1], key);
    }
  }

  /** No item of this name comes later. */
  ghost predicate LastOfItsName(out: seq<Item>, i: nat)
    requires i < |out|
  {
    forall j | i < j < |out| :: out[j].name != out[i].name
  }

  ghost predicate Unnamed(out: seq<Item>, name: string) {
    forall i | 0 <= i < |out| :: out[i].name != name
  }

  /**
   By the items themselves: after a successful sync each item that no later one of the same name follows is a Record
   of that name in the watcher's namespace, owned, with its labels and spec; a listed Record that no item names is
   gone, or is marked for deletion and held by its finalizers; and no other Record has changed.
   */
  lemma SyncFollowsItems(st: Store, ns: string, listed: seq<Name>, out: seq<Item>, fails: set<nat>)
    requires Sound(st) && Lists(st, ns, listed) && Synced(st, ns, listed, out, fails).1
    ensures var u := Synced(st, ns, listed, out, fails).0;
      && (forall i | 0 <= i < |out| && LastOfItsName(out, i) ::
            && Name(ns, out[i].name) in u.w.records && Name(ns, out[i].name) in u.owned
            && u.w.records[Name(ns, out[i].name)].labels == out[i].labels
            && u.w.records[Name(ns, out[i].name)].spec == out[i].spec)
      && (forall key <- listed | Unnamed(out, key.name) ::
            if st.w.records[key].meta.finalizers == [] then key !in u.w.records
            else key in u.w.records && u.w.records[key].meta.deleting
                 && u.w.records[key].meta.finalizers == st.w.records[key].meta.finalizers)
      && (forall key: Name | key !in listed && (key.namespace != ns || Unnamed(out, key.name)) ::
            && (key in u.w.records <==> key in st.w.records)
            && (key in st.w.records ==> u.w.records[key] == st.w.records[key]))
  {
    var u := Synced(st, ns, listed, out, fails).0;
    forall i | 0 <= i < |out| && LastOfItsName(out, i)
      ensures InLine(st, u, ns, listed, out, Name(ns, out[i].name))
      ensures Last(ns, out, Name(ns, out[i].name)) == Some(out[i])
    {
      SyncBringsInLine(st, ns, listed, out, fails, Name(ns, out[i].name));
      LastIsLast(ns, out, i);
    }
    forall key: Name | key.namespace != ns || Unnamed(out, key.name)
      ensures SweptAt(st, u, listed, {}, key)
    {
      SyncBringsInLine(st, ns, listed, out, fails, key);
      LastIsNone(ns, out, key);
    }
  }

  lemma ListedStaysOwned(st: Store, ns: string, listed: seq<Name>, out: seq<Item>, fails: set<nat>)
    requires Sound(st) && Lists(st, ns, listed)
    ensures forall k <- listed :: k in Written(st, ns, listed, out, fails).0.owned
  {
    forall k <- listed ensures k in Written(st, ns, listed, out, fails).0.owned {
      WrittenByKey(st, ns, listed, out, fails, k);
    }
  }

  /**
   However a sync ends, no record loses a finalizer or its ledger, no record held by a finalizer goes, and strangers
   are untouched.
   */
  lemma SyncSpares(st: Store, ns: string, listed: seq<Name>, out: seq<Item>, fails: set<nat>, key: Name)
    requires Sound(st) && Lists(st, ns, listed) && key in st.w.records
    ensures var u := Synced(st, ns, listed, out, fails).0;
      && Sound(u)
      && (key !in st.owned ==> key in u.w.records && u.w.records[key] == st.w.records[key])
      && (st.w.records[key].meta.finalizers != [] ==>
            && key in u.w.records && u.w.records[key].meta.finalizers == st.w.records[key].meta.finalizers
            && u.w.records[key].statuses == st.w.records[key].statuses)
  {
    var t := Written(st, ns, listed, out, fails).0;
    WrittenByKey(st, ns, listed, out, fails, key);
    ListedStaysOwned(st, ns, listed, out, fails);
    SweptByKey(t, Keys(ns, out), listed, fails, |out|, key);
  }

  /** An item can be written: its record is listed, or its name is free and comes up for the first time. */
  ghost predicate Placeable(st: Store, ns: string, listed: seq<Name>, out: seq<Item>, i: nat)
    requires i < |out|
  {
    var key := KeyOf(ns, out[i]);
    key in listed || (key !in st.w.records && key !in Keys(ns, out[..i]))
  }

  ghost predicate AllPlaceable(st: Store, ns: string, listed: seq<Name>, out: seq<Item>) {
    forall i | 0 <= i < |out| :: Placeable(st, ns, listed, out, i)
  }

  ghost predicate SweepAnswered(kept: set<Name>, listed: seq<Name>, fails: set<nat>, base: nat) {
    forall j | 0 <= j < |listed| :: base + j in fails ==> listed[j] in kept
  }

  ghost predicate WritesAnswered(out: seq<Item>, fails: set<nat>) {
    forall i | 0 <= i < |out| :: i !in fails
  }

  lemma {:induction false} WritesSucceedExactly(st: Store, ns: string, listed: seq<Name>, out: seq<Item>,
        fails: set<nat>)
    requires Sound(st) && Lists(st, ns, listed)
    ensures Written(st, ns, listed, out, fails).1 <==>
      AllPlaceable(st, ns, listed, out) && WritesAnswered(out, fails)
  {
    if out != [] {
      var n := |out| - 1;
      var front := out[..n];
      WritesSucceedExactly(st, ns, listed, front, fails);
      forall i | 0 <= i < n ensures Placeable(st, ns, listed, front, i) <==> Placeable(st, ns, listed, out, i) {
        assert front[..i] == out[..i];
      }
      var key := KeyOf(ns, out[n]);
      WrittenByKey(st, ns, listed, front, fails, key);
      LastInKeys(ns, front, key);
      if Written(st, ns, listed, front, fails).1 {
        assert Wrote(Written(st, ns, listed, front, fails).0, ns, listed, out[n], n in fails).1
           <==> n !in fails && Placeable(st, ns, listed, out, n);
      }
    }
  }

  lemma {:induction false} SweepSucceedsExactly(t: Store, kept: set<Name>, listed: seq<Name>, fails: set<nat>,
        base: nat)
    requires Sound(t) && (forall k <- listed :: k in t.owned)
    requires forall i, j :: 0 <= i < j < |listed| ==> listed[i] != listed[j]
    ensures Swept(t, kept, listed, fails, base).1 <==> SweepAnswered(kept, listed, fails, base)
  {
    if listed != [] {
      var n := |listed| - 1;
      SweepSucceedsExactly(t, kept, listed[..n], fails, base);
      SweptByKey(t, kept, listed[..n], fails, base, listed[n]);
      assert forall j | 0 <= j < n :: listed[..n][j] == listed[j];
    }
  }

  /**
   A sync succeeds exactly when none of its API calls fails and every item can be written: a new name that is
   repeated, or that someone else holds, is an error.
   */
  lemma SyncSucceedsExactly(st: Store, ns: string, listed: seq<Name>, out: seq<Item>, fails: set<nat>)
    requires Sound(st) && Lists(st, ns, listed)
    ensures Synced(st, ns, listed, out, fails).1 <==>
      && AllPlaceable(st, ns, listed, out) && WritesAnswered(out, fails)
      && SweepAnswered(Keys(ns, out), listed, fails, |out|)
  {
    WritesSucceedExactly(st, ns, listed, out, fails);
    WrittenByKey(st, ns, listed, out, fails, Name("", ""));
    ListedStaysOwned(st, ns, listed, out, fails);
    SweepSucceedsExactly(Written(st, ns, listed, out, fails).0, Keys(ns, out), listed, fails, |out|);
  }

  /** The same records with the same content; only generations may differ. */
  ghost predicate SameContent(a: World, b: World) {
    && a.records.Keys == b.records.Keys
    && forall k <- a.records ::
         SameLedger(a.records[k], b.records[k]) && a.records[k].labels == b.records[k].labels
           && a.records[k].spec == b.records[k].spec
  }

  /** Once in line, a sync with the same output succeeds again and changes no content. */
  lemma SecondSyncKeepsContent(st: Store, ns: string, listed: seq<Name>, out: seq<Item>, fails: set<nat>,
        again: seq<Name>)
    requires Sound(st) && Lists(st, ns, listed) && Synced(st, ns, listed, out, fails).1
    requires Lists(Synced(st, ns, listed, out, fails).0, ns, again)
    ensures var u := Synced(st, ns, listed, out, fails).0;
      var (v, ok) := Synced(u, ns, again, out, {});
      ok && SameContent(v.w, u.w)
  {
    var u := Synced(st, ns, listed, out, fails).0;
    SyncBringsInLine(st, ns, listed, out, fails, Name("", ""));
    forall i | 0 <= i < |out| ensures Placeable(u, ns, again, out, i) {
      KeysHold(ns, out, i);
      LastInKeys(ns, out, KeyOf(ns, out[i]));
      SyncBringsInLine(st, ns, listed, out, fails, KeyOf(ns, out[i]));
    }
    SyncSucceedsExactly(u, ns, again, out, {});
    var v := Synced(u, ns, again, out, {}).0;
    forall k
      ensures k in u.w.records <==> k in v.w.records
      ensures k in u.w.records ==>
        SameLedger(v.w.records[k], u.w.records[k]) && v.w.records[k].labels == u.w.records[k].labels
          && v.w.records[k].spec == u.w.records[k].spec
    {
      SyncBringsInLine(st, ns, listed, out, fails, k);
      SyncBringsInLine(u, ns, again, out, {}, k);
    }
  }

  lemma KeysHold(ns: string, out: seq<Item>, i: nat)
    requires i < |out|
    ensures KeyOf(ns, out[i]) in Keys(ns, out)
  {
  }

  ghost predicate RepeatsAgree(ns: string, out: seq<Item>) {
    forall i, j :: 0 <= i < |out| && 0 <= j < |out| && KeyOf(ns, out[i]) == KeyOf(ns, out[j]) ==> out[i] == out[j]
  }

  lemma {:induction false} RewritingKeeps(u: Store, ns: string, listed: seq<Name>, out: seq<Item>)
    requires Sound(u)
    requires forall i | 0 <= i < |out| ::
      KeyOf(ns, out[i]) in listed && KeyOf(ns, out[i]) in u.w.records && Matches(u.w.records[KeyOf(ns, out[i])], out[i])
    ensures Written(u, ns, listed, out, {}) == (u, true)
  {
    if out != [] {
      var n := |out| - 1;
      RewritingKeeps(u, ns, listed, out[..n]);
      var key := KeyOf(ns, out[n]);
      assert u.w.records[key := u.w.records[key]] == u.w.records;
      assert u.w.(records := u.w.records) == u.w;
    }
  }

  lemma {:induction false} ResweepingKeeps(u: Store, kept: set<Name>, listed: seq<Name>)
    requires Sound(u)
    requires forall k <- listed :: k in u.w.records && (k !in kept ==> u.w.records[k].meta.deleting)
    ensures Swept(u, kept, listed, {}, 0) == (u, true)
  {
    if listed != [] {
      var n := |listed| - 1;
      ResweepingKeeps(u, kept, listed[..n]);
      assert u.w.records[listed[n] := u.w.records[listed[n]]] == u.w.records;
      assert u.w.(records := u.w.records) == u.w;
    }
  }

  lemma {:induction false} SweepNumbering(u: Store, kept: set<Name>, listed: seq<Name>, a: nat, b: nat)
    ensures Swept(u, kept, listed, {}, a) == Swept(u, kept, listed, {}, b)
  {
    if listed != [] {
      SweepNumbering(u, kept, listed[..|listed| - 1], a, b);
    }
  }

  /** When items of one name agree, the second sync changes nothing at all, so it starts no further reconcile. */
  lemma SecondSyncIsIdle(st: Store, ns: string, listed: seq<Name>, out: seq<Item>, fails: set<nat>, again: seq<Name>)
    requires Sound(st) && Lists(st, ns, listed) && Synced(st, ns, listed, out, fails).1
    requires Lists(Synced(st, ns, listed, out, fails).0, ns, again)
    requires RepeatsAgree(ns, out)
    ensures var u := Synced(st, ns, listed, out, fails).0; Synced(u, ns, again, out, {}) == (u, true)
  {
    var u := Synced(st, ns, listed, out, fails).0;
    SyncBringsInLine(st, ns, listed, out, fails, Name("", ""));
    forall i | 0 <= i < |out|
      ensures KeyOf(ns, out[i]) in again && KeyOf(ns, out[i]) in u.w.records
        && Matches(u.w.records[KeyOf(ns, out[i])], out[i])
    {
      KeysHold(ns, out, i);
      LastInKeys(ns, out, KeyOf(ns, out[i]));
      SyncBringsInLine(st, ns, listed, out, fails, KeyOf(ns, out[i]));
    }
    RewritingKeeps(u, ns, again, out);
    forall k <- again ensures k in u.w.records && (k !in Keys(ns, out) ==> u.w.records[k].meta.deleting) {
      LastInKeys(ns, out, k);
      SyncBringsInLine(st, ns, listed, out, fails, k);
      assert k in u.owned && k.namespace == ns;
    }
    ResweepingKeeps(u, Keys(ns, out), again);
    SweepNumbering(u, Keys(ns, out), again, 0, |out|);
  }

  /** Lifecycle steps leading from one world to another. */
  ghost predicate Reaches(w: World, steps: seq<Step>, w': World)
    decreases steps
  {
    if steps == [] then w' == w
    else exists v {:trigger Takes(v, steps[|steps| - 1], w')} ::
      Reaches(w, steps[..|steps| - 1], v) && Takes(v, steps[|steps| - 1], w')
  }

  predicate OnlyRecords(steps: seq<Step>) {
    forall s <- steps :: s.CreateRecord? || s.EditRecord? || s.DeleteRecord?
  }

  lemma ReachesOneMore(w: World, steps: seq<Step>, v: World, step: Step, w': World)
    requires Reaches(w, steps, v) && Takes(v, step, w')
    ensures Reaches(w, steps + [step], w')
  {
    var longer := steps + [step];
    assert longer[..|longer| - 1] == steps;
    assert Takes(v, longer[|longer| - 1], w');
  }

  lemma {:induction false} ReachingKeepsInv(w: World, steps: seq<Step>, w': World)
    requires Safety.Inv(w) && Reaches(w, steps, w')
    ensures Safety.Inv(w')
    decreases steps
  {
    if steps != [] {
      var n := |steps| - 1;
      var v :| Reaches(w, steps[..n], v) && Takes(v, steps[n], w');
      ReachingKeepsInv(w, steps[..n], v);
      Safety.StepKeeps(v, steps[n], w');
    }
  }

  lemma WroteIsStep(t: Store, ns: string, listed: seq<Name>, item: Item, fails: bool) returns (steps: seq<Step>)
    ensures Reaches(t.w, steps, Wrote(t, ns, listed, item, fails).0.w) && |steps| <= 1 && OnlyRecords(steps)
  {
    var key := KeyOf(ns, item);
    var (u, ok) := Wrote(t, ns, listed, item, fails);
    steps := [];
    if ok {
      var step := if key in listed then EditRecord(key, item.labels, item.spec, t.w.records[key].meta.finalizers)
                  else CreateRecord(key, item.labels, item.spec, []);
      assert Takes(t.w, step, u.w);
      ReachesOneMore(t.w, [], t.w, step, u.w);
      steps := [] + [step];
    }
  }

  lemma DropIsStep(w: World, steps: seq<Step>, u: Store, key: Name)
    requires Reaches(w, steps, u.w) && key in u.w.records
    ensures Reaches(w, steps + [DeleteRecord(key)], Drop(u, key).w)
  {
    ReachesOneMore(w, steps, u.w, DeleteRecord(key), Drop(u, key).w);
  }

  lemma {:induction false} WritesAreSteps(st: Store, ns: string, listed: seq<Name>, out: seq<Item>, fails: set<nat>)
        returns (steps: seq<Step>)
    ensures Reaches(st.w, steps, Written(st, ns, listed, out, fails).0.w) && OnlyRecords(steps)
  {
    steps := [];
    if out != [] {
      var n := |out| - 1;
      var (t, ok) := Written(st, ns, listed, out[..n], fails);
      steps := WritesAreSteps(st, ns, listed, out[..n], fails);
      if ok {
        var more := WroteIsStep(t, ns, listed, out[n], n in fails);
        var u := Wrote(t, ns, listed, out[n], n in fails).0;
        if more != [] {
          var v :| Reaches(t.w, more[..0], v) && Takes(v, more[0], u.w);
          ReachesOneMore(st.w, steps, t.w, more[0], u.w);
          steps := steps + [more[0]];
        }
      }
    }
  }

  lemma {:induction false} SweepsAreSteps(w: World, steps: seq<Step>, t: Store, kept: set<Name>, listed: seq<Name>,
        fails: set<nat>, base: nat)
    returns (more: seq<Step>)
    requires Reaches(w, steps, t.w) && OnlyRecords(steps)
    ensures Reaches(w, more, Swept(t, kept, listed, fails, base).0.w) && OnlyRecords(more)
  {
    more := steps;
    if listed != [] {
      var n := |listed| - 1;
      more := SweepsAreSteps(w, steps, t, kept, listed[..n], fails, base);
      var (u, ok) := Swept(t, kept, listed[..n], fails, base);
      if ok && listed[n] !in kept && base + n !in fails && listed[n] in u.w.records {
        DropIsStep(w, more, u, listed[n]);
        more := more + [DeleteRecord(listed[n])];
      }
    }
  }

  /**
   A sync, however it ends, is a run of record creations, edits and deletions, so it keeps the invariants of the
   lifecycle.
   */
  lemma SyncIsLifecycleRun(st: Store, ns: string, listed: seq<Name>, out: seq<Item>, fails: set<nat>)
        returns (steps: seq<Step>)
    ensures Reaches(st.w, steps, Synced(st, ns, listed, out, fails).0.w) && OnlyRecords(steps)
    ensures Safety.Inv(st.w) ==> Safety.Inv(Synced(st, ns, listed, out, fails).0.w)
  {
    var (t, ok) := Written(st, ns, listed, out, fails);
    steps := WritesAreSteps(st, ns, listed, out, fails);
    if ok {
      steps := SweepsAreSteps(st.w, steps, t, Keys(ns, out), listed, fails, |out|);
    }
    if Safety.Inv(st.w) {
      ReachingKeepsInv(st.w, steps, Synced(st, ns, listed, out, fails).0.w);
    }
  }

  /** The names of the output without an owned record yet. */
  function Pending(st: Store, ns: string, out: seq<Item>): set<Name> {
    Keys(ns, out) - st.owned
  }

  /** No name of the output belongs to somebody else's record. */
  ghost predicate Unclaimed(st: Store, ns: string, out: seq<Item>) {
    forall k <- Keys(ns, out) :: k in st.w.records ==> k in st.owned
  }

  lemma {:induction false} FailedWriteGains(st: Store, ns: string, listed: seq<Name>, out: seq<Item>)
        returns (key: Name)
    requires Sound(st) && Lists(st, ns, listed) && Unclaimed(st, ns, out)
    requires !Written(st, ns, listed, out, {}).1
    ensures key in Pending(st, ns, out) && key in Written(st, ns, listed, out, {}).0.owned
  {
    var n := |out| - 1;
    assert out[..n + 1] == out;
    KeysGrow(ns, out, n);
    if Written(st, ns, listed, out[..n], {}).1 {
      key := KeyOf(ns, out[n]);
      WrittenByKey(st, ns, listed, out[..n], {}, key);
    } else {
      key := FailedWriteGains(st, ns, listed, out[..n]);
    }
  }

  /** A sync that fails although the API answered every call has created a record for some name that had none. */
  lemma FailedSyncGains(st: Store, ns: string, listed: seq<Name>, out: seq<Item>)
    requires Sound(st) && Lists(st, ns, listed) && Unclaimed(st, ns, out)
    requires !Synced(st, ns, listed, out, {}).1
    ensures var u := Synced(st, ns, listed, out, {}).0;
      Sound(u) && Unclaimed(u, ns, out) && Pending(u, ns, out) < Pending(st, ns, out)
  {
    var (t, ok) := Written(st, ns, listed, out, {});
    WrittenByKey(st, ns, listed, out, {}, Name("", ""));
    ListedStaysOwned(st, ns, listed, out, {});
    SweepSucceedsExactly(t, Keys(ns, out), listed, {}, |out|);
    var key := FailedWriteGains(st, ns, listed, out);
    forall k ensures k in st.owned ==> k in t.owned
      ensures k in Keys(ns, out) && k in t.w.records ==> k in t.owned
    {
      WrittenByKey(st, ns, listed, out, {}, k);
    }
    assert key in Pending(st, ns, out) && key !in Pending(t, ns, out);
  }

  /** Syncs with one output, each with its own listing of what is owned by then. */
  ghost predicate Listings(st: Store, ns: string, out: seq<Item>, listings: seq<seq<Name>>)
    decreases listings
  {
    listings != [] ==> Lists(st, ns, listings[0]) && Listings(Synced(st, ns, listings[0], out, {}).0, ns, out,
      listings[1..])
  }

  ghost predicate SomeSucceeds(st: Store, ns: string, out: seq<Item>, listings: seq<seq<Name>>)
    decreases listings
  {
    listings != [] &&
      var (u, ok) := Synced(st, ns, listings[0], out, {});
      ok || SomeSucceeds(u, ns, out, listings[1..])
  }

  /** Repeated new names make a sync fail, but one more sync than there are names without a record is always enough. */
  lemma {:induction false} SyncsSettle(st: Store, ns: string, out: seq<Item>, listings: seq<seq<Name>>)
    requires Sound(st) && Unclaimed(st, ns, out) && Listings(st, ns, out, listings)
    requires |listings| > |Pending(st, ns, out)|
    ensures SomeSucceeds(st, ns, out, listings)
    decreases listings
  {
    var (u, ok) := Synced(st, ns, listings[0], out, {});
    if !ok {
      FailedSyncGains(st, ns, listings[0], out);
      Laws.ProperSubsetIsSmaller(Pending(u, ns, out), Pending(st, ns, out));
      SyncsSettle(u, ns, out, listings[1..]);
    }
  }
}
