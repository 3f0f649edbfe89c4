/** The invariants of the lifecycle: no orphaned entries, no provider vanishing while an id names it. */
module ProtocolSafety {
  import opened Api
  import opened Names
  import opened RecordSync
  import opened Protocol
  import Laws = RecordLaws

  /** The id that record `rk` holds at provider `k`, or the empty string. */
  function IdAt(w: World, rk: Name, k: Name): string {
    if rk in w.records then IdOf(w.records[rk].statuses, k) else ""
  }

  function IdOf(ss: seq<Status>, k: Name): string {
    match Find(ss, k)
    case None => ""
    case Some(s) => s.id
  }

  /** Ids are held only by records that bear the finalizer, at providers that exist and bear it too. */
  ghost predicate Ledgers(w: World) {
    && (forall rk <- w.records :: UniqueKeys(w.records[rk].statuses))
    && (forall rk, k {:trigger IdAt(w, rk, k)} :: IdAt(w, rk, k) != "" ==> Backed(w, rk, k))
  }

  ghost predicate Backed(w: World, rk: Name, k: Name) {
    && rk in w.records && FINALIZER in w.records[rk].meta.finalizers
    && k in w.providers && FINALIZER in w.providers[k].meta.finalizers
    && InReach(rk, k)
  }

  ghost predicate NamesEntry(w: World, rk: Name, k: Name, target: string, id: string) {
    IdAt(w, rk, k) == id && k in w.providers && w.providers[k].spec.target == target
  }

  /** Every live entry of the controller is named by a status of a record, at a provider of that zone. */
  ghost predicate NoOrphans(w: World) {
    forall target <- w.zones, id <- w.zones[target] :: id != "" && exists rk, k :: NamesEntry(w, rk, k, target, id)
  }

  /**
   A cached backend of the current generation was built from the current spec, and only after the finalizer was set.
   */
  ghost predicate CacheOk(w: World) {
    && (forall k <- w.providers :: CacheEntryOk(w.providers[k], w.cache) && w.providers[k].meta.uid < w.nextUid)
    && (forall a <- w.providers, b <- w.providers :: a != b ==> w.providers[a].meta.uid != w.providers[b].meta.uid)
    && (forall uid <- w.cache :: uid < w.nextUid)
  }

  ghost predicate CacheEntryOk(p: ProviderObj, cache: map<nat, Cached>) {
    p.meta.uid in cache ==>
      && cache[p.meta.uid].generation <= p.meta.generation
      && (cache[p.meta.uid].generation == p.meta.generation ==> cache[p.meta.uid].spec == p.spec)
      && (FINALIZER in p.meta.finalizers || p.meta.deleting)
  }

  ghost predicate Inv(w: World) {
    Ledgers(w) && NoOrphans(w) && CacheOk(w)
  }

  /** A step that leaves all ids, and whatever backs them, in place. */
  lemma KeepsLedgers(w: World, w': World)
    requires Ledgers(w) && NoOrphans(w)
    requires forall rk <- w'.records :: UniqueKeys(w'.records[rk].statuses)
    requires forall rk, k {:trigger IdAt(w', rk, k)} :: IdAt(w', rk, k) == IdAt(w, rk, k)
    requires forall rk, k {:trigger IdAt(w, rk, k)} :: IdAt(w, rk, k) != "" ==>
      Backed(w', rk, k) && w'.providers[k].spec.target == w.providers[k].spec.target
    requires forall target <- w'.zones :: w'.zones[target] <= w.ZoneOf(target)
    ensures Ledgers(w') && NoOrphans(w')
  {
    forall target <- w'.zones, id <- w'.zones[target] ensures id != "" && exists rk, k ::
      NamesEntry(w', rk, k, target, id) {
      assert id in w.zones[target];
      var rk, k :| NamesEntry(w, rk, k, target, id);
      assert IdAt(w', rk, k) == IdAt(w, rk, k) == id != "";
      assert NamesEntry(w', rk, k, target, id);
    }
  }

  /** Writing back a record with the same ledger, its finalizer kept. */
  lemma PutRecordKeeps(w: World, key: Name, r: RecordObj, uid: nat)
    requires Inv(w) && w.nextUid <= uid
    requires key in w.records ==>
      r.statuses == w.records[key].statuses && (FINALIZER in w.records[key].meta.finalizers
        ==> FINALIZER in r.meta.finalizers)
    requires key !in w.records ==> r.statuses == []
    ensures Inv(PutRecord(w.(nextUid := uid), key, r))
  {
    var w' := PutRecord(w.(nextUid := uid), key, r);
    forall rk, k ensures IdAt(w', rk, k) == IdAt(w, rk, k) {
      if rk == key && key in w.records {
        assert IdAt(w, key, k) != "" ==> Backed(w, key, k);
      }
    }
    forall rk, k | IdAt(w, rk, k) != ""
      ensures Backed(w', rk, k) && w'.providers[k].spec.target == w.providers[k].spec.target
    {
      assert Backed(w, rk, k);
    }
    KeepsLedgers(w, w');
  }

  /** Writing back a provider whose finalizer and zone stay, unless no record holds an id there. */
  lemma PutProviderKeeps(w: World, key: Name, p: ProviderObj, cache: map<nat, Cached>, uid: nat)
    requires Inv(w) && w.nextUid <= uid
    requires (exists rk :: IdAt(w, rk, key) != "") ==>
      key in w.providers && p.spec.target == w.providers[key].spec.target && FINALIZER in p.meta.finalizers
    requires p.meta.uid < uid && CacheEntryOk(p, cache)
    requires forall u <- cache :: u < uid
    requires forall k <- w.providers :: k != key ==>
      w.providers[k].meta.uid != p.meta.uid && CacheEntryOk(w.providers[k], cache)
    ensures Inv(PutProvider(w.(nextUid := uid, cache := cache), key, p))
  {
    var w' := PutProvider(w.(nextUid := uid, cache := cache), key, p);
    forall rk, k ensures IdAt(w', rk, k) == IdAt(w, rk, k) {
    }
    forall rk, k | IdAt(w, rk, k) != ""
      ensures Backed(w', rk, k) && w'.providers[k].spec.target == w.providers[k].spec.target
    {
      assert Backed(w, rk, k);
    }
    KeepsLedgers(w, w');
  }

  lemma BusyExactly(w: World, key: Name)
    requires Ledgers(w)
    ensures Busy(w, key) <==> exists rk :: IdAt(w, rk, key) != ""
  {
    if Busy(w, key) {
      var rk :| rk in w.records && HoldsId(w.records[rk], key);
      var r := w.records[rk];
      assert HoldsId(r, key);
      var s :| s in r.statuses && s.key == key && s.id != "";
      Laws.FindMember(r.statuses, s);
      assert IdAt(w, rk, key) != "";
    }
    if rk :| IdAt(w, rk, key) != "" {
      assert Backed(w, rk, key);
      var ss := w.records[rk].statuses;
      Laws.FindKey(ss, key);
      var s := Find(ss, key).value;
      assert s in ss && s.key == key && s.id != "";
      assert HoldsId(w.records[rk], key);
    }
  }

  /** What a reconcile does to the id held at one provider. */
  lemma IdAfter(env: Env, ss: seq<Status>, k: Name)
    requires UniqueKeys(ss) && env.Distinct() && Laws.Honest(env, ss)
    ensures UniqueKeys(Reconciled(env, ss))
    ensures IdOf(Reconciled(env, ss), k) ==
      if CallAt(env, k, ss).Some? then env.AnswerOf(k).id
      else if Picked(env.providers, k) == None && env.FetchOf(k).Missing? then ""
      else IdOf(ss, k)
  {
    Laws.ReconciledByKey(env, ss, k);
    Laws.FindKey(ss, k);
    Laws.PickedKey(env.providers, k);
    assert Laws.HonestAt(env, k, ss);
  }

  lemma {:induction false} PickedInOrder(w: World, r: RecordObj, order: seq<Name>, k: Name)
    requires forall o <- order :: o in w.providers
    ensures Picked(seq(|order|, i requires 0 <= i < |order| => ViewOf(w, r, order[i])), k) ==
      if k in order && Selects(w.providers[k].spec, r) then Some(ViewOf(w, r, k)) else None
  {
    if order != [] {
      var n := |order| - 1;
      var views := seq(|order|, i requires 0 <= i < |order| => ViewOf(w, r, order[i]));
      assert views[..n] == seq(n, i requires 0 <= i < n => ViewOf(w, r, order[..n][i]));
      PickedInOrder(w, r, order[..n], k);
      assert order == order[..n] + [order[n]];
    }
  }

  /** A Record reconcile that may happen in `w`. */
  ghost predicate Offered(w: World, s: Step) {
    s.ReconcileRecord? && Enabled(w, s)
  }

  lemma EnvFacts(w: World, s: Step, k: Name)
    requires Offered(w, s)
    ensures EnvOf(w, s).Distinct() && EnvOf(w, s).WellFormed()
    ensures EnvOf(w, s).FetchOf(k) == FetchIn(w, s.failures, k)
    ensures Picked(EnvOf(w, s).providers, k) ==
      if k in s.order && Selects(w.providers[k].spec, w.records[s.key]) then Some(ViewOf(w, w.records[s.key], k))
        else None
  {
    PickedInOrder(w, w.records[s.key], s.order, k);
  }

  lemma EnvHonest(w: World, s: Step)
    requires Offered(w, s)
    ensures Laws.Honest(EnvOf(w, s), w.records[s.key].statuses)
  {
    var env, ss := EnvOf(w, s), w.records[s.key].statuses;
    forall k ensures Laws.HonestAt(env, k, ss) {
      EnvFacts(w, s, k);
      assert CallAt(env, k, ss).Some? ==> CallSafe(CallAt(env, k, ss).value, s.replies[k]);
    }
  }

  /** The call, if any, that the reconcile makes at one provider. */
  ghost function CallIn(w: World, s: Step, k: Name): Option<Call>
    requires Offered(w, s)
  {
    CallAt(EnvOf(w, s), k, w.records[s.key].statuses)
  }

  ghost function LedgerAfter(w: World, s: Step): seq<Status>
    requires Offered(w, s)
  {
    Reconciled(EnvOf(w, s), w.records[s.key].statuses)
  }

  /** A call reaches the zone its provider points to now, and only a provider that bears the finalizer. */
  lemma CallReachesZone(w: World, s: Step, k: Name)
    requires CacheOk(w) && Ledgers(w) && Offered(w, s) && CallIn(w, s, k).Some?
    ensures k in w.providers && CallTarget(w, k) == w.providers[k].spec.target
    ensures InReach(s.key, k) && FINALIZER in w.providers[k].meta.finalizers
    ensures CallIn(w, s, k).value.id == IdAt(w, s.key, k)
    ensures k in s.replies && CallSafe(CallIn(w, s, k).value, s.replies[k])
  {
    EnvFacts(w, s, k);
    Laws.FindKey(w.records[s.key].statuses, k);
    assert IdAt(w, s.key, k) != "" ==> Backed(w, s.key, k);
  }

  /** The id held at one provider after the reconcile. */
  lemma LedgerIdAfter(w: World, s: Step, k: Name)
    requires Inv(w) && Offered(w, s)
    ensures UniqueKeys(LedgerAfter(w, s))
    ensures IdOf(LedgerAfter(w, s), k) ==
      if CallIn(w, s, k).Some? then s.replies[k].answer.id else IdAt(w, s.key, k)
  {
    EnvFacts(w, s, k);
    EnvHonest(w, s);
    IdAfter(EnvOf(w, s), w.records[s.key].statuses, k);
    if CallIn(w, s, k).Some? {
      CallReachesZone(w, s, k);
    }
    assert IdAt(w, s.key, k) != "" ==> Backed(w, s.key, k);
  }

  /** The object side of reconciling a record that bears the finalizer; the zones of `w'` are left open. */
  ghost predicate Reconciling(w: World, s: Step, w': World) {
    && Inv(w) && Offered(w, s) && FINALIZER in w.records[s.key].meta.finalizers
    && w' == PutRecord(w, s.key, AfterReconcile(EnvOf(w, s), w.records[s.key], s.written)).(zones := w'.zones)
  }

  lemma ReleasedHoldsNothing(w: World, s: Step, k: Name)
    requires Inv(w) && Offered(w, s) && w.records[s.key].meta.deleting
    requires Complaints(LedgerAfter(w, s)) == []
    ensures IdOf(LedgerAfter(w, s), k) == ""
  {
    EnvFacts(w, s, k);
    EnvHonest(w, s);
    Laws.ReleaseIsClean(EnvOf(w, s), w.records[s.key].statuses, k);
  }

  /** The stored record carries the new ledger; it, or its finalizer, is gone only after a clean release. */
  lemma PutAfter(w: World, s: Step, w': World)
    requires Reconciling(w, s, w')
    ensures s.key in w'.records ==> w'.records[s.key].statuses == LedgerAfter(w, s)
    ensures s.key !in w'.records || FINALIZER !in w'.records[s.key].meta.finalizers ==>
      w.records[s.key].meta.deleting && Complaints(LedgerAfter(w, s)) == []
  {
    assert w.records[s.key].meta.finalizers != [];
  }

  lemma ReconcileIds(w: World, s: Step, w': World, rk: Name, k: Name)
    requires Reconciling(w, s, w')
    ensures IdAt(w', rk, k) ==
      if rk != s.key then IdAt(w, rk, k)
      else if CallIn(w, s, k).Some? then s.replies[k].answer.id else IdAt(w, rk, k)
    ensures IdAt(w', s.key, k) != "" ==> s.key in w'.records && FINALIZER in w'.records[s.key].meta.finalizers
  {
    var r, after := w.records[s.key], LedgerAfter(w, s);
    if rk != s.key {
      assert rk in w'.records <==> rk in w.records;
    }
    LedgerIdAfter(w, s, k);
    PutAfter(w, s, w');
    if s.key !in w'.records {
      ReleasedHoldsNothing(w, s, k);
    } else if FINALIZER !in w'.records[s.key].meta.finalizers {
      ReleasedHoldsNothing(w, s, k);
    }
  }

  lemma ReconcileBacks(w: World, s: Step, w': World, rk: Name, k: Name)
    requires Reconciling(w, s, w') && IdAt(w', rk, k) != ""
    ensures Backed(w', rk, k)
  {
    ReconcileIds(w, s, w', rk, k);
    if rk == s.key && CallIn(w, s, k).Some? {
      CallReachesZone(w, s, k);
    } else {
      assert Backed(w, rk, k);
    }
  }

  /** An entry that a call added is named by the status that call was made for. */
  lemma GainedIsNamed(w: World, s: Step, w': World, k: Name, target: string, id: string)
    requires Reconciling(w, s, w')
    requires CallIn(w, s, k).Some? && CallTarget(w, k) == target && k in s.replies && id in s.replies[k].gained
    ensures id != "" && NamesEntry(w', s.key, k, target, id)
  {
    ReconcileIds(w, s, w', s.key, k);
    CallReachesZone(w, s, k);
  }

  /** An entry that no call took away keeps the status that named it. */
  lemma KeptIsNamed(w: World, s: Step, w': World, rk: Name, k: Name, target: string, id: string)
    requires Reconciling(w, s, w')
    requires id != "" && NamesEntry(w, rk, k, target, id)
    requires CallIn(w, s, k).Some? && CallTarget(w, k) == target && k in s.replies ==> id !in s.replies[k].gone
    ensures NamesEntry(w', rk, k, target, id)
  {
    ReconcileIds(w, s, w', rk, k);
    if rk == s.key && CallIn(w, s, k).Some? {
      CallReachesZone(w, s, k);
    }
  }

  lemma ReconcileKeepsLedgers(w: World, s: Step, w': World)
    requires Reconciling(w, s, w')
    ensures Ledgers(w') && CacheOk(w')
  {
    forall rk, k | IdAt(w', rk, k) != "" ensures Backed(w', rk, k) {
      ReconcileBacks(w, s, w', rk, k);
    }
    LedgerIdAfter(w, s, s.key);
  }

  lemma ReconcileKeeps(w: World, s: Step, w': World)
    requires Reconciling(w, s, w')
    requires ZonesFollow(w, EnvOf(w, s), w.records[s.key].statuses, s.replies, w'.zones)
    ensures Inv(w')
  {
    var env, ss := EnvOf(w, s), w.records[s.key].statuses;
    ReconcileKeepsLedgers(w, s, w');
    forall target <- w'.zones, id <- w'.zones[target]
      ensures id != "" && exists rk, k :: NamesEntry(w', rk, k, target, id)
    {
      if k :| Calls(w, env, ss, k, target) && k in s.replies && id in s.replies[k].gained {
        GainedIsNamed(w, s, w', k, target, id);
      } else {
        assert id in w.zones[target];
        var rk, k :| NamesEntry(w, rk, k, target, id);
        assert Calls(w, env, ss, k, target) && k in s.replies ==> id !in s.replies[k].gone;
        KeptIsNamed(w, s, w', rk, k, target, id);
      }
    }
  }

  lemma EditRecordKeeps(w: World, key: Name, labels: map<string, string>, spec: RecordSpec, meta: Meta)
    requires Inv(w) && key in w.records
    requires FINALIZER in w.records[key].meta.finalizers ==> FINALIZER in meta.finalizers
    ensures Inv(PutRecord(w, key, RecordObj(meta, labels, spec, w.records[key].statuses)))
  {
    assert w.(nextUid := w.nextUid) == w;
    PutRecordKeeps(w, key, RecordObj(meta, labels, spec, w.records[key].statuses), w.nextUid);
  }

  /** An existing provider written back with its uid: the cache stays right if the generation moves with the spec. */
  lemma EditProviderKeeps(w: World, key: Name, p': ProviderObj, cache': map<nat, Cached>)
    requires Inv(w) && key in w.providers
    requires p'.meta.uid == w.providers[key].meta.uid && CacheEntryOk(p', cache')
    requires cache'.Keys <= w.cache.Keys + {p'.meta.uid}
    requires forall uid <- cache' :: uid != p'.meta.uid ==> cache'[uid] == w.cache[uid]
    requires Busy(w, key) ==> p'.spec.target == w.providers[key].spec.target && FINALIZER in p'.meta.finalizers
    ensures Inv(PutProvider(w.(cache := cache'), key, p'))
  {
    BusyExactly(w, key);
    forall k <- w.providers | k != key ensures w.providers[k].meta.uid != p'.meta.uid
      && CacheEntryOk(w.providers[k], cache') {
      assert CacheEntryOk(w.providers[k], w.cache);
    }
    assert w.(nextUid := w.nextUid, cache := cache') == w.(cache := cache');
    PutProviderKeeps(w, key, p', cache', w.nextUid);
  }

  lemma BusyIsBacked(w: World, key: Name)
    requires Ledgers(w) && Busy(w, key)
    ensures key in w.providers && FINALIZER in w.providers[key].meta.finalizers
  {
    BusyExactly(w, key);
    var rk :| IdAt(w, rk, key) != "";
    assert Backed(w, rk, key);
  }

  lemma CreateProviderKeeps(w: World, key: Name, config: ProviderSpec, fs: seq<string>)
    requires Inv(w) && key !in w.providers
    ensures Inv(PutProvider(w.(nextUid := w.nextUid + 1), key, ProviderObj(Meta(w.nextUid, 1, false, fs), config)))
  {
    BusyExactly(w, key);
    if Busy(w, key) {
      BusyIsBacked(w, key);
    }
    assert w.(nextUid := w.nextUid + 1, cache := w.cache) == w.(nextUid := w.nextUid + 1);
    PutProviderKeeps(w, key, ProviderObj(Meta(w.nextUid, 1, false, fs), config), w.cache, w.nextUid + 1);
  }

  lemma ProviderReconcileKeeps(w: World, key: Name, built: bool, written: bool)
    requires Inv(w) && key in w.providers
    ensures var p, busy := w.providers[key], Busy(w, key);
      Inv(PutProvider(w.(cache := CacheAfter(p, w.cache, busy, built)), key, AfterProvider(p, busy, written)))
  {
    var p, busy := w.providers[key], Busy(w, key);
    if busy {
      BusyIsBacked(w, key);
    }
    assert CacheEntryOk(p, w.cache);
    EditProviderKeeps(w, key, AfterProvider(p, busy, written), CacheAfter(p, w.cache, busy, built));
  }

  lemma ProviderStepKeeps(w: World, s: Step, w': World)
    requires Inv(w) && (s.EditProvider? || s.DeleteProvider?) && Takes(w, s, w')
    ensures Inv(w')
  {
    var p := w.providers[s.key];
    if Busy(w, s.key) {
      BusyIsBacked(w, s.key);
    }
    assert w.(cache := w.cache) == w;
    assert CacheEntryOk(p, w.cache);
    if s.EditProvider? {
      EditProviderKeeps(w, s.key, ProviderObj(Edited(p.meta, s.config != p.spec, s.finalizers), s.config), w.cache);
    } else {
      EditProviderKeeps(w, s.key, p.(meta := Mark(p.meta)), w.cache);
    }
  }

  lemma RecordStepKeeps(w: World, s: Step, w': World)
    requires Inv(w) && Takes(w, s, w')
    requires s.CreateRecord? || s.EditRecord? || s.DeleteRecord?
    ensures Inv(w')
  {
    match s
    case CreateRecord(key, labels, spec, fs) =>
      PutRecordKeeps(w, key, RecordObj(Meta(w.nextUid, 1, false, fs), labels, spec, []), w.nextUid + 1);
    case EditRecord(key, labels, spec, fs) =>
      EditRecordKeeps(w, key, labels, spec, Edited(w.records[key].meta, spec != w.records[key].spec, fs));
    case DeleteRecord(key) =>
      var r := w.records[key];
      EditRecordKeeps(w, key, r.labels, r.spec, Mark(r.meta));
  }

  lemma RecordReconcileKeeps(w: World, s: Step, w': World)
    requires Inv(w) && s.ReconcileRecord? && Takes(w, s, w')
    ensures Inv(w')
  {
    var r := w.records[s.key];
    if FINALIZER in r.meta.finalizers {
      ReconcileKeeps(w, s, w');
    } else if !r.meta.deleting && s.written {
      EditRecordKeeps(w, s.key, r.labels, r.spec, r.meta.(finalizers := AddFinalizer(r.meta.finalizers)));
    }
  }

  lemma EntriesVanishKeeps(w: World, w': World)
    requires Inv(w) && w' == w.(zones := w'.zones) && forall target <- w'.zones :: w'.zones[target] <= w.ZoneOf(target)
    ensures Inv(w')
  {
    forall rk, k ensures IdAt(w', rk, k) == IdAt(w, rk, k) {
    }
    forall rk, k | IdAt(w, rk, k) != "" ensures Backed(w', rk, k) {
      assert Backed(w, rk, k);
    }
    KeepsLedgers(w, w');
  }

  /** Every step of the lifecycle keeps the invariants. */
  lemma StepKeeps(w: World, s: Step, w': World)
    requires Inv(w) && Takes(w, s, w')
    ensures Inv(w')
  {
    match s
    case Restart => KeepsLedgers(w, w');
    case EntriesVanish => EntriesVanishKeeps(w, w');
    case ReconcileRecord(_, _, _, _, _) => RecordReconcileKeeps(w, s, w');
    case CreateRecord(_, _, _, _) => RecordStepKeeps(w, s, w');
    case EditRecord(_, _, _, _) => RecordStepKeeps(w, s, w');
    case DeleteRecord(_) => RecordStepKeeps(w, s, w');
    case CreateProvider(key, config, fs) => CreateProviderKeeps(w, key, config, fs);
    case EditProvider(_, _, _) => ProviderStepKeeps(w, s, w');
    case DeleteProvider(_) => ProviderStepKeeps(w, s, w');
    case ReconcileProvider(key, built, written) => ProviderReconcileKeeps(w, key, built, written);
  }

  /** A run from the empty cluster. */
  ghost predicate Run(ws: seq<World>, steps: seq<Step>) {
    && |ws| == |steps| + 1 && ws[0] == INITIAL
    && forall i :: 0 <= i < |steps| ==> Takes(ws[i], steps[i], ws[i + 1])
  }

  lemma {:induction false} RunKeepsInv(ws: seq<World>, steps: seq<Step>, i: nat)
    requires Run(ws, steps) && i <= |steps|
    ensures Inv(ws[i])
  {
    if i > 0 {
      RunKeepsInv(ws, steps, i - 1);
      StepKeeps(ws[i - 1], steps[i - 1], ws[i - 1 + 1]);
    }
  }

  /**
   No orphans: over every run, each live entry of the controller is named by a record that bears the finalizer, at
   an existing provider.
   */
  lemma NoOrphansOverRuns(ws: seq<World>, steps: seq<Step>, i: nat, target: string, id: string)
    requires Run(ws, steps) && i <= |steps| && id in ws[i].ZoneOf(target)
    ensures exists rk, k :: NamesEntry(ws[i], rk, k, target, id) && Backed(ws[i], rk, k)
  {
    RunKeepsInv(ws, steps, i);
    var rk, k :| NamesEntry(ws[i], rk, k, target, id);
    assert Backed(ws[i], rk, k);
  }

  /** When a step removes a record, an entry it named is gone from the zone unless another record names it too. */
  lemma DisappearanceIsClean(ws: seq<World>, steps: seq<Step>, i: nat, rk: Name, k: Name, target: string, id: string)
    requires Run(ws, steps) && 0 < i <= |steps|
    requires NamesEntry(ws[i - 1], rk, k, target, id) && id != "" && rk !in ws[i].records
    ensures id in ws[i].ZoneOf(target) ==>
      exists other, k2 :: NamesEntry(ws[i], other, k2, target, id) && Backed(ws[i], other, k2) && other != rk
  {
    if id in ws[i].ZoneOf(target) {
      NoOrphansOverRuns(ws, steps, i, target, id);
      var other, k2 :| NamesEntry(ws[i], other, k2, target, id) && Backed(ws[i], other, k2);
      assert other != rk;
    }
  }

  /** Release safety: over every run, a status that holds an id names a provider that exists and bears the finalizer. */
  lemma ProviderOutlivesIds(ws: seq<World>, steps: seq<Step>, i: nat, rk: Name, s: Status)
    requires Run(ws, steps) && i <= |steps|
    requires rk in ws[i].records && s in ws[i].records[rk].statuses && s.id != ""
    ensures s.key in ws[i].providers && FINALIZER in ws[i].providers[s.key].meta.finalizers
    ensures FINALIZER in ws[i].records[rk].meta.finalizers
  {
    RunKeepsInv(ws, steps, i);
    Laws.FindMember(ws[i].records[rk].statuses, s);
    assert IdAt(ws[i], rk, s.key) != "";
    assert Backed(ws[i], rk, s.key);
  }

  /**
   A cache hit is the backend built from the provider's current spec; a provider that is being deleted gets only
   Deletes.
   */
  lemma CacheHitIsCurrent(ws: seq<World>, steps: seq<Step>, i: nat, k: Name)
    requires Run(ws, steps) && i < |steps| && Offered(ws[i], steps[i])
    requires CallIn(ws[i], steps[i], k).Some?
    ensures k in ws[i].providers
    ensures var p := ws[i].providers[k];
      && p.meta.uid in ws[i].cache && ws[i].cache[p.meta.uid].spec == p.spec
      && FINALIZER in p.meta.finalizers
      && (p.meta.deleting && Selects(p.spec, ws[i].records[steps[i].key]) && InReach(steps[i].key, k) ==>
          CallIn(ws[i], steps[i], k).value.op == Delete)
  {
    RunKeepsInv(ws, steps, i);
    CallReachesZone(ws[i], steps[i], k);
    EnvFacts(ws[i], steps[i], k);
    Laws.FindKey(ws[i].records[steps[i].key].statuses, k);
  }

  /**
   Pointing a provider at another zone, which the API allows at any time: the ledger still covers the zones
   exactly when every live entry of the old zone is named at some other provider as well.
   */
  lemma RetargetExactly(w: World, key: Name, config: ProviderSpec, w': World)
    requires Inv(w) && key in w.providers && FINALIZER in w.providers[key].meta.finalizers
    requires config.target != w.providers[key].spec.target
    requires w' == w.(providers := w.providers[key := ProviderObj(Edited(w.providers[key].meta, true,
      w.providers[key].meta.finalizers), config)])
    ensures NoOrphans(w') <==>
      forall id <- w.ZoneOf(w.providers[key].spec.target) ::
        exists rk, k :: k != key && NamesEntry(w, rk, k, w.providers[key].spec.target, id)
  {
    var was := w.providers[key].spec.target;
    forall rk, k, target, id | k != key ensures NamesEntry(w', rk, k, target, id)
      <==> NamesEntry(w, rk, k, target, id) {
      assert IdAt(w', rk, k) == IdAt(w, rk, k);
    }
    if NoOrphans(w') {
      forall id <- w.ZoneOf(was) ensures exists rk, k :: k != key && NamesEntry(w, rk, k, was, id) {
        assert was in w'.zones && id in w'.zones[was];
        var rk, k :| NamesEntry(w', rk, k, was, id);
        assert k != key && NamesEntry(w, rk, k, was, id);
      }
    } else {
      var target, id :| target in w'.zones && id in w'.zones[target] &&
        !(id != "" && exists rk, k :: NamesEntry(w', rk, k, target, id));
      var rk, k :| NamesEntry(w, rk, k, target, id);
      assert k == key && target == was;
      assert id in w.ZoneOf(was);
    }
  }

  ghost predicate OthersStay(w: World, w': World, key: Name) {
    && w'.providers == w.providers && w'.cache == w.cache
    && forall k :: k != key ==>
         (k in w'.records <==> k in w.records) && (k in w.records ==> w'.records[k] == w.records[k])
  }

  lemma PutLeavesOthers(w: World, key: Name, r: RecordObj)
    ensures OthersStay(w, PutRecord(w, key, r), key)
  {
  }

  /** The first reconcile of a record puts the finalizer on it, if it is not being deleted, and does nothing else. */
  lemma FirstReconcileWrites(w: World, s: Step, w': World)
    requires s.ReconcileRecord? && Takes(w, s, w') && FINALIZER !in w.records[s.key].meta.finalizers
    ensures var r := w.records[s.key];
      && OthersStay(w, w', s.key) && w'.zones == w.zones && s.key in w'.records
      && w'.records[s.key] ==
           if !s.written || r.meta.deleting then r
           else RecordObj(r.meta.(finalizers := r.meta.finalizers + [FINALIZER]), r.labels, r.spec, r.statuses)
  {
  }

  ghost predicate Silent(ss: seq<Status>) {
    forall l <- ss :: l.message == ""
  }

  /**
   Every later one writes the new ledger, and takes the finalizer off exactly when the record is being deleted, no line
   of the new ledger has a message, and the write succeeds. No other object changes.
   */
  lemma ReconcileWrites(w: World, s: Step, w': World)
    requires s.ReconcileRecord? && Takes(w, s, w') && FINALIZER in w.records[s.key].meta.finalizers
    ensures var r := w.records[s.key];
      var ledger := Reconciled(EnvOf(w, s), r.statuses);
      var fs :=
        if r.meta.deleting && s.written && Silent(ledger) then RemoveFinalizer(r.meta.finalizers)
        else r.meta.finalizers;
      && OthersStay(w, w', s.key)
      && (s.key in w'.records <==> !r.meta.deleting || fs != [])
      && (s.key in w'.records ==> w'.records[s.key] == RecordObj(r.meta.(finalizers := fs), r.labels, r.spec, ledger))
  {
    var r, env := w.records[s.key], EnvOf(w, s);
    NoComplaints(Reconciled(env, r.statuses));
    AfterReconcileWrites(env, r, s.written);
    PutLeavesOthers(w, s.key, AfterReconcile(env, r, s.written));
    StepPuts(w, s, w');
  }

  lemma AfterReconcileWrites(env: Env, r: RecordObj, written: bool)
    ensures var ledger := Reconciled(env, r.statuses);
      AfterReconcile(env, r, written) == RecordObj(
        r.meta.(finalizers := if r.meta.deleting && written && Silent(ledger) then RemoveFinalizer(r.meta.finalizers)
          else r.meta.finalizers),
        r.labels, r.spec, ledger)
  {
    NoComplaints(Reconciled(env, r.statuses));
  }

  lemma StepPuts(w: World, s: Step, w': World)
    requires s.ReconcileRecord? && Takes(w, s, w') && FINALIZER in w.records[s.key].meta.finalizers
    ensures w' == PutRecord(w, s.key, AfterReconcile(EnvOf(w, s), w.records[s.key], s.written)).(zones := w'.zones)
  {
  }
}
