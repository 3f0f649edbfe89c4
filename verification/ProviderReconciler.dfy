/** ProviderReconciler.Reconcile: the finalizer, the scan that delays its release, and the cache of built backends. */
module ProviderReconciler {
  import opened Api
  import opened Names
  import opened Protocol

  const WAIT_RECORDS := "waiting for Records"

  class Provider {
    const key: Name
    const uid: nat
    const generation: nat
    const deleting: bool
    const spec: ProviderSpec
    const finalizers: Finalizers
    var ready: bool
    var reason: string

    function View(): ProviderObj reads finalizers {
      ProviderObj(Meta(uid, generation, deleting, finalizers.items), spec)
    }

    constructor (key: Name, p: ProviderObj)
      ensures this.key == key && View() == p && fresh(finalizers)
    {
      this.key, uid, generation, deleting, spec := key, p.meta.uid, p.meta.generation, p.meta.deleting, p.spec;
      finalizers := new Finalizers(p.meta.finalizers);
      ready, reason := false, "";
    }
  }

  class Reconciler {
    var cache: map<nat, Cached>

    constructor ()
      ensures cache == map[]
    {
      cache := map[];
    }

    /** The nested loops over the listed records; the inner one stops at the first id. */
    static method CanDelete(key: Name, listed: seq<RecordObj>) returns (canDelete: bool)
      ensures canDelete <==> forall r <- listed :: !HoldsId(r, key)
    {
      canDelete := true;
      for i := 0 to |listed|
        invariant canDelete <==> forall j :: 0 <= j < i ==> !HoldsId(listed[j], key)
      {
        var ss := listed[i].statuses;
        ghost var before := canDelete;
        var n := 0;
        while n < |ss|
          invariant n <= |ss| && canDelete == before
          invariant forall j :: 0 <= j < n ==> ss[j].key == key ==> ss[j].id == ""
        {
          if ss[n].key == key && ss[n].id != "" {
            assert ss[n] in ss && HoldsId(listed[i], key);
            canDelete := false;
            break;
          }
          n := n + 1;
        }
      }
    }

    /** newDnsProvider: a failed build leaves the cache alone. */
    method Build(p: Provider, buildError: string)
      modifies this
      ensures cache == if buildError == "" then old(cache)[p.uid := Cached(p.generation, p.spec)] else old(cache)
    {
      if buildError == "" {
        cache := cache[p.uid := Cached(p.generation, p.spec)];
      }
    }

    /**
     `listed` is what the field index returned; error texts are empty where nothing failed. `stored` tells whether
     the API server took the object: it refuses a new finalizer on an object that is being deleted. When the list
     call fails, the step is one in which nothing is built and nothing is written.
     */
    method Reconcile(p: Provider, listed: seq<RecordObj>, listError: string, buildError: string, updateError: string)
      returns (requeue: bool, stored: bool)
      modifies this, p, p.finalizers
      ensures var busy := exists r <- listed :: HoldsId(r, p.key);
        var was := old(p.View());
        var blind := FINALIZER in was.meta.finalizers && p.deleting && listError != "";
        && cache == CacheAfter(was, old(cache), busy, buildError == "" && !blind)
        && (if stored then p.View() else was) == AfterProvider(was, busy, updateError == "" && !blind)
      ensures FINALIZER !in old(p.finalizers.items) ==>
        && cache == old(cache) && p.ready == old(p.ready) && p.reason == old(p.reason)
        && p.finalizers.items == old(p.finalizers.items) + [FINALIZER]
        && (requeue <==> stored) && (stored <==> updateError == "" && !p.deleting)
      ensures FINALIZER in old(p.finalizers.items) && !p.deleting ==>
        && cache == (if buildError == "" then old(cache)[p.uid := Cached(p.generation, p.spec)] else old(cache))
        && p.finalizers.items == old(p.finalizers.items) && stored
        && (p.ready <==> buildError == "") && p.reason == buildError && (requeue <==> buildError != "")
      ensures FINALIZER in old(p.finalizers.items) && p.deleting && listError != "" ==>
        && cache == old(cache) && p.finalizers.items == old(p.finalizers.items)
        && !p.ready && p.reason == listError && !requeue
      ensures FINALIZER in old(p.finalizers.items) && p.deleting && listError == "" ==>
        if forall r <- listed, s <- r.statuses :: s.key == p.key ==> s.id == "" then
          && cache == old(cache) && p.finalizers.items == RemoveFinalizer(old(p.finalizers.items))
          && (stored <==> updateError == "") && (p.ready <==> updateError == "") && p.reason == updateError && !requeue
        else
          var cached := p.uid in old(cache) && old(cache)[p.uid].generation == p.generation;
          && cache == (
               if cached || buildError != "" then old(cache) else old(cache)[p.uid := Cached(p.generation, p.spec)])
          && p.finalizers.items == old(p.finalizers.items) && stored
          && !p.ready && requeue
          && p.reason == (if !cached && buildError != "" then buildError else "waiting for Records")
    {
      var changed := p.finalizers.Add();
      if changed {
        stored := updateError == "" && !p.deleting;
        return stored, stored;
      }
      var err := "";
      requeue, stored := false, true;
      if p.deleting {
        if listError != "" {
          p.ready, p.reason := false, listError;
          return;
        }
        var canDelete := CanDelete(p.key, listed);
        if canDelete {
          p.finalizers.Remove();
          stored := updateError == "";
          err := updateError;
        } else {
          if !(p.uid in cache && cache[p.uid].generation == p.generation) {
            Build(p, buildError);
            err := buildError;
          }
          err := if err != "" then err else WAIT_RECORDS;
          requeue := true;
        }
      } else {
        Build(p, buildError);
        err := buildError;
        requeue := err != "";
      }
      p.ready := err == "";
      p.reason := err;
    }
  }

  function StatusNames(r: RecordObj): seq<Name> {
    seq(|r.statuses|, i requires 0 <= i < |r.statuses| => r.statuses[i].key)
  }

  /** The list the reconcile works on: the records of the provider's namespace, or all, filed under its key. */
  ghost predicate Listed(w: World, key: Name, listed: seq<RecordObj>) {
    && (forall r <- listed :: exists rk <- w.records ::
          w.records[rk] == r && (key.namespace == "" || rk.namespace == key.namespace))
    && (forall rk <- w.records ::
          (key.namespace == "" || rk.namespace == key.namespace) && key.Key() in NameKeys(StatusNames(w.records[rk]))
          ==> w.records[rk] in listed)
  }

  /** The index query misses no record that matters: what the loops find is whether the provider is busy. */
  lemma ListedIsBusy(w: World, key: Name, listed: seq<RecordObj>)
    requires Listed(w, key, listed)
    ensures (exists r <- listed :: HoldsId(r, key)) <==> Busy(w, key)
  {
    if Busy(w, key) {
      var rk :| rk in w.records && (key.namespace == "" || rk.namespace == key.namespace)
        && HoldsId(w.records[rk], key);
      var r := w.records[rk];
      assert HoldsId(r, key);
      var s :| s in r.statuses && s.key == key && s.id != "";
      var i :| 0 <= i < |r.statuses| && r.statuses[i] == s;
      assert NameKeys(StatusNames(r))[i] == key.Key();
      assert r in listed;
    }
    if r :| r in listed && HoldsId(r, key) {
      var rk :| rk in w.records && w.records[rk] == r && (key.namespace == "" || rk.namespace == key.namespace);
    }
  }
}
