/** What a Provider reconcile does to the cache and the finalizer, and what a Record reconcile then sees of it. */
module ProviderLaws {
  import opened Api
  import opened Domains
  import opened Names
  import opened RecordSync
  import opened Protocol
  import opened ProtocolSafety
  import Records = RecordCalls

  /** Some record in reach of the provider holds an id there. */
  ghost predicate HeldSomewhere(w: World, k: Name) {
    exists rk <- w.records, s <- w.records[rk].statuses ::
      (k.namespace == "" || rk.namespace == k.namespace) && s.key == k && s.id != ""
  }

  lemma BusyIsHeld(w: World, k: Name)
    ensures Busy(w, k) <==> HeldSomewhere(w, k)
  {
    if Busy(w, k) {
      var rk :| rk in w.records && (k.namespace == "" || rk.namespace == k.namespace) && HoldsId(w.records[rk], k);
      var s :| s in w.records[rk].statuses && s.key == k && s.id != "";
    }
    if HeldSomewhere(w, k) {
      var rk, s :| rk in w.records && s in w.records[rk].statuses &&
        (k.namespace == "" || rk.namespace == k.namespace) && s.key == k && s.id != "";
      assert HoldsId(w.records[rk], k);
    }
  }

  /** A backend for the provider as it is now is in the cache. */
  ghost predicate Warm(w: World, k: Name) {
    k in w.providers && w.providers[k].meta.uid in w.cache &&
      w.cache[w.providers[k].meta.uid] == Cached(w.providers[k].meta.generation, w.providers[k].spec)
  }

  /**
   A reconcile of a provider that bears the finalizer and is not being deleted, or is but has somebody waiting for it,
   leaves a backend for the provider as it is now exactly when the build succeeded or one was there before, and touches
   no other backend. A provider that is let go is not built.
   */
  lemma ReconcileWarms(w: World, s: Step, w': World)
    requires Inv(w) && s.ReconcileProvider? && Takes(w, s, w') && FINALIZER in w.providers[s.key].meta.finalizers
    ensures !w.providers[s.key].meta.deleting || HeldSomewhere(w, s.key) ==>
      (Warm(w', s.key) <==> s.built || Warm(w, s.key)) && s.key in w'.providers
    ensures w.providers[s.key].meta.deleting && !HeldSomewhere(w, s.key) ==> w'.cache == w.cache
    ensures forall uid :: uid != w.providers[s.key].meta.uid ==>
      (uid in w'.cache <==> uid in w.cache) && (uid in w.cache ==> w'.cache[uid] == w.cache[uid])
  {
    BusyIsHeld(w, s.key);
    assert CacheEntryOk(w.providers[s.key], w.cache);
  }

  /**
   The finalizer is put on a provider that lacks it and is not being deleted, and taken off one that is being deleted
   when nobody holds an id there, in both cases if the write succeeds; nothing else about the provider changes.
   */
  lemma ReconcileMovesFinalizer(w: World, s: Step, w': World)
    requires s.ReconcileProvider? && Takes(w, s, w')
    ensures var p, fs := w.providers[s.key], w.providers[s.key].meta.finalizers;
      var next :=
        if s.written && FINALIZER !in fs && !p.meta.deleting then fs + [FINALIZER]
        else if s.written && FINALIZER in fs && p.meta.deleting && !HeldSomewhere(w, s.key) then RemoveFinalizer(fs)
        else fs;
      && (s.key in w'.providers <==> !p.meta.deleting || next != [])
      && (s.key in w'.providers ==> w'.providers[s.key] == p.(meta := p.meta.(finalizers := next)))
      && (FINALIZER !in fs ==> w'.cache == w.cache)
      && w'.records == w.records && w'.zones == w.zones
      && forall k :: k != s.key ==>
           (k in w'.providers <==> k in w.providers) && (k in w.providers ==> w'.providers[k] == w.providers[k])
  {
    BusyIsHeld(w, s.key);
  }

  /** A step that can take the backend away: a spec change, a mark for deletion, a restart, the end of the provider. */
  ghost predicate Cools(w: World, s: Step, k: Name) {
    match s
    case EditProvider(key, config, _) => key == k && k in w.providers && config != w.providers[k].spec
    case DeleteProvider(key) => key == k && k in w.providers && !w.providers[k].meta.deleting
    case Restart => true
    case _ => false
  }

  lemma OwnReconcileKeepsWarm(w: World, s: Step, w': World)
    requires Inv(w) && Takes(w, s, w') && s.ReconcileProvider? && Warm(w, s.key) && s.key in w'.providers
    ensures Warm(w', s.key)
  {
  }

  lemma OtherReconcileKeepsWarm(w: World, s: Step, w': World, k: Name)
    requires Inv(w) && Takes(w, s, w') && s.ReconcileProvider? && s.key != k && Warm(w, k)
    ensures Warm(w', k)
  {
  }

  lemma OtherStepKeepsWarm(w: World, s: Step, w': World, k: Name)
    requires Takes(w, s, w') && !s.ReconcileProvider? && !Cools(w, s, k) && Warm(w, k) && k in w'.providers
    ensures Warm(w', k)
  {
    if s.ReconcileRecord? {
      RecordStepTouchesNoProvider(w, s, w');
    }
  }

  lemma RecordStepTouchesNoProvider(w: World, s: Step, w': World)
    requires Takes(w, s, w') && s.ReconcileRecord?
    ensures w'.providers == w.providers && w'.cache == w.cache
  {
  }

  lemma StepKeepsWarm(w: World, s: Step, w': World, k: Name)
    requires Inv(w) && Takes(w, s, w') && !Cools(w, s, k) && Warm(w, k) && k in w'.providers
    ensures Warm(w', k)
  {
    if !s.ReconcileProvider? {
      OtherStepKeepsWarm(w, s, w', k);
    } else if s.key == k {
      OwnReconcileKeepsWarm(w, s, w');
    } else {
      OtherReconcileKeepsWarm(w, s, w', k);
    }
  }

  lemma RunTakes(ws: seq<World>, steps: seq<Step>, m: nat)
    requires Run(ws, steps) && m < |steps|
    ensures Inv(ws[m]) && Takes(ws[m], steps[m], ws[m + 1])
  {
    RunKeepsInv(ws, steps, m);
  }

  /** Over every run, a backend that was built stays in the cache until a step that takes it away. */
  lemma {:induction false} WarmStays(ws: seq<World>, steps: seq<Step>, i: nat, n: nat, k: Name)
    requires Run(ws, steps) && i <= n <= |steps| && Warm(ws[i], k)
    requires (forall m | i <= m < n :: !Cools(ws[m], steps[m], k)) && forall m | i <= m <= n :: k in ws[m].providers
    ensures Warm(ws[n], k)
    decreases n
  {
    if i < n {
      var m := n - 1;
      WarmStays(ws, steps, i, m, k);
      RunTakes(ws, steps, m);
      StepKeepsWarm(ws[m], steps[m], ws[m + 1], k);
    }
  }

  /** What selects a record: the domain, label by label, and the selector. */
  ghost predicate Wants(p: ProviderSpec, r: RecordObj) {
    && (p.domain == "" || Subdomain(r.spec.name, p.domain))
    && forall l <- p.selector :: l in r.labels && r.labels[l] == p.selector[l]
  }

  /**
   A Record reconcile sees the providers of its namespace and the cluster-scoped ones as they are, and it selects those
   that want it.
   */
  lemma SeesProvidersAsTheyAre(w: World, s: Step, p: ProviderView)
    requires Planned(w, s)
    ensures p in EnvOf(w, s).providers <==>
      && p.key in w.providers && (p.key.namespace == "" || p.key.namespace == s.key.namespace)
      && p.uid == w.providers[p.key].meta.uid && p.generation == w.providers[p.key].meta.generation
      && p.deleting == w.providers[p.key].meta.deleting
      && p.verdict == (if Wants(w.providers[p.key].spec, w.records[s.key]) then Selected else NotSelected)
    ensures EnvOf(w, s).deleting == w.records[s.key].meta.deleting && EnvOf(w, s).cache == w.cache
  {
    var views, r := EnvOf(w, s).providers, w.records[s.key];
    forall k | k in w.providers ensures Selects(w.providers[k].spec, r) <==> Wants(w.providers[k].spec, r) {
      var config := w.providers[k].spec;
      SelectsIsSubdomain(config.domain, r.spec.name);
      assert forall l :: l in config.selector <==> l in config.selector.Keys;
    }
    if p.key in s.order {
      var i :| 0 <= i < |s.order| && s.order[i] == p.key;
      assert views[i] == ViewOf(w, r, p.key);
    }
    if p in views {
      var i :| 0 <= i < |views| && views[i] == p;
      assert s.order[i] in s.order;
    }
  }

  /** What looking up an unselected provider yields: the failure, if it fails, and otherwise the provider as it is. */
  lemma FetchesProvidersAsTheyAre(w: World, s: Step, k: Name)
    requires Planned(w, s)
    ensures EnvOf(w, s).FetchOf(k) ==
      if k in s.failures then Fetch.Failed(s.failures[k])
      else if k in w.providers then Found(w.providers[k].meta.uid, w.providers[k].meta.generation)
      else Missing
  {
  }

  /** A live provider with a current backend serves every live record that wants it. */
  lemma WarmServes(w: World, s: Step, k: Name)
    requires Inv(w) && Planned(w, s) && Warm(w, k) && !w.providers[k].meta.deleting
    requires !w.records[s.key].meta.deleting && Wants(w.providers[k].spec, w.records[s.key])
    requires k.namespace == "" || k.namespace == s.key.namespace
    ensures var env, ss := EnvOf(w, s), w.records[s.key].statuses;
      Records.CallsFor(env, ss, k, if Records.Holding(ss, k) then Update else Create)
  {
    var meta := w.providers[k].meta;
    var p := ProviderView(k, meta.uid, meta.generation, false, Selected);
    SeesProvidersAsTheyAre(w, s, p);
    assert p in EnvOf(w, s).providers && Records.Selects(p, k);
    assert Records.Serving(EnvOf(w, s), k);
    PlannedIsDistinct(w, s);
    Records.CallsExactly(EnvOf(w, s), w.records[s.key].statuses, k);
  }

  lemma PlannedIsDistinct(w: World, s: Step)
    requires Inv(w) && Planned(w, s)
    ensures EnvOf(w, s).Distinct() && UniqueKeys(w.records[s.key].statuses)
  {
  }

  /** A provider that is not marked does not go away. */
  lemma {:induction false} LiveStays(ws: seq<World>, steps: seq<Step>, i: nat, n: nat, k: Name)
    requires Run(ws, steps) && i <= n <= |steps| && k in ws[i].providers && !ws[i].providers[k].meta.deleting
    requires forall m | i <= m < n :: !Cools(ws[m], steps[m], k)
    ensures forall m | i <= m <= n :: k in ws[m].providers && !ws[m].providers[k].meta.deleting
    decreases n
  {
    if i < n {
      LiveStays(ws, steps, i, n - 1, k);
      LiveStep(ws[n - 1], steps[n - 1], ws[n - 1 + 1], k);
    }
  }

  lemma LiveStep(w: World, s: Step, w': World, k: Name)
    requires Takes(w, s, w') && !Cools(w, s, k) && k in w.providers && !w.providers[k].meta.deleting
    ensures k in w'.providers && !w'.providers[k].meta.deleting
  {
    if s.ReconcileRecord? {
      RecordStepTouchesNoProvider(w, s, w');
    }
  }

  /**
   After a successful reconcile of a live provider, and until it is edited, marked for deletion, or the controller
   restarts, every reconcile of a live record that it wants makes its call there: an Update if the record holds an
   id at the provider, and a Create otherwise.
   */
  lemma {:induction false} BuiltProviderServes(ws: seq<World>, steps: seq<Step>, i: nat, n: nat, k: Name)
    requires Run(ws, steps) && i < n < |steps|
    requires steps[i].ReconcileProvider? && steps[i].key == k && steps[i].built && k in ws[i].providers
    requires FINALIZER in ws[i].providers[k].meta.finalizers && !ws[i].providers[k].meta.deleting
    requires forall m | i < m < n :: !Cools(ws[m], steps[m], k)
    requires Planned(ws[n], steps[n]) && !ws[n].records[steps[n].key].meta.deleting
    requires k in ws[n].providers && Wants(ws[n].providers[k].spec, ws[n].records[steps[n].key])
    requires k.namespace == "" || k.namespace == steps[n].key.namespace
    ensures var env, ss := EnvOf(ws[n], steps[n]), ws[n].records[steps[n].key].statuses;
      Records.CallsFor(env, ss, k, if Records.Holding(ss, k) then Update else Create)
  {
    RunKeepsInv(ws, steps, i);
    ReconcileWarms(ws[i], steps[i], ws[i + 1]);
    LiveStep(ws[i], steps[i], ws[i + 1], k);
    LiveStays(ws, steps, i + 1, n, k);
    WarmStays(ws, steps, i + 1, n, k);
    RunKeepsInv(ws, steps, n);
    WarmServes(ws[n], steps[n], k);
  }
}
