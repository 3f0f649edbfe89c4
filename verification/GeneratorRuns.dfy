/** What one Generator run does to the watchers and to the status, whatever the API answers. */
module GeneratorRuns {
  import opened Names
  import opened ResourceList
  import opened GeneratorSync
  import Laws = GeneratorLaws

  ghost predicate Sound(api: Api, st: State) {
    Ordered(api, st.fleet) && Unique(st.gen.resources) && forall id <- st.fleet.watchers :: id < st.fleet.nextId
  }

  /** A resource that a run gets past: it exists, it matches, and it has a watcher or can be given one. */
  ghost predicate Passes(api: Api, f: Fleet, r: Name) {
    r in api.objects && api.objects[r] == Matching && (Laws.Served(f, r) || r !in api.createFails)
  }

  /** The run gets as far as resource `n`, or to the sweep when that is all of them. */
  ghost predicate Reaches(api: Api, f: Fleet, rs: seq<Name>, n: nat) {
    n <= |rs| && (forall i | 0 <= i < n :: Passes(api, f, rs[i])) && (n < |rs| ==> !Passes(api, f, rs[n]))
  }

  lemma {:induction false} SomewhereReached(api: Api, f: Fleet, rs: seq<Name>) returns (n: nat)
    ensures Reaches(api, f, rs, n)
    ensures forall m: nat :: Reaches(api, f, rs, m) ==> m == n
  {
    n := 0;
    while n < |rs| && Passes(api, f, rs[n])
      invariant n <= |rs| && forall i | 0 <= i < n :: Passes(api, f, rs[i])
    {
      n := n + 1;
    }
  }

  /** The first listed watcher of a listed resource. */
  ghost predicate First(api: Api, f: Fleet, rs: seq<Name>, j: nat)
    requires Ordered(api, f) && j < |api.order|
  {
    f.watchers[api.order[j]] in rs && forall i | 0 <= i < j :: f.watchers[api.order[i]] != f.watchers[api.order[j]]
  }

  /** No removal up to this one fails. */
  ghost predicate Dismissed(api: Api, f: Fleet, rs: seq<Name>, j: nat)
    requires Ordered(api, f) && j < |api.order|
  {
    !First(api, f, rs, j) && forall k | 0 <= k <= j :: First(api, f, rs, k) || api.order[k] !in api.deleteFails
  }

  ghost predicate Intact(f: Fleet, h: Fleet) {
    forall id <- f.watchers :: Laws.Serves(h, id, f.watchers[id])
  }

  /** The new watchers of `h`: one for each of these resources that had none, under identities never used before. */
  ghost predicate HiredExactly(f: Fleet, h: Fleet, rs: seq<Name>) {
    && (forall id <- h.watchers ::
          id !in f.watchers ==> id >= f.nextId && h.watchers[id] in rs && !Laws.Served(f, h.watchers[id]))
    && (forall r <- rs :: !Laws.Served(f, r) ==> exists id :: id !in f.watchers && Laws.Serves(h, id, r))
    && (forall a <- h.watchers, b <- h.watchers ::
          a !in f.watchers && b !in f.watchers && a != b ==> h.watchers[a] != h.watchers[b])
  }

  lemma {:induction false} PassesThrough(api: Api, f: Fleet, rs: seq<Name>, n: nat)
    requires n <= |rs| && forall i | 0 <= i < n :: Passes(api, f, rs[i])
    ensures Visited(api, f.watchers, f, rs, n).1 == Through
  {
    if n > 0 {
      PassesThrough(api, f, rs, n - 1);
      Laws.ServedIsValue(f, rs[n - 1]);
    }
  }

  lemma GrewHires(f: Fleet, g: Fleet, rs: seq<Name>)
    requires Laws.Grew(f, g, rs) && Laws.Staffed(g, rs)
    ensures Intact(f, g) && HiredExactly(f, g, rs)
  {
    forall r <- rs | !Laws.Served(f, r) ensures exists id :: id !in f.watchers && Laws.Serves(g, id, r) {
      assert Laws.Served(g, r);
      var id :| Laws.Serves(g, id, r);
      assert id in f.watchers ==> Laws.Serves(f, id, r);
    }
    forall id <- g.watchers | id !in f.watchers ensures Laws.Hired(f, g, rs, id) {
    }
  }

  lemma VisitEndsAt(api: Api, f: Fleet, rs: seq<Name>, n: nat)
    requires n < |rs| && Visited(api, f.watchers, f, rs, n).1 == Through && !Passes(api, f, rs[n])
    ensures var (g, stop) := Visited(api, f.watchers, f, rs, |rs|);
      && g == Visited(api, f.watchers, f, rs, n).0
      && stop == if rs[n] !in api.objects then Gone(rs[n])
                 else if api.objects[rs[n]].Differing? then Unlike(rs[n])
                 else Failed
  {
    Laws.ServedIsValue(f, rs[n]);
    VisitStops(api, f.watchers, f, rs, n + 1, |rs|);
  }

  /** The visit up to where it gets, and where it then ends. */
  lemma VisitExactly(api: Api, f: Fleet, rs: seq<Name>, n: nat)
    requires Unique(rs) && (forall id <- f.watchers :: id < f.nextId) && Reaches(api, f, rs, n)
    ensures var (g, stop) := Visited(api, f.watchers, f, rs, |rs|);
      && Intact(f, g) && HiredExactly(f, g, rs[..n])
      && stop == if n == |rs| then Through
                 else if rs[n] !in api.objects then Gone(rs[n])
                 else if api.objects[rs[n]].Differing? then Unlike(rs[n])
                 else Failed
  {
    PassesThrough(api, f, rs, n);
    Laws.VisitHires(api, f, rs, n);
    GrewHires(f, Visited(api, f.watchers, f, rs, n).0, rs[..n]);
    if n < |rs| {
      VisitEndsAt(api, f, rs, n);
    }
  }

  /** The sweep removes the dismissed among the first `n` listed watchers, and nothing else. */
  lemma {:induction false} SweepExactly(api: Api, f: Fleet, rs: seq<Name>, g: Fleet, n: nat)
    requires Ordered(api, f) && n <= |api.order|
    ensures var (h, ok) := Swept(f.watchers, api.order, rs, api.deleteFails, g, n);
      && h.nextId == g.nextId
      && (ok <==> forall k | 0 <= k < n :: First(api, f, rs, k) || api.order[k] !in api.deleteFails)
      && (forall id :: id in h.watchers <==>
            id in g.watchers && forall j | 0 <= j < n :: api.order[j] == id ==> !Dismissed(api, f, rs, j))
      && (forall id <- h.watchers :: h.watchers[id] == g.watchers[id])
  {
    if n > 0 {
      SweepExactly(api, f, rs, g, n - 1);
      assert Marked(f.watchers, api.order, rs, n - 1) <==> First(api, f, rs, n - 1);
    }
  }

  lemma SweepKeepsHired(api: Api, f: Fleet, rs: seq<Name>, g: Fleet)
    requires Ordered(api, f) && Intact(f, g) && HiredExactly(f, g, rs)
    ensures var h := Swept(f.watchers, api.order, rs, api.deleteFails, g, |api.order|).0;
      && HiredExactly(f, h, rs)
      && forall j | 0 <= j < |api.order| ::
           if Dismissed(api, f, rs, j) then api.order[j] !in h.watchers
           else Laws.Serves(h, api.order[j], f.watchers[api.order[j]])
  {
    var h := Swept(f.watchers, api.order, rs, api.deleteFails, g, |api.order|).0;
    SweepExactly(api, f, rs, g, |api.order|);
    forall r <- rs | !Laws.Served(f, r) ensures exists id :: id !in f.watchers && Laws.Serves(h, id, r) {
      var id :| id !in f.watchers && Laws.Serves(g, id, r);
      assert Laws.Serves(h, id, r);
    }
    forall j | 0 <= j < |api.order|
      ensures if Dismissed(api, f, rs, j) then api.order[j] !in h.watchers
        else Laws.Serves(h, api.order[j], f.watchers[api.order[j]])
    {
      assert Laws.Serves(g, api.order[j], f.watchers[api.order[j]]);
    }
  }

  /**
   A run that a resource stops before the sweep keeps every watcher, and has hired one for each resource before it
   that had none. The status loses exactly a resource that is gone, and asks for a rematch at one that differs.
   */
  lemma StoppedRunExactly(api: Api, st: State, n: nat)
    requires Sound(api, st) && st.gen.generation == st.gen.applied && !api.listFails
    requires Reaches(api, st.fleet, st.gen.resources, n) && n < |st.gen.resources|
    ensures var (st', o) := Reconciled(api, st);
      var rs := st.gen.resources;
      && Intact(st.fleet, st'.fleet) && HiredExactly(st.fleet, st'.fleet, rs[..n])
      && if rs[n] !in api.objects && !api.writeFails then
           o == Wrote && st'.gen == Gen(st.gen.generation, st.gen.applied, rs[..n] + rs[n + 1..])
         else if rs[n] in api.objects && api.objects[rs[n]] == Lookup.Differing && !api.writeFails then
           o == Requeue && st'.gen == Gen(st.gen.generation, 0, rs)
         else
           o == Error && st'.gen == st.gen
  {
    var rs := st.gen.resources;
    VisitExactly(api, st.fleet, rs, n);
    RemoveExactlyOne(rs, rs[n]);
    RemoveCuts(rs, n);
  }

  /**
   A run that reaches the sweep removes exactly the listed watchers that are not the first of a listed resource, up to
   the first removal that fails. Each listed resource that had no watcher gets one, and the status stays.
   */
  lemma SweepingRunExactly(api: Api, st: State)
    requires Sound(api, st) && st.gen.generation == st.gen.applied && !api.listFails
    requires Reaches(api, st.fleet, st.gen.resources, |st.gen.resources|)
    ensures var (st', o) := Reconciled(api, st);
      var f, h, rs := st.fleet, st'.fleet, st.gen.resources;
      && st'.gen == st.gen && HiredExactly(f, h, rs)
      && (forall j | 0 <= j < |api.order| ::
            if Dismissed(api, f, rs, j) then api.order[j] !in h.watchers
            else Laws.Serves(h, api.order[j], f.watchers[api.order[j]]))
      && o == if forall j | 0 <= j < |api.order| :: First(api, f, rs, j) || api.order[j] !in api.deleteFails then Idle
              else Error
  {
    var rs := st.gen.resources;
    VisitExactly(api, st.fleet, rs, |rs|);
    assert rs[..|rs|] == rs;
    var g := Visited(api, st.fleet.watchers, st.fleet, rs, |rs|).0;
    SweepKeepsHired(api, st.fleet, rs, g);
    SweepExactly(api, st.fleet, rs, g, |api.order|);
  }

  lemma {:induction false} GatheredKeepsOrder(listing: seq<Name>)
    ensures Unique(listing) ==> Gathered(listing) == listing
  {
    if listing != [] {
      var n := |listing| - 1;
      GatheredKeepsOrder(listing[..n]);
      assert listing == listing[..n] + [listing[n]];
    }
  }

  /** Every other run changes no watcher: it only notes what is listed, once each, when the generator has changed. */
  lemma RematchingRunExactly(api: Api, st: State)
    requires Sound(api, st) && (st.gen.generation != st.gen.applied || api.listFails)
    ensures var (st', o) := Reconciled(api, st);
      && st'.fleet == st.fleet
      && if api.listFails || api.writeFails then o == Error && st' == st
         else
           && o == Requeue && st'.gen.generation == st'.gen.applied == st.gen.generation
           && Unique(st'.gen.resources) && (forall r :: r in st'.gen.resources <==> r in api.listing)
           && (Unique(api.listing) ==> st'.gen.resources == api.listing)
  {
    Laws.GatheredIsSet(api.listing);
    GatheredKeepsOrder(api.listing);
  }

  /** So every run, however the API answers, leaves a list without duplicates and identities that stay unused. */
  lemma RunKeepsConsistent(api: Api, st: State)
    requires Laws.Consistent(st) && Ordered(api, st.fleet)
    ensures Laws.Consistent(Reconciled(api, st).0)
  {
    var f, rs := st.fleet, st.gen.resources;
    Laws.GatheredIsSet(api.listing);
    var (g, stop) := Visited(api, f.watchers, f, rs, |rs|);
    Laws.VisitHires(api, f, rs, |rs|);
    Laws.GrewBounded(f, g, rs[..|rs|]);
    SweepExactly(api, f, rs, g, |api.order|);
    if stop.Gone? {
      RemoveExactlyOne(rs, stop.resource);
    }
    var h := Swept(f.watchers, api.order, rs, api.deleteFails, g, |api.order|).0;
    forall id | id in h.watchers ensures id < h.nextId {
      assert id in g.watchers;
      assert id < g.nextId;
    }
    var st' := Reconciled(api, st).0;
    assert st'.fleet == f || st'.fleet == g || st'.fleet == h;
  }
}
