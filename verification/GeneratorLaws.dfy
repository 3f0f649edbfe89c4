/** With the cluster at rest, repeated Generator reconciles settle, with one watcher for each matched resource. */
module GeneratorLaws {
  import opened Names
  import opened ResourceList
  import opened GeneratorSync
  import Laws = RecordLaws

  /** Generations start at 1, AddResource keeps the list free of duplicates, and identities are not reused. */
  ghost predicate Consistent(st: State) {
    && st.gen.generation >= 1 && Unique(st.gen.resources)
    && forall id <- st.fleet.watchers :: id < st.fleet.nextId
  }

  /** The API answers every call, from the same objects; the listing holds each matching one once. */
  ghost predicate Calm(api: Api, objects: map<Name, Lookup>) {
    && api.objects == objects && (forall r <- objects :: objects[r] != Broken)
    && !api.listFails && !api.writeFails && api.createFails == {} && api.deleteFails == {}
    && (forall r :: r in api.listing <==> r in objects && objects[r] == Matching)
  }

  function Missing(objects: map<Name, Lookup>, rs: seq<Name>): set<Name> {
    set r | r in rs && r !in objects
  }

  function Differing(objects: map<Name, Lookup>, rs: seq<Name>): set<Name> {
    set r | r in rs && r in objects && objects[r] == Lookup.Differing
  }

  function Stale(objects: map<Name, Lookup>, rs: seq<Name>): set<Name> {
    Missing(objects, rs) + Differing(objects, rs)
  }

  ghost predicate Serves(f: Fleet, id: nat, r: Name) {
    id in f.watchers && f.watchers[id] == r
  }

  ghost predicate Served(f: Fleet, r: Name) {
    exists id :: Serves(f, id, r)
  }

  lemma ServedIsValue(f: Fleet, r: Name)
    ensures r in f.watchers.Values <==> Served(f, r)
  {
    if r in f.watchers.Values {
      var id :| id in f.watchers && f.watchers[id] == r;
      assert Serves(f, id, r);
    }
  }

  /** Each listed resource has exactly one watcher, and there are no others. */
  ghost predicate Bijective(f: Fleet, rs: seq<Name>) {
    && (forall r <- rs :: Served(f, r))
    && (forall id <- f.watchers :: f.watchers[id] in rs)
    && (forall a <- f.watchers, b <- f.watchers :: a != b ==> f.watchers[a] != f.watchers[b])
  }

  ghost predicate Settled(objects: map<Name, Lookup>, st: State) {
    && st.gen.generation == st.gen.applied
    && (forall r <- st.gen.resources :: r in objects && objects[r] == Matching)
    && Bijective(st.fleet, st.gen.resources)
  }

  lemma {:induction false} GatheredIsSet(listing: seq<Name>)
    ensures Unique(Gathered(listing)) && forall r :: r in Gathered(listing) <==> r in listing
  {
    if listing != [] {
      var n := |listing| - 1;
      GatheredIsSet(listing[..n]);
      assert listing == listing[..n] + [listing[n]];
    }
  }

  /** Which resource stops a run: the first that is stale, if any is. */
  lemma {:induction false} VisitStopsAt(api: Api, objects: map<Name, Lookup>, listed: map<nat, Name>, f: Fleet,
        rs: seq<Name>, n: nat)
    requires Calm(api, objects) && n <= |rs|
    ensures match Visited(api, listed, f, rs, n).1
      case Through => forall i | 0 <= i < n :: rs[i] in objects && objects[rs[i]] == Matching
      case Gone(r) => r in Missing(objects, rs)
      case Unlike(r) => r in Differing(objects, rs)
      case Failed => false
  {
    if n > 0 {
      VisitStopsAt(api, objects, listed, f, rs, n - 1);
    }
  }

  /** A watcher hired during a run: a new identity, for a resource that had none. */
  ghost predicate Hired(f: Fleet, g: Fleet, rs: seq<Name>, id: nat)
    requires id in g.watchers
  {
    f.nextId <= id < g.nextId && g.watchers[id] in rs && !Served(f, g.watchers[id])
  }

  /** From `f` to `g`, watchers were only hired, for resources among `rs`. */
  ghost predicate Grew(f: Fleet, g: Fleet, rs: seq<Name>) {
    && f.nextId <= g.nextId
    && (forall id <- f.watchers :: Serves(g, id, f.watchers[id]))
    && (forall id <- g.watchers :: id in f.watchers || Hired(f, g, rs, id))
    && forall a <- g.watchers, b <- g.watchers ::
         a !in f.watchers && b !in f.watchers && a != b ==> g.watchers[a] != g.watchers[b]
  }

  ghost predicate Staffed(g: Fleet, rs: seq<Name>) {
    forall r <- rs :: Served(g, r)
  }

  lemma GrewMore(f: Fleet, g: Fleet, rs: seq<Name>, r: Name)
    requires Grew(f, g, rs)
    ensures Grew(f, g, rs + [r])
  {
    forall id <- g.watchers ensures id in f.watchers || Hired(f, g, rs + [r], id) {
      assert id in f.watchers || Hired(f, g, rs, id);
    }
  }

  lemma HireGrows(f: Fleet, g: Fleet, rs: seq<Name>, r: Name)
    requires Grew(f, g, rs) && r !in rs && !Served(f, r) && forall id <- f.watchers :: id < f.nextId
    ensures Grew(f, Hire(g, r), rs + [r])
  {
    var h := Hire(g, r);
    GrewMore(f, g, rs, r);
    forall id <- h.watchers ensures id in f.watchers || Hired(f, h, rs + [r], id) {
      if id != g.nextId {
        assert id in f.watchers || Hired(f, g, rs + [r], id);
      }
    }
    forall id <- f.watchers ensures Serves(h, id, f.watchers[id]) {
      assert Serves(g, id, f.watchers[id]);
    }
    forall a <- h.watchers, b <- h.watchers | a !in f.watchers && b !in f.watchers && a != b
      ensures h.watchers[a] != h.watchers[b]
    {
      assert a == g.nextId || Hired(f, g, rs, a);
      assert b == g.nextId || Hired(f, g, rs, b);
    }
  }

  lemma HireStaffs(g: Fleet, rs: seq<Name>, r: Name)
    requires Staffed(g, rs) && (forall id <- g.watchers :: id < g.nextId)
    ensures Staffed(Hire(g, r), rs + [r])
  {
    var h := Hire(g, r);
    assert Serves(h, g.nextId, r);
    forall q <- rs ensures Served(h, q) {
      assert Served(g, q);
      var id :| Serves(g, id, q);
      assert Serves(h, id, q);
    }
  }

  lemma AlreadyStaffed(f: Fleet, g: Fleet, rs: seq<Name>, r: Name)
    requires Grew(f, g, rs) && Staffed(g, rs) && Served(f, r)
    ensures Staffed(g, rs + [r])
  {
    var id :| Serves(f, id, r);
    assert Serves(g, id, r);
  }

  lemma GrewBounded(f: Fleet, g: Fleet, rs: seq<Name>)
    requires Grew(f, g, rs) && forall id <- f.watchers :: id < f.nextId
    ensures forall id <- g.watchers :: id < g.nextId
  {
    forall id <- g.watchers ensures id < g.nextId {
      assert id in f.watchers || Hired(f, g, rs, id);
    }
  }

  /** What one more visited resource does to the fleet. */
  lemma VisitOne(api: Api, f: Fleet, rs: seq<Name>, n: nat)
    requires n < |rs|
    ensures var (g, stop) := Visited(api, f.watchers, f, rs, n);
      var (h, stop') := Visited(api, f.watchers, f, rs, n + 1);
      || (stop' != Through && h == g)
      || (stop == stop' == Through && ((h == g && Served(f, rs[n])) || (h == Hire(g, rs[n]) && !Served(f, rs[n]))))
  {
    ServedIsValue(f, rs[n]);
  }

  lemma {:induction false} VisitHires(api: Api, f: Fleet, rs: seq<Name>, n: nat)
    requires n <= |rs| && Unique(rs) && forall id <- f.watchers :: id < f.nextId
    ensures var (g, stop) := Visited(api, f.watchers, f, rs, n);
      Grew(f, g, rs[..n]) && (stop == Through ==> Staffed(g, rs[..n]))
  {
    if n > 0 {
      VisitHires(api, f, rs, n - 1);
      VisitOne(api, f, rs, n - 1);
      var g := Visited(api, f.watchers, f, rs, n - 1).0;
      var (h, stop) := Visited(api, f.watchers, f, rs, n);
      var r, front := rs[n - 1], rs[..n - 1];
      assert rs[..n] == front + [r];
      if stop != Through || Served(f, r) {
        GrewMore(f, g, front, r);
        if stop == Through {
          AlreadyStaffed(f, g, front, r);
        }
      } else {
        GrewBounded(f, g, front);
        HireGrows(f, g, front, r);
        HireStaffs(g, front, r);
      }
    }
  }

  /** The sweep takes exactly the listed watchers that are not marked. */
  lemma {:induction false} SweepTakes(listed: map<nat, Name>, order: seq<nat>, rs: seq<Name>, f: Fleet, n: nat, id: nat)
    requires n <= |order| && (forall k <- order :: k in listed)
    ensures var (g, ok) := Swept(listed, order, rs, {}, f, n);
      && ok && g.nextId == f.nextId
      && (id in g.watchers <==>
            id in f.watchers && forall j | 0 <= j < n :: order[j] == id ==> Marked(listed, order, rs, j))
      && (id in g.watchers ==> g.watchers[id] == f.watchers[id])
  {
    if n > 0 {
      SweepTakes(listed, order, rs, f, n - 1, id);
    }
  }

  /** A listed resource that has a watcher has a first one in the listing, which is marked. */
  lemma {:induction false} FirstIsMarked(f: Fleet, api: Api, rs: seq<Name>, r: Name, n: nat) returns (j: nat)
    requires Ordered(api, f) && r in rs && n <= |api.order|
    requires exists i | 0 <= i < n :: f.watchers[api.order[i]] == r
    ensures j < |api.order| && f.watchers[api.order[j]] == r && Marked(f.watchers, api.order, rs, j)
  {
    if i :| 0 <= i < n - 1 && f.watchers[api.order[i]] == r {
      j := FirstIsMarked(f, api, rs, r, n - 1);
    } else {
      j := n - 1;
    }
  }

  /** The fleet after a run that no resource stopped. */
  ghost predicate Finished(api: Api, f: Fleet, g: Fleet, rs: seq<Name>, h: Fleet)
    requires Ordered(api, f)
  {
    && Grew(f, g, rs) && Staffed(g, rs) && Unique(rs)
    && forall id ::
         && (id in h.watchers <==> id in g.watchers && Stays(api, f, rs, id))
         && (id in h.watchers ==> h.watchers[id] == g.watchers[id])
  }

  ghost predicate Stays(api: Api, f: Fleet, rs: seq<Name>, id: nat)
    requires Ordered(api, f)
  {
    forall j | 0 <= j < |api.order| :: api.order[j] == id ==> Marked(f.watchers, api.order, rs, j)
  }

  lemma FinishedServes(api: Api, f: Fleet, g: Fleet, rs: seq<Name>, h: Fleet, r: Name)
    requires Ordered(api, f) && Finished(api, f, g, rs, h) && r in rs
    ensures Served(h, r)
  {
    if Served(f, r) {
      var id :| Serves(f, id, r);
      assert id in api.order;
      var j := FirstIsMarked(f, api, rs, r, |api.order|);
      assert Serves(g, api.order[j], r);
      assert Serves(h, api.order[j], r);
    } else {
      assert Served(g, r);
      var id :| Serves(g, id, r);
      assert id !in f.watchers by {
        assert Serves(g, id, r);
        if id in f.watchers {
          assert Serves(g, id, f.watchers[id]);
          assert Serves(f, id, r);
        }
      }
      assert Serves(h, id, r);
    }
  }

  lemma FinishedInList(api: Api, f: Fleet, g: Fleet, rs: seq<Name>, h: Fleet, id: nat)
    requires Ordered(api, f) && Finished(api, f, g, rs, h) && id in h.watchers
    ensures h.watchers[id] in rs
  {
    if id in f.watchers {
      assert Serves(g, id, f.watchers[id]);
      var j :| 0 <= j < |api.order| && api.order[j] == id;
      assert Marked(f.watchers, api.order, rs, j);
    } else {
      assert Hired(f, g, rs, id);
    }
  }

  /** Of the listed watchers of one resource, at most one stays. */
  lemma StayingOnce(api: Api, f: Fleet, rs: seq<Name>, a: nat, b: nat)
    requires Ordered(api, f) && Stays(api, f, rs, a) && Stays(api, f, rs, b)
    requires a in f.watchers && b in f.watchers && a != b
    ensures f.watchers[a] != f.watchers[b]
  {
    var i :| 0 <= i < |api.order| && api.order[i] == a;
    var j :| 0 <= j < |api.order| && api.order[j] == b;
    assert Marked(f.watchers, api.order, rs, i) && Marked(f.watchers, api.order, rs, j);
  }

  /** Two watchers of one resource were both listed, or neither was. */
  lemma FinishedTogether(api: Api, f: Fleet, g: Fleet, rs: seq<Name>, h: Fleet, a: nat, b: nat)
    requires Ordered(api, f) && Finished(api, f, g, rs, h) && a in h.watchers && b in h.watchers
    requires a in f.watchers && h.watchers[a] == h.watchers[b]
    ensures b in f.watchers
  {
    assert Serves(g, a, f.watchers[a]);
    assert Serves(f, a, f.watchers[a]);
    assert b in f.watchers || Hired(f, g, rs, b);
  }

  lemma FinishedOnce(api: Api, f: Fleet, g: Fleet, rs: seq<Name>, h: Fleet, a: nat, b: nat)
    requires Ordered(api, f) && Finished(api, f, g, rs, h) && a in h.watchers && b in h.watchers && a != b
    ensures h.watchers[a] != h.watchers[b]
  {
    if a in f.watchers && b in f.watchers {
      StayingOnce(api, f, rs, a, b);
      assert Serves(g, a, f.watchers[a]) && Serves(g, b, f.watchers[b]);
    } else if h.watchers[a] == h.watchers[b] {
      if a in f.watchers {
        FinishedTogether(api, f, g, rs, h, a, b);
      } else if b in f.watchers {
        FinishedTogether(api, f, g, rs, h, b, a);
      }
    }
  }

  lemma FinishedIsBijective(api: Api, f: Fleet, g: Fleet, rs: seq<Name>, h: Fleet)
    requires Ordered(api, f) && Finished(api, f, g, rs, h)
    ensures Bijective(h, rs)
  {
    forall r <- rs ensures Served(h, r) {
      FinishedServes(api, f, g, rs, h, r);
    }
    forall id <- h.watchers ensures h.watchers[id] in rs {
      FinishedInList(api, f, g, rs, h, id);
    }
    forall a <- h.watchers, b <- h.watchers | a != b ensures h.watchers[a] != h.watchers[b] {
      FinishedOnce(api, f, g, rs, h, a, b);
    }
  }

  /** A run over a list without stale entries ends with one watcher for each of them. */
  lemma RunSettles(api: Api, objects: map<Name, Lookup>, st: State)
    requires Calm(api, objects) && Consistent(st) && Ordered(api, st.fleet)
    requires st.gen.generation == st.gen.applied && Stale(objects, st.gen.resources) == {}
    ensures var (st', o) := Reconciled(api, st);
      o == Idle && st'.gen == st.gen && Settled(objects, st') && Consistent(st')
  {
    var f, rs := st.fleet, st.gen.resources;
    var (g, stop) := Visited(api, f.watchers, f, rs, |rs|);
    VisitStopsAt(api, objects, f.watchers, f, rs, |rs|);
    VisitHires(api, f, rs, |rs|);
    assert rs[..|rs|] == rs;
    assert stop == Through;
    GrewBounded(f, g, rs);
    var h := Swept(f.watchers, api.order, rs, {}, g, |api.order|).0;
    forall id ensures (id in h.watchers <==> id in g.watchers && Stays(api, f, rs, id))
      && (id in h.watchers ==> h.watchers[id] == g.watchers[id]) {
      SweepTakes(f.watchers, api.order, rs, g, |api.order|, id);
    }
    SweepTakes(f.watchers, api.order, rs, g, |api.order|, 0);
    FinishedIsBijective(api, f, g, rs, h);
    forall r <- rs ensures r in objects && objects[r] == Matching {
      var i :| 0 <= i < |rs| && rs[i] == r;
    }
  }

  /** How many runs are left: drop each missing entry, then rematch if one no longer matches, then finish. */
  ghost function Rank(objects: map<Name, Lookup>, st: State): nat {
    if Settled(objects, st) then 0
    else if st.gen.generation != st.gen.applied then 2
    else if Stale(objects, st.gen.resources) == {} then 1
    else |Missing(objects, st.gen.resources)| + if Differing(objects, st.gen.resources) == {} then 1 else 3
  }

  lemma RankBound(objects: map<Name, Lookup>, st: State)
    ensures Rank(objects, st) <= |Stale(objects, st.gen.resources)| + 2
  {
    var m, d := Missing(objects, st.gen.resources), Differing(objects, st.gen.resources);
    assert m * d == {};
    if d != {} {
      var r :| r in d;
      assert |d| >= |{r}| by {
        assert d == {r} + (d - {r});
      }
    }
  }

  lemma VisitKeepsIdsBounded(api: Api, st: State)
    requires Consistent(st)
    ensures var f := Visited(api, st.fleet.watchers, st.fleet, st.gen.resources, |st.gen.resources|).0;
      forall id <- f.watchers :: id < f.nextId
  {
    var rs := st.gen.resources;
    VisitHires(api, st.fleet, rs, |rs|);
    GrewBounded(st.fleet, Visited(api, st.fleet.watchers, st.fleet, rs, |rs|).0, rs[..|rs|]);
  }

  /** A spec change, or an entry that stopped matching, leads to a fresh list without stale entries. */
  lemma RunRematches(api: Api, objects: map<Name, Lookup>, st: State)
    requires Calm(api, objects) && Consistent(st) && Ordered(api, st.fleet)
    requires st.gen.generation != st.gen.applied
    ensures var (st', o) := Reconciled(api, st);
      && o == Requeue && Consistent(st') && st'.fleet == st.fleet
      && st'.gen.applied == st'.gen.generation == st.gen.generation
      && (forall r :: r in st'.gen.resources <==> r in objects && objects[r] == Matching)
      && Stale(objects, st'.gen.resources) == {}
  {
    GatheredIsSet(api.listing);
  }

  /**
   A run that meets a stale entry drops it when it is missing, and asks for a rematch when it no longer matches; either
   way every watcher stays with its resource.
   */
  lemma RunMeetsStale(api: Api, objects: map<Name, Lookup>, st: State)
    requires Calm(api, objects) && Consistent(st) && Ordered(api, st.fleet)
    requires st.gen.generation == st.gen.applied && Stale(objects, st.gen.resources) != {}
    ensures var (st', o) := Reconciled(api, st);
      && Consistent(st') && (forall id <- st.fleet.watchers :: Serves(st'.fleet, id, st.fleet.watchers[id]))
      && ((o == Requeue && st'.gen == st.gen.(applied := 0) && Differing(objects, st.gen.resources) != {})
          || (o == Wrote && st'.gen.applied == st'.gen.generation
              && Missing(objects, st'.gen.resources) < Missing(objects, st.gen.resources)
              && Differing(objects, st'.gen.resources) == Differing(objects, st.gen.resources)))
  {
    var f, rs := st.fleet, st.gen.resources;
    VisitStopsAt(api, objects, f.watchers, f, rs, |rs|);
    VisitKeepsIdsBounded(api, st);
    VisitHires(api, f, rs, |rs|);
    var stop := Visited(api, f.watchers, f, rs, |rs|).1;
    if stop.Gone? {
      RemoveExactlyOne(rs, stop.resource);
      assert stop.resource in Missing(objects, rs) && stop.resource !in Missing(objects, Kept(rs, stop.resource));
    }
  }

  /** Every run that does not find the state settled brings it closer. */
  lemma RunLowersRank(api: Api, objects: map<Name, Lookup>, st: State)
    requires Calm(api, objects) && Consistent(st) && Ordered(api, st.fleet) && !Settled(objects, st)
    ensures var st' := Reconciled(api, st).0; Consistent(st') && Rank(objects, st') < Rank(objects, st)
  {
    var (st', o) := Reconciled(api, st);
    var rs, rs' := st.gen.resources, st'.gen.resources;
    if st.gen.generation != st.gen.applied {
      RunRematches(api, objects, st);
    } else if Stale(objects, rs) == {} {
      RunSettles(api, objects, st);
    } else {
      RunMeetsStale(api, objects, st);
      if o == Requeue {
        assert Rank(objects, st') <= 2;
      } else {
        Laws.ProperSubsetIsSmaller(Missing(objects, rs'), Missing(objects, rs));
      }
    }
  }

  /** In a settled state a run writes nothing. */
  lemma SettledIsIdle(api: Api, objects: map<Name, Lookup>, st: State)
    requires Calm(api, objects) && Consistent(st) && Ordered(api, st.fleet) && Settled(objects, st)
    ensures Reconciled(api, st) == (st, Idle)
  {
    var f, rs := st.fleet, st.gen.resources;
    VisitKeeps(api, objects, f, rs, |rs|);
    SweepKeeps(api, f, rs, |api.order|);
  }

  lemma {:induction false} VisitKeeps(api: Api, objects: map<Name, Lookup>, f: Fleet, rs: seq<Name>, n: nat)
    requires Calm(api, objects) && n <= |rs| && Staffed(f, rs) && forall r <- rs ::
      r in objects && objects[r] == Matching
    ensures Visited(api, f.watchers, f, rs, n) == (f, Through)
  {
    if n > 0 {
      VisitKeeps(api, objects, f, rs, n - 1);
      ServedIsValue(f, rs[n - 1]);
    }
  }

  lemma {:induction false} SweepKeeps(api: Api, f: Fleet, rs: seq<Name>, n: nat)
    requires n <= |api.order| && Ordered(api, f) && Bijective(f, rs)
    ensures Swept(f.watchers, api.order, rs, {}, f, n) == (f, true)
  {
    if n > 0 {
      SweepKeeps(api, f, rs, n - 1);
      assert Marked(f.watchers, api.order, rs, n - 1);
    }
  }

  /** Runs over a cluster at rest, each with its own order of listing. */
  ghost predicate Runs(objects: map<Name, Lookup>, st: State, apis: seq<Api>)
    decreases apis
  {
    apis != [] ==>
      && Calm(apis[0], objects) && Ordered(apis[0], st.fleet)
      && Runs(objects, Reconciled(apis[0], st).0, apis[1..])
  }

  ghost function After(objects: map<Name, Lookup>, st: State, apis: seq<Api>): State
    requires Runs(objects, st, apis)
    decreases apis
  {
    if apis == [] then st else After(objects, Reconciled(apis[0], st).0, apis[1..])
  }

  lemma {:induction false} RanksRunOut(objects: map<Name, Lookup>, st: State, apis: seq<Api>)
    requires Consistent(st) && Runs(objects, st, apis) && |apis| >= Rank(objects, st)
    ensures Consistent(After(objects, st, apis)) && Settled(objects, After(objects, st, apis))
    decreases apis
  {
    if apis != [] {
      if Settled(objects, st) {
        SettledIsIdle(apis[0], objects, st);
      } else {
        RunLowersRank(apis[0], objects, st);
      }
      RanksRunOut(objects, Reconciled(apis[0], st).0, apis[1..]);
    }
  }

  /**
   With the cluster at rest, as many runs as there are stale entries and two more always reach a state where the
   listed resources all exist and match, each has exactly one watcher, and further runs change nothing.
   */
  lemma {:induction false} Converges(objects: map<Name, Lookup>, st: State, apis: seq<Api>)
    requires Consistent(st) && Runs(objects, st, apis)
    requires |apis| >= |Stale(objects, st.gen.resources)| + 2
    ensures Settled(objects, After(objects, st, apis))
    ensures forall api :: Calm(api, objects) && Ordered(api, After(objects, st, apis).fleet) ==>
      Reconciled(api, After(objects, st, apis)) == (After(objects, st, apis), Idle)
  {
    RankBound(objects, st);
    RanksRunOut(objects, st, apis);
    forall api | Calm(api, objects) && Ordered(api, After(objects, st, apis).fleet)
      ensures Reconciled(api, After(objects, st, apis)) == (After(objects, st, apis), Idle)
    {
      SettledIsIdle(api, objects, After(objects, st, apis));
    }
  }

  /**
   What the handler is told about one object, and whether the object is gone: a Delete event carries its last state.
   */
  datatype Note = Note(about: Name, matching: bool, deleting: bool, gone: bool) {
    /** The event leaves a matching object that is not on its way out. */
    predicate Leaves() {
      matching && !deleting && !gone
    }

    /** An object that matched and was deleted at once, without ever carrying a deletion timestamp. */
    predicate Missed() {
      matching && !deleting && gone
    }
  }

  /** checkGenerator: it adds a matching object without a deletion timestamp, and removes any other. */
  function Noted(rs: seq<Name>, e: Note): seq<Name> {
    if e.matching && !e.deleting then if e.about in rs then rs else rs + [e.about] else Kept(rs, e.about)
  }

  /** The matching objects after the event. */
  function Real(before: set<Name>, e: Note): set<Name> {
    if e.Leaves() then before + {e.about} else before - {e.about}
  }

  ghost predicate Exact(rs: seq<Name>, truth: set<Name>) {
    Unique(rs) && forall q :: q in rs <==> q in truth
  }

  /**
   Noting one event keeps the list equal to the matching objects exactly unless it is a deletion that shows no
   timestamp.
   */
  lemma NotingKeepsListExactly(before: set<Name>, rs: seq<Name>, e: Note)
    requires Exact(rs, before)
    ensures !Panics(rs, e.about) && Unique(Noted(rs, e))
    ensures Exact(Noted(rs, e), Real(before, e)) <==> !e.Missed()
  {
    RemoveExactlyOne(rs, e.about);
    if e.Missed() {
      assert e.about in Noted(rs, e) && e.about !in Real(before, e);
    }
  }

  /** An Ingress without finalizers that matched and is deleted stays in the list, or is even added. */
  lemma DeletedObjectStaysListed(before: set<Name>, rs: seq<Name>, r: Name)
    ensures var e := Note(r, true, false, true); e.Missed() && r in Noted(rs, e) && r !in Real(before, e)
  {
  }

  function AllNoted(rs: seq<Name>, es: seq<Note>): seq<Name> {
    if es == [] then rs else Noted(AllNoted(rs, es[..|es| - 1]), es[|es| - 1])
  }

  function RealAfter(before: set<Name>, es: seq<Note>): set<Name> {
    if es == [] then before else Real(RealAfter(before, es[..|es| - 1]), es[|es| - 1])
  }

  /** The last event of an object. */
  function LastNote(es: seq<Note>, r: Name): Option<Note> {
    if es == [] then None else if es[|es| - 1].about == r then Some(es[|es| - 1]) else LastNote(es[..|es| - 1], r)
  }

  lemma {:induction false} NotedByObject(before: set<Name>, rs: seq<Name>, es: seq<Note>, r: Name)
    requires Exact(rs, before)
    ensures Unique(AllNoted(rs, es))
    ensures match LastNote(es, r)
      case None => (r in AllNoted(rs, es) <==> r in rs) && (r in RealAfter(before, es) <==> r in before)
      case Some(e) =>
        && (r in AllNoted(rs, es) <==> e.matching && !e.deleting)
        && (r in RealAfter(before, es) <==> e.Leaves())
  {
    if es != [] {
      var n := |es| - 1;
      NotedByObject(before, rs, es[..n], r);
      RemoveExactlyOne(AllNoted(rs, es[..n]), es[n].about);
    }
  }

  predicate MissedLast(es: seq<Note>, r: Name) {
    LastNote(es, r).Some? && LastNote(es, r).value.Missed()
  }

  /**
   Over every series of events, the list ends equal to the matching objects exactly unless the last event of some
   object was missed.
   */
  lemma {:induction false} NotingOverRunsExactly(before: set<Name>, rs: seq<Name>, es: seq<Note>)
    requires Exact(rs, before)
    ensures Exact(AllNoted(rs, es), RealAfter(before, es)) <==> forall r :: !MissedLast(es, r)
  {
    forall r ensures (r in AllNoted(rs, es) <==> r in RealAfter(before, es)) <==> !MissedLast(es, r) {
      NotedByObject(before, rs, es, r);
    }
    NotedByObject(before, rs, es, Name("", ""));
    if forall r :: !MissedLast(es, r) {
      forall r ensures r in AllNoted(rs, es) <==> r in RealAfter(before, es) {
        assert !MissedLast(es, r);
      }
    }
  }
}
