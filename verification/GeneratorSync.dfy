/** The Generator reconcile: keeping the list of matched resources, and one watcher for each of them. */
module GeneratorSync {
  import opened Names
  import opened ResourceList

  /** The generator's generation and status. */
  datatype Gen = Gen(generation: nat, applied: nat, resources: seq<Name>)

  /** The watchers the generator owns, by identity, with the resource each points to. */
  datatype Fleet = Fleet(watchers: map<nat, Name>, nextId: nat)

  datatype State = State(gen: Gen, fleet: Fleet)

  /** A resource that exists: it matches the selector, it does not, or reading it fails. */
  datatype Lookup = Matching | Differing | Broken

  /** What the API answers during one run: `listing` and `order` are the results of the two list calls. */
  datatype Api = Api(
    objects: map<Name, Lookup>, listing: seq<Name>, order: seq<nat>,
    listFails: bool, writeFails: bool, createFails: set<Name>, deleteFails: set<nat>)

  datatype Outcome = Idle | Requeue | Wrote | Error | Crashed

  datatype Stop = Through | Gone(resource: Name) | Unlike(resource: Name) | Failed

  /** AddResource over a list. */
  function Gathered(listing: seq<Name>): seq<Name> {
    if listing == [] then []
    else
      var n := |listing| - 1;
      var rs := Gathered(listing[..n]);
      if listing[n] in rs then rs else rs + [listing[n]]
  }

  function Hire(f: Fleet, r: Name): Fleet {
    Fleet(f.watchers[f.nextId := r], f.nextId + 1)
  }

  /** The first `n` resources, until one of them stops the run; `listed` are the watchers as listed at its start. */
  function Visited(api: Api, listed: map<nat, Name>, f: Fleet, rs: seq<Name>, n: nat): (Fleet, Stop)
    requires n <= |rs|
  {
    if n == 0 then (f, Through)
    else
      var (g, stop) := Visited(api, listed, f, rs, n - 1);
      var r := rs[n - 1];
      if stop != Through then (g, stop)
      else if r !in api.objects then (g, Gone(r))
      else if api.objects[r].Broken? then (g, Failed)
      else if api.objects[r].Differing? then (g, Unlike(r))
      else if r in listed.Values then (g, Through)
      else if r in api.createFails then (g, Failed)
      else (Hire(g, r), Through)
  }

  /** ResourceWatcherList.Get marks, for each resource, the first listed watcher that points to it. */
  predicate Marked(listed: map<nat, Name>, order: seq<nat>, rs: seq<Name>, j: nat)
    requires j < |order| && forall id <- order :: id in listed
  {
    listed[order[j]] in rs && forall i | 0 <= i < j :: listed[order[i]] != listed[order[j]]
  }

  function Swept(listed: map<nat, Name>, order: seq<nat>, rs: seq<Name>, fails: set<nat>, f: Fleet, n: nat): (Fleet,
        bool)
    requires n <= |order| && forall id <- order :: id in listed
  {
    if n == 0 then (f, true)
    else
      var (g, ok) := Swept(listed, order, rs, fails, f, n - 1);
      if !ok || Marked(listed, order, rs, n - 1) then (g, ok)
      else if order[n - 1] in fails then (g, false)
      else (g.(watchers := g.watchers - {order[n - 1]}), true)
  }

  /** A status write that fails leaves the stored status alone. */
  function Stored(api: Api, st: State, gen: Gen, f: Fleet, o: Outcome): (State, Outcome) {
    if api.writeFails then (State(st.gen, f), Error) else (State(gen, f), o)
  }

  ghost predicate Ordered(api: Api, f: Fleet) {
    && (forall id :: id in api.order <==> id in f.watchers)
    && (forall i, j :: 0 <= i < j < |api.order| ==> api.order[i] != api.order[j])
  }

  function Reconciled(api: Api, st: State): (State, Outcome)
    requires forall id <- api.order :: id in st.fleet.watchers
  {
    var g := st.gen;
    if g.generation != g.applied then
      if api.listFails then (st, Error)
      else Stored(api, st, Gen(g.generation, g.generation, Gathered(api.listing)), st.fleet, Requeue)
    else if api.listFails then (st, Error)
    else
      var (f, stop) := Visited(api, st.fleet.watchers, st.fleet, g.resources, |g.resources|);
      match stop
      case Failed => (State(g, f), Error)
      case Gone(r) =>
        if Panics(g.resources, r) then (State(g, f), Crashed)
        else Stored(api, st, g.(resources := Kept(g.resources, r)), f, Wrote)
      case Unlike(r) => Stored(api, st, g.(applied := 0), f, Requeue)
      case Through =>
        var (h, ok) := Swept(st.fleet.watchers, api.order, g.resources, api.deleteFails, f, |api.order|);
        (State(g, h), if ok then Idle else Error)
  }

  lemma {:induction false} VisitStops(api: Api, listed: map<nat, Name>, f: Fleet, rs: seq<Name>, n: nat, m: nat)
    requires n <= m <= |rs|
    ensures Visited(api, listed, f, rs, n).1 != Through
      ==> Visited(api, listed, f, rs, m) == Visited(api, listed, f, rs, n)
    decreases m
  {
    if n < m {
      VisitStops(api, listed, f, rs, n, m - 1);
    }
  }

  lemma {:induction false} SweepStops(listed: map<nat, Name>, order: seq<nat>, rs: seq<Name>, fails: set<nat>,
        f: Fleet, n: nat, m: nat)
    requires n <= m <= |order| && forall id <- order :: id in listed
    ensures !Swept(listed, order, rs, fails, f, n).1 ==>
      Swept(listed, order, rs, fails, f, m) == Swept(listed, order, rs, fails, f, n)
    decreases m
  {
    if n < m {
      SweepStops(listed, order, rs, fails, f, n, m - 1);
    }
  }

  ghost predicate Marks(checked: array<bool>, listed: map<nat, Name>, order: seq<nat>, rs: seq<Name>)
    requires forall id <- order :: id in listed
    reads checked
  {
    checked.Length == |order| && forall j :: 0 <= j < |order| ==> (checked[j] <==> Marked(listed, order, rs, j))
  }

  lemma MarkOne(listed: map<nat, Name>, order: seq<nat>, rs: seq<Name>, n: nat, j: nat)
    requires n < |rs| && j < |order| && forall id <- order :: id in listed
    ensures Marked(listed, order, rs[..n + 1], j) <==>
      || Marked(listed, order, rs[..n], j)
      || (listed[order[j]] == rs[n] && forall i | 0 <= i < j :: listed[order[i]] != rs[n])
  {
    assert rs[..n + 1] == rs[..n] + [rs[n]];
  }

  /** ResourceWatcherList.Get, as a position. */
  method Get(listed: map<nat, Name>, order: seq<nat>, r: Name) returns (i: Option<nat>)
    requires forall id :: id in order <==> id in listed
    ensures i == None <==> r !in listed.Values
    ensures i.Some? ==> i.value < |order| && listed[order[i.value]] == r && forall k | 0 <= k < i.value ::
      listed[order[k]] != r
  {
    for j := 0 to |order|
      invariant forall k | 0 <= k < j :: listed[order[k]] != r
    {
      if listed[order[j]] == r {
        return Some(j);
      }
    }
    return None;
  }

  /** Marks the watcher of one more resource, if it has one. */
  method MarkFirst(listed: map<nat, Name>, order: seq<nat>, checked: array<bool>, rs: seq<Name>, n: nat)
        returns (found: bool)
    requires forall id :: id in order <==> id in listed
    requires n < |rs| && Marks(checked, listed, order, rs[..n])
    modifies checked
    ensures Marks(checked, listed, order, rs[..n + 1])
    ensures found <==> rs[n] in listed.Values
  {
    forall j | 0 <= j < |order|
      ensures Marked(listed, order, rs[..n + 1], j) <==>
        Marked(listed, order, rs[..n], j) || (listed[order[j]] == rs[n] && forall i | 0 <= i < j ::
          listed[order[i]] != rs[n])
    {
      MarkOne(listed, order, rs, n, j);
    }
    var i := Get(listed, order, rs[n]);
    found := i.Some?;
    if found {
      checked[i.value] := true;
    }
  }

  class Reconciler {
    var gen: Gen
    var fleet: Fleet

    constructor (gen: Gen, fleet: Fleet)
      ensures this.gen == gen && this.fleet == fleet
    {
      this.gen, this.fleet := gen, fleet;
    }

    method Gather(listing: seq<Name>) returns (rs: seq<Name>)
      ensures rs == Gathered(listing)
    {
      rs := [];
      for n := 0 to |listing|
        invariant rs == Gathered(listing[..n])
      {
        assert listing[..n + 1][..n] == listing[..n];
        if listing[n] !in rs {
          rs := rs + [listing[n]];
        }
      }
      assert listing[..|listing|] == listing;
    }

    method Store(api: Api, gen': Gen, o: Outcome) returns (r: Outcome)
      modifies this
      ensures (State(gen, fleet), r) == Stored(api, old(State(gen, fleet)), gen', old(fleet), o)
    {
      if api.writeFails {
        return Error;
      }
      gen := gen';
      return o;
    }

    /** Creates the missing watchers and marks the listed ones, until a resource stops the run. */
    method Visit(api: Api, listed: map<nat, Name>, checked: array<bool>) returns (stop: Stop)
      requires forall id :: id in api.order <==> id in listed
      requires Marks(checked, listed, api.order, [])
      modifies this, checked
      ensures gen == old(gen)
      ensures (fleet, stop) == Visited(api, listed, old(fleet), gen.resources, |gen.resources|)
      ensures stop == Through ==> Marks(checked, listed, api.order, gen.resources)
    {
      ghost var f := fleet;
      var rs := gen.resources;
      for n := 0 to |rs|
        invariant gen == old(gen)
        invariant Visited(api, listed, f, rs, n) == (fleet, Through)
        invariant Marks(checked, listed, api.order, rs[..n])
      {
        VisitStops(api, listed, f, rs, n + 1, |rs|);
        var r := rs[n];
        if r !in api.objects {
          return Gone(r);
        }
        match api.objects[r] {
          case Broken => return Failed;
          case Differing => return Unlike(r);
          case Matching =>
        }
        var found := MarkFirst(listed, api.order, checked, rs, n);
        if !found {
          if r in api.createFails {
            return Failed;
          }
          fleet := Hire(fleet, r);
        }
      }
      assert rs[..|rs|] == rs;
      return Through;
    }

    method Sweep(api: Api, ghost listed: map<nat, Name>, checked: array<bool>) returns (ok: bool)
      requires forall id <- api.order :: id in listed
      requires Marks(checked, listed, api.order, gen.resources)
      modifies this
      ensures gen == old(gen)
      ensures (fleet, ok) == Swept(listed, api.order, gen.resources, api.deleteFails, old(fleet), |api.order|)
    {
      ghost var f := fleet;
      for n := 0 to |api.order|
        invariant gen == old(gen)
        invariant Swept(listed, api.order, gen.resources, api.deleteFails, f, n) == (fleet, true)
      {
        SweepStops(listed, api.order, gen.resources, api.deleteFails, f, n + 1, |api.order|);
        if !checked[n] {
          if api.order[n] in api.deleteFails {
            return false;
          }
          fleet := fleet.(watchers := fleet.watchers - {api.order[n]});
        }
      }
      return true;
    }

    method Reconcile(api: Api) returns (o: Outcome)
      requires Ordered(api, fleet)
      modifies this
      ensures (State(gen, fleet), o) == Reconciled(api, old(State(gen, fleet)))
    {
      if gen.generation != gen.applied {
        if api.listFails {
          return Error;
        }
        var rs := Gather(api.listing);
        o := Store(api, Gen(gen.generation, gen.generation, rs), Requeue);
        return o;
      }
      if api.listFails {
        return Error;
      }
      var checked := new bool[|api.order|](_ => false);
      var listed := fleet.watchers;
      var stop := Visit(api, listed, checked);
      match stop {
        case Failed => return Error;
        case Gone(r) =>
          if Panics(gen.resources, r) {
            return Crashed;
          }
          o := Store(api, gen.(resources := Kept(gen.resources, r)), Wrote);
        case Unlike(_) => o := Store(api, gen.(applied := 0), Requeue);
        case Through =>
          var ok := Sweep(api, listed, checked);
          o := if ok then Idle else Error;
      }
    }
  }
}
