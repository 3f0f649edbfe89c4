/**
 The data a template reads through its accessors. Each accessor records the object it read in the watcher's
 status, so that a later change of that object makes the watcher render again.
 */
module Templates {
  import opened Names

  datatype Target = Target(kind: string, uid: string, name: string)

  datatype Address = Address(nodeName: Option<string>, target: Option<Target>)

  /** The part of a generator's spec that a rendering depends on. */
  datatype GeneratorSpec = GeneratorSpec(resourceKind: string, template: string, templateRef: string)

  /** The objects of the cluster; `rest` stands for the fields that only the template looks at. */
  datatype Obj =
    | Namespace(name: Name, rest: string)
    | Ingress(name: Name, backends: seq<seq<Option<string>>>, rest: string)
    | Service(name: Name, rest: string)
    | Endpoints(name: Name, subsets: seq<seq<Address>>, rest: string)
    | Node(name: Name, rest: string)
    | Pod(name: Name, nodeName: string, rest: string)
    | Record(name: Name, rest: string)
    | Template(name: Name, text: string)
    | ClusterTemplate(name: Name, text: string)
    | Generator(name: Name, spec: GeneratorSpec)
    | ClusterGenerator(name: Name, spec: GeneratorSpec)
  {
    function Kind(): string {
      match this
      case Namespace(_, _) => "Namespace"
      case Ingress(_, _, _) => "Ingress"
      case Service(_, _) => "Service"
      case Endpoints(_, _, _) => "Endpoints"
      case Node(_, _) => "Node"
      case Pod(_, _, _) => "Pod"
      case Record(_, _) => "Record"
      case Template(_, _) => "Template"
      case ClusterTemplate(_, _) => "ClusterTemplate"
      case Generator(_, _) => "Generator"
      case ClusterGenerator(_, _) => "ClusterGenerator"
    }

    function Key(): WatchResource {
      WatchResource(Kind(), name)
    }
  }

  datatype Cluster = Cluster(objects: map<WatchResource, Obj>) {
    /** A get returns the object that was asked for, or not found. */
    function Get(key: WatchResource): Option<Obj> {
      if key in objects && objects[key].Key() == key then Some(objects[key]) else None
    }
  }

  /** What the accessors start from: the namespace of the watcher and its primary object. */
  datatype Context = Context(namespace: string, primary: Obj)

  datatype Query =
    | OfNamespace
    | OfPrimary
    | OfService(ingress: Obj, rule: int, path: int)
    | OfEndpoints(service: Obj)
    | OfNodes(endpoints: Obj)
    | OfPods(endpoints: Obj)
    | OfNode(pod: Obj)

  /** Nodes and Pods return their results in the random order of a map, so a template may use them as a set only. */
  datatype Data = One(obj: Obj) | Nothing | Many(objs: set<Obj>)

  /** An accessor's answer and the objects it recorded. */
  datatype Answer = Answer(data: Data, noted: set<WatchResource>)

  function Single(c: Cluster, key: WatchResource): Option<Answer> {
    match c.Get(key)
    case None => None
    case Some(o) => Some(Answer(One(o), {o.Key()}))
  }

  function Flat(subsets: seq<seq<Address>>): seq<Address> {
    if subsets == [] then [] else Flat(subsets[..|subsets| - 1]) + subsets[|subsets| - 1]
  }

  function NodeKey(name: string): WatchResource {
    WatchResource("Node", Name("", name))
  }

  /** The nodes behind the addresses, by name. */
  function NodeMap(c: Cluster, addresses: seq<Address>): Option<map<string, Obj>> {
    if addresses == [] then Some(map[])
    else
      var n := |addresses| - 1;
      match NodeMap(c, addresses[..n])
      case None => None
      case Some(m) => WithNode(c, m, addresses[n])
  }

  function WithNode(c: Cluster, m: map<string, Obj>, a: Address): Option<map<string, Obj>> {
    if a.nodeName == None || a.nodeName.value in m then Some(m)
    else
      match c.Get(NodeKey(a.nodeName.value))
      case None => None
      case Some(node) => Some(m[a.nodeName.value := node])
  }

  /**
   The pods behind the addresses, by the uid of the reference: the first name given for a uid is the one that is
   read.
   */
  function PodMap(c: Cluster, ns: string, addresses: seq<Address>): Option<map<string, Obj>> {
    if addresses == [] then Some(map[])
    else
      var n := |addresses| - 1;
      match PodMap(c, ns, addresses[..n])
      case None => None
      case Some(m) => WithPod(c, ns, m, addresses[n])
  }

  function WithPod(c: Cluster, ns: string, m: map<string, Obj>, a: Address): Option<map<string, Obj>> {
    if a.target == None || a.target.value.kind != "Pod" || a.target.value.uid in m then Some(m)
    else
      match c.Get(WatchResource("Pod", Name(ns, a.target.value.name)))
      case None => None
      case Some(pod) => Some(m[a.target.value.uid := pod])
  }

  function KeysOf(objs: set<Obj>): set<WatchResource> {
    set o | o in objs :: o.Key()
  }

  function All(m: Option<map<string, Obj>>): Option<Answer> {
    match m
    case None => None
    case Some(m) => Some(Answer(Many(m.Values), KeysOf(m.Values)))
  }

  /** One accessor call; None is an error, which ends the rendering. */
  function Asked(c: Cluster, ctx: Context, q: Query): Option<Answer> {
    match q
    case OfNamespace => Single(c, WatchResource("Namespace", Name("", ctx.namespace)))
    case OfPrimary => if ctx.primary.Ingress? || ctx.primary.Record? then
      Some(Answer(One(ctx.primary), {ctx.primary.Key()})) else None
    case OfService(i, rule, path) =>
      if i.Ingress? && 0 <= rule < |i.backends| && 0 <= path < |i.backends[rule]| && i.backends[rule][path].Some? then
        Single(c, WatchResource("Service", Name(i.name.namespace, i.backends[rule][path].value)))
      else None
    case OfEndpoints(s) => if s.Service? then Single(c, WatchResource("Endpoints", s.name)) else None
    case OfNodes(e) => if e.Endpoints? then All(NodeMap(c, Flat(e.subsets))) else None
    case OfPods(e) => if e.Endpoints? then All(PodMap(c, e.name.namespace, Flat(e.subsets))) else None
    case OfNode(pod) =>
      if !pod.Pod? then None
      else if pod.nodeName == "" then Some(Answer(Nothing, {}))
      else Single(c, NodeKey(pod.nodeName))
  }

  /** The watcher's status: the resources its last rendering recorded. */
  class Watcher {
    const namespace: string
    var resources: seq<WatchResource>

    constructor (namespace: string)
      ensures this.namespace == namespace && resources == []
    {
      this.namespace, resources := namespace, [];
    }

    ghost function Recorded(): set<WatchResource>
      reads this
    {
      set r | r in resources
    }

    ghost predicate Unique()
      reads this
    {
      forall i, j :: 0 <= i < j < |resources| ==> resources[i] != resources[j]
    }

    method AddResource(r: WatchResource)
      requires Unique()
      modifies this
      ensures Unique() && Recorded() == old(Recorded()) + {r}
    {
      for i := 0 to |resources|
        invariant resources == old(resources) && r !in resources[..i]
      {
        if resources[i] == r {
          return;
        }
      }
      resources := resources + [r];
    }
  }

  lemma FlatMore(subsets: seq<seq<Address>>, i: nat)
    requires i < |subsets|
    ensures Flat(subsets[..i + 1]) == Flat(subsets[..i]) + subsets[i]
  {
    assert subsets[..i + 1][..i] == subsets[..i];
  }

  /** A prefix whose reading fails decides the whole. */
  lemma {:induction false} NodeMapStops(c: Cluster, a: seq<Address>, b: seq<Address>)
    requires a <= b && NodeMap(c, a) == None
    ensures NodeMap(c, b) == None
  {
    if a != b {
      NodeMapStops(c, a, b[..|b| - 1]);
    }
  }

  lemma {:induction false} PodMapStops(c: Cluster, ns: string, a: seq<Address>, b: seq<Address>)
    requires a <= b && PodMap(c, ns, a) == None
    ensures PodMap(c, ns, b) == None
  {
    if a != b {
      PodMapStops(c, ns, a, b[..|b| - 1]);
    }
  }

  lemma {:induction false} FlatPrefix(subsets: seq<seq<Address>>, i: nat)
    requires i <= |subsets|
    ensures Flat(subsets[..i]) <= Flat(subsets)
    decreases |subsets|
  {
    if i == |subsets| {
      assert subsets[..i] == subsets;
    } else {
      assert subsets[..|subsets| - 1][..i] == subsets[..i];
      FlatPrefix(subsets[..|subsets| - 1], i);
    }
  }

  lemma NodeMapStep(c: Cluster, before: seq<Address>, more: seq<Address>, j: nat)
    requires j < |more|
    ensures NodeMap(c, before + more[..j + 1]) ==
      match NodeMap(c, before + more[..j]) case None => None case Some(m) => WithNode(c, m, more[j])
  {
    var seen := before + more[..j + 1];
    assert seen[..|seen| - 1] == before + more[..j];
  }

  lemma PodMapStep(c: Cluster, ns: string, before: seq<Address>, more: seq<Address>, j: nat)
    requires j < |more|
    ensures PodMap(c, ns, before + more[..j + 1]) ==
      match PodMap(c, ns, before + more[..j]) case None => None case Some(m) => WithPod(c, ns, m, more[j])
  {
    var seen := before + more[..j + 1];
    assert seen[..|seen| - 1] == before + more[..j];
  }

  class TemplateData {
    const cluster: Cluster
    const watcher: Watcher
    const primary: Obj

    constructor (cluster: Cluster, watcher: Watcher, primary: Obj)
      ensures this.cluster == cluster && this.watcher == watcher && this.primary == primary
    {
      this.cluster, this.watcher, this.primary := cluster, watcher, primary;
    }

    ghost function Ctx(): Context {
      Context(watcher.namespace, primary)
    }

    /** One read of one object. */
    method Read(key: WatchResource) returns (r: Option<Obj>)
      requires watcher.Unique()
      modifies watcher
      ensures watcher.Unique()
      ensures r == cluster.Get(key)
      ensures watcher.Recorded() == old(watcher.Recorded()) + if r.Some? then {key} else {}
    {
      r := cluster.Get(key);
      if r.Some? {
        watcher.AddResource(r.value.Key());
      }
    }

    method GetNamespace() returns (r: Option<Obj>)
      requires watcher.Unique()
      modifies watcher
      ensures watcher.Unique() && Answers(OfNamespace, r, old(watcher.Recorded()))
      ensures r == cluster.Get(WatchResource("Namespace", Name("", watcher.namespace)))
    {
      r := Read(WatchResource("Namespace", Name("", watcher.namespace)));
    }

    /** `r` and what is recorded now are what the accessor `q` owes. */
    ghost predicate Answers(q: Query, r: Option<Obj>, before: set<WatchResource>)
      reads watcher
    {
      match Asked(cluster, Ctx(), q)
      case None => r == None && watcher.Recorded() == before
      case Some(a) => a.data == (if r.Some? then One(r.value) else Nothing) && watcher.Recorded() == before + a.noted
    }

    /** Only the data of Ingress and Record generators has this accessor. */
    method Primary() returns (r: Obj)
      requires watcher.Unique() && (primary.Ingress? || primary.Record?)
      modifies watcher
      ensures watcher.Unique() && Answers(OfPrimary, Some(r), old(watcher.Recorded()))
      ensures r == primary
    {
      watcher.AddResource(primary.Key());
      return primary;
    }

    method GetService(ingress: Obj, rule: int, path: int) returns (r: Option<Obj>)
      requires watcher.Unique() && ingress.Ingress?
      modifies watcher
      ensures watcher.Unique() && Answers(OfService(ingress, rule, path), r, old(watcher.Recorded()))
      ensures r ==
        if 0 <= rule < |ingress.backends| && 0 <= path < |ingress.backends[rule]|
           && ingress.backends[rule][path].Some? then
          cluster.Get(WatchResource("Service", Name(ingress.name.namespace, ingress.backends[rule][path].value)))
        else None
    {
      if !(0 <= rule < |ingress.backends| && 0 <= path < |ingress.backends[rule]|)
        || ingress.backends[rule][path] == None {
        return None;
      }
      r := Read(WatchResource("Service", Name(ingress.name.namespace, ingress.backends[rule][path].value)));
    }

    method GetEndpoints(service: Obj) returns (r: Option<Obj>)
      requires watcher.Unique() && service.Service?
      modifies watcher
      ensures watcher.Unique() && Answers(OfEndpoints(service), r, old(watcher.Recorded()))
      ensures r == cluster.Get(WatchResource("Endpoints", service.name))
    {
      r := Read(WatchResource("Endpoints", service.name));
    }

    method GetNode(pod: Obj) returns (r: Option<Obj>)
      requires watcher.Unique() && pod.Pod?
      modifies watcher
      ensures watcher.Unique() && Answers(OfNode(pod), r, old(watcher.Recorded()))
      ensures r == if pod.nodeName == "" then None else cluster.Get(WatchResource("Node", Name("", pod.nodeName)))
    {
      if pod.nodeName == "" {
        return None;
      }
      r := Read(NodeKey(pod.nodeName));
    }

    /** One object for each of these keys. */
    ghost predicate ListedBy(m: map<string, Obj>, keys: seq<string>, objs: seq<Obj>) {
      && |keys| == |objs| && (forall i, j :: 0 <= i < j < |keys| ==> keys[i] != keys[j])
      && forall i | 0 <= i < |keys| :: keys[i] in m && objs[i] == m[keys[i]]
    }

    ghost predicate OncePerKey(m: map<string, Obj>, objs: seq<Obj>) {
      exists keys :: ListedBy(m, keys, objs) && forall k :: k in keys <==> k in m
    }

    /** The second loop of Nodes and Pods: the objects in some order of the map, each recorded. */
    method Collect(m: map<string, Obj>) returns (objs: seq<Obj>)
      requires watcher.Unique()
      modifies watcher
      ensures watcher.Unique() && OncePerKey(m, objs) && (set o | o in objs) == m.Values
      ensures watcher.Recorded() == old(watcher.Recorded()) + KeysOf(m.Values)
    {
      objs := [];
      var left := m.Keys;
      ghost var keys: seq<string> := [];
      while left != {}
        invariant watcher.Unique() && left <= m.Keys
        invariant ListedBy(m, keys, objs) && forall k :: k in keys <==> k in m.Keys - left
        invariant forall o :: o in objs <==> exists k :: k in m.Keys - left && m[k] == o
        invariant watcher.Recorded() == old(watcher.Recorded()) + KeysOf(set o | o in objs)
      {
        var k :| k in left;
        objs, keys := objs + [m[k]], keys + [k];
        left := left - {k};
        watcher.AddResource(m[k].Key());
      }
    }

    ghost predicate AnswersMany(q: Query, r: Option<seq<Obj>>, before: set<WatchResource>)
      reads watcher
    {
      match Asked(cluster, Ctx(), q)
      case None => r == None && watcher.Recorded() == before
      case Some(a) => r.Some? && a.data == Many(set o | o in r.value) && watcher.Recorded() == before + a.noted
    }

    /** The first loop of Nodes. */
    method GatherNodes(subsets: seq<seq<Address>>) returns (found: Option<map<string, Obj>>)
      ensures found == NodeMap(cluster, Flat(subsets))
    {
      var m: map<string, Obj> := map[];
      for i := 0 to |subsets|
        invariant NodeMap(cluster, Flat(subsets[..i])) == Some(m)
      {
        FlatMore(subsets, i);
        FlatPrefix(subsets, i + 1);
        ghost var before := Flat(subsets[..i]);
        assert before + subsets[i][..0] == before;
        for j := 0 to |subsets[i]|
          invariant NodeMap(cluster, before + subsets[i][..j]) == Some(m)
        {
          ghost var seen := before + subsets[i][..j + 1];
          NodeMapStep(cluster, before, subsets[i], j);
          var a := subsets[i][j];
          if a.nodeName == None || a.nodeName.value in m {
            continue;
          }
          var node := cluster.Get(NodeKey(a.nodeName.value));
          if node == None {
            NodeMapStops(cluster, seen, Flat(subsets));
            return None;
          }
          m := m[a.nodeName.value := node.value];
        }
        assert subsets[i][..|subsets[i]|] == subsets[i];
      }
      assert subsets[..|subsets|] == subsets;
      return Some(m);
    }

    method Nodes(endpoints: Obj) returns (r: Option<seq<Obj>>)
      requires watcher.Unique() && endpoints.Endpoints?
      modifies watcher
      ensures watcher.Unique() && AnswersMany(OfNodes(endpoints), r, old(watcher.Recorded()))
      ensures r.Some? ==> OncePerKey(NodeMap(cluster, Flat(endpoints.subsets)).value, r.value)
    {
      var m := GatherNodes(endpoints.subsets);
      if m == None {
        return None;
      }
      var objs := Collect(m.value);
      return Some(objs);
    }

    /** The first loop of Pods. */
    method GatherPods(ns: string, subsets: seq<seq<Address>>) returns (found: Option<map<string, Obj>>)
      ensures found == PodMap(cluster, ns, Flat(subsets))
    {
      var m: map<string, Obj> := map[];
      for i := 0 to |subsets|
        invariant PodMap(cluster, ns, Flat(subsets[..i])) == Some(m)
      {
        FlatMore(subsets, i);
        FlatPrefix(subsets, i + 1);
        ghost var before := Flat(subsets[..i]);
        assert before + subsets[i][..0] == before;
        for j := 0 to |subsets[i]|
          invariant PodMap(cluster, ns, before + subsets[i][..j]) == Some(m)
        {
          ghost var seen := before + subsets[i][..j + 1];
          PodMapStep(cluster, ns, before, subsets[i], j);
          var a := subsets[i][j];
          if a.target == None || a.target.value.kind != "Pod" || a.target.value.uid in m {
            continue;
          }
          var pod := cluster.Get(WatchResource("Pod", Name(ns, a.target.value.name)));
          if pod == None {
            PodMapStops(cluster, ns, seen, Flat(subsets));
            return None;
          }
          m := m[a.target.value.uid := pod.value];
        }
        assert subsets[i][..|subsets[i]|] == subsets[i];
      }
      assert subsets[..|subsets|] == subsets;
      return Some(m);
    }

    method Pods(endpoints: Obj) returns (r: Option<seq<Obj>>)
      requires watcher.Unique() && endpoints.Endpoints?
      modifies watcher
      ensures watcher.Unique() && AnswersMany(OfPods(endpoints), r, old(watcher.Recorded()))
      ensures r.Some? ==>
        OncePerKey(PodMap(cluster, endpoints.name.namespace, Flat(endpoints.subsets)).value, r.value)
    {
      var m := GatherPods(endpoints.name.namespace, endpoints.subsets);
      if m == None {
        return None;
      }
      var objs := Collect(m.value);
      return Some(objs);
    }
  }
}
