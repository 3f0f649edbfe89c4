/** What the accessors of a template answer, in the fields of the objects they start from. */
module TemplateAnswers {
  import opened Names
  import opened Templates
  import Laws = TemplateLaws

  predicate OfKind(o: Obj, kind: string) {
    || (o.Namespace? && kind == "Namespace") || (o.Ingress? && kind == "Ingress")
    || (o.Service? && kind == "Service") || (o.Endpoints? && kind == "Endpoints")
    || (o.Node? && kind == "Node") || (o.Pod? && kind == "Pod") || (o.Record? && kind == "Record")
    || (o.Template? && kind == "Template") || (o.ClusterTemplate? && kind == "ClusterTemplate")
    || (o.Generator? && kind == "Generator") || (o.ClusterGenerator? && kind == "ClusterGenerator")
  }

  /** The cluster has an object of this kind and name. */
  predicate Has(c: Cluster, kind: string, name: Name) {
    var key := WatchResource(kind, name);
    key in c.objects && OfKind(c.objects[key], kind) && c.objects[key].name == name
  }

  function The(c: Cluster, kind: string, name: Name): Obj
    requires Has(c, kind, name)
  {
    c.objects[WatchResource(kind, name)]
  }

  lemma GetIsHas(c: Cluster, kind: string, name: Name)
    ensures c.Get(WatchResource(kind, name)) == if Has(c, kind, name) then Some(The(c, kind, name)) else None
  {
  }

  /** The answer is the one object of this kind and name, which is recorded; without it there is an error. */
  ghost predicate Finds(c: Cluster, kind: string, name: Name, a: Option<Answer>) {
    a == if Has(c, kind, name) then Some(Answer(One(The(c, kind, name)), {WatchResource(kind, name)})) else None
  }

  /**
   A path of an Ingress leads to the Service of that name in the Ingress's namespace, a Service to the Endpoints of its
   own name, a Pod to the Node it names, if it names one, and any of them to the watcher's Namespace.
   */
  lemma AnswersByFields(c: Cluster, ctx: Context, o: Obj, rule: int, path: int)
    ensures Finds(c, "Namespace", Name("", ctx.namespace), Asked(c, ctx, OfNamespace))
    ensures o.Ingress? ==>
      if 0 <= rule < |o.backends| && 0 <= path < |o.backends[rule]| && o.backends[rule][path].Some? then
        Finds(c, "Service", Name(o.name.namespace, o.backends[rule][path].value),
          Asked(c, ctx, OfService(o, rule, path)))
      else
        Asked(c, ctx, OfService(o, rule, path)) == None
    ensures o.Service? ==> Finds(c, "Endpoints", o.name, Asked(c, ctx, OfEndpoints(o)))
    ensures o.Pod? ==>
      if o.nodeName == "" then Asked(c, ctx, OfNode(o)) == Some(Answer(Nothing, {}))
      else Finds(c, "Node", Name("", o.nodeName), Asked(c, ctx, OfNode(o)))
    ensures ctx.primary.Ingress? ==>
      Asked(c, ctx, OfPrimary) == Some(Answer(One(ctx.primary), {WatchResource("Ingress", ctx.primary.name)}))
    ensures ctx.primary.Record? ==>
      Asked(c, ctx, OfPrimary) == Some(Answer(One(ctx.primary), {WatchResource("Record", ctx.primary.name)}))
  {
    GetIsHas(c, "Namespace", Name("", ctx.namespace));
    GetIsHas(c, "Endpoints", o.name);
    if o.Pod? {
      GetIsHas(c, "Node", Name("", o.nodeName));
    }
    if o.Ingress? && 0 <= rule < |o.backends| && 0 <= path < |o.backends[rule]| && o.backends[rule][path].Some? {
      GetIsHas(c, "Service", Name(o.name.namespace, o.backends[rule][path].value));
    }
  }

  predicate Within(subsets: seq<seq<Address>>, i: int, j: int) {
    0 <= i < |subsets| && 0 <= j < |subsets[i]|
  }

  /** Where subset `i` starts in the addresses put one after another. */
  function Offset(subsets: seq<seq<Address>>, i: nat): nat
    requires i <= |subsets|
  {
    if i == 0 then 0 else Offset(subsets, i - 1) + |subsets[i - 1]|
  }

  lemma {:induction false} OffsetPrefix(subsets: seq<seq<Address>>, n: nat, i: nat)
    requires i <= n <= |subsets|
    ensures Offset(subsets[..n], i) == Offset(subsets, i)
  {
    if i > 0 {
      OffsetPrefix(subsets, n, i - 1);
    }
  }

  lemma {:induction false} FlatLength(subsets: seq<seq<Address>>)
    ensures |Flat(subsets)| == Offset(subsets, |subsets|)
  {
    if subsets != [] {
      var n := |subsets| - 1;
      FlatLength(subsets[..n]);
      OffsetPrefix(subsets, n, n);
    }
  }

  lemma {:induction false} OffsetGrows(subsets: seq<seq<Address>>, i: nat, i': nat)
    requires i <= i' <= |subsets|
    ensures Offset(subsets, i) <= Offset(subsets, i')
    decreases i'
  {
    if i < i' {
      OffsetGrows(subsets, i, i' - 1);
    }
  }

  lemma {:induction false} FlatAt(subsets: seq<seq<Address>>, i: nat, j: nat)
    requires Within(subsets, i, j)
    ensures Offset(subsets, i) + j < |Flat(subsets)| && Flat(subsets)[Offset(subsets, i) + j] == subsets[i][j]
    decreases |subsets|
  {
    var n := |subsets| - 1;
    OffsetPrefix(subsets, n, i);
    if i < n {
      FlatAt(subsets[..n], i, j);
    } else {
      FlatLength(subsets[..n]);
    }
  }

  lemma {:induction false} FlatFrom(subsets: seq<seq<Address>>, k: nat) returns (i: nat, j: nat)
    requires k < |Flat(subsets)|
    ensures Within(subsets, i, j) && k == Offset(subsets, i) + j && Flat(subsets)[k] == subsets[i][j]
    decreases |subsets|
  {
    var n := |subsets| - 1;
    FlatLength(subsets[..n]);
    OffsetPrefix(subsets, n, n);
    if k < |Flat(subsets[..n])| {
      i, j := FlatFrom(subsets[..n], k);
      OffsetPrefix(subsets, n, i);
    } else {
      i, j := n, k - |Flat(subsets[..n])|;
    }
  }

  /** Some address names this node. */
  ghost predicate NamesNode(subsets: seq<seq<Address>>, name: string) {
    exists i, j :: Within(subsets, i, j) && subsets[i][j].nodeName == Some(name)
  }

  ghost predicate NamedIn(addresses: seq<Address>, name: string) {
    exists a <- addresses :: a.nodeName == Some(name)
  }

  lemma NamedInFlat(subsets: seq<seq<Address>>, name: string)
    ensures NamedIn(Flat(subsets), name) <==> NamesNode(subsets, name)
  {
    if NamedIn(Flat(subsets), name) {
      var k :| 0 <= k < |Flat(subsets)| && Flat(subsets)[k].nodeName == Some(name);
      var i, j := FlatFrom(subsets, k);
      assert Within(subsets, i, j) && subsets[i][j].nodeName == Some(name);
    }
    if NamesNode(subsets, name) {
      var i, j :| Within(subsets, i, j) && subsets[i][j].nodeName == Some(name);
      FlatAt(subsets, i, j);
      assert subsets[i][j] in Flat(subsets);
    }
  }

  lemma {:induction false} NodeMapExactly(c: Cluster, addresses: seq<Address>)
    ensures NodeMap(c, addresses) == None <==>
      exists name: string :: NamedIn(addresses, name) && !Has(c, "Node", Name("", name))
    ensures NodeMap(c, addresses).Some? ==>
      && (forall name :: name in NodeMap(c, addresses).value <==> NamedIn(addresses, name))
      && forall name <- NodeMap(c, addresses).value ::
           Has(c, "Node", Name("", name)) && NodeMap(c, addresses).value[name] == The(c, "Node", Name("", name))
  {
    if addresses != [] {
      var n := |addresses| - 1;
      var a := addresses[n];
      NodeMapExactly(c, addresses[..n]);
      assert addresses == addresses[..n] + [a];
      forall name: string
        ensures NamedIn(addresses, name) <==> NamedIn(addresses[..n], name) || a.nodeName == Some(name)
      {
      }
      if a.nodeName.Some? {
        GetIsHas(c, "Node", Name("", a.nodeName.value));
      }
    }
  }

  /**
   Nodes fails exactly when a node that an address names is not there; otherwise the result is exactly the nodes that
   some address names, and they are what is recorded.
   */
  lemma NodesExactly(c: Cluster, ctx: Context, e: Obj)
    requires e.Endpoints?
    ensures var a := Asked(c, ctx, OfNodes(e));
      && (a == None <==> exists name: string :: NamesNode(e.subsets, name) && !Has(c, "Node", Name("", name)))
      && (a.Some? ==>
            && a.value.data.Many?
            && (forall o :: o in a.value.data.objs <==>
                  exists name: string ::
                    NamesNode(e.subsets, name) && Has(c, "Node", Name("", name)) && o == The(c, "Node", Name("", name)))
            && (forall r :: r in a.value.noted <==>
                  exists name: string :: NamesNode(e.subsets, name) && r == WatchResource("Node", Name("", name))))
  {
    var addresses := Flat(e.subsets);
    NodeMapExactly(c, addresses);
    forall name: string ensures NamedIn(addresses, name) <==> NamesNode(e.subsets, name) {
      NamedInFlat(e.subsets, name);
    }
    if NodeMap(c, addresses).Some? {
      var m := NodeMap(c, addresses).value;
      forall r: WatchResource
        ensures r in KeysOf(m.Values) <==>
          exists name: string :: NamesNode(e.subsets, name) && r == WatchResource("Node", Name("", name))
      {
        if name: string :| NamesNode(e.subsets, name) && r == WatchResource("Node", Name("", name)) {
          assert name in m && m[name] in m.Values && m[name].Key() == r;
        }
      }
    }
  }

  predicate RefersToPod(a: Address, uid: string) {
    a.target.Some? && a.target.value.kind == "Pod" && a.target.value.uid == uid
  }

  /** Address `j` of subset `i` is the first, in the order of the list, that refers to this Pod uid. */
  ghost predicate FirstRef(subsets: seq<seq<Address>>, i: int, j: int, uid: string) {
    && Within(subsets, i, j) && RefersToPod(subsets[i][j], uid)
    && forall i', j' :: Within(subsets, i', j') && (i' < i || (i' == i && j' < j)) ==>
         !RefersToPod(subsets[i'][j'], uid)
  }

  ghost predicate FirstAt(addresses: seq<Address>, k: int, uid: string) {
    && 0 <= k < |addresses| && RefersToPod(addresses[k], uid)
    && forall l | 0 <= l < k :: !RefersToPod(addresses[l], uid)
  }

  lemma OffsetOrder(subsets: seq<seq<Address>>, i: nat, j: nat, i': nat, j': nat)
    requires Within(subsets, i, j) && Within(subsets, i', j')
    ensures i' < i || (i' == i && j' < j) <==> Offset(subsets, i') + j' < Offset(subsets, i) + j
  {
    if i' < i {
      OffsetGrows(subsets, i' + 1, i);
    } else if i < i' {
      OffsetGrows(subsets, i + 1, i');
    }
  }

  lemma FirstRefIsFirstAt(subsets: seq<seq<Address>>, i: nat, j: nat, uid: string)
    requires Within(subsets, i, j)
    ensures FirstRef(subsets, i, j, uid) <==> FirstAt(Flat(subsets), Offset(subsets, i) + j, uid)
  {
    var flat, k := Flat(subsets), Offset(subsets, i) + j;
    FlatAt(subsets, i, j);
    if FirstRef(subsets, i, j, uid) {
      forall l | 0 <= l < k ensures !RefersToPod(flat[l], uid) {
        var i', j' := FlatFrom(subsets, l);
        OffsetOrder(subsets, i, j, i', j');
      }
    }
    if FirstAt(flat, k, uid) {
      forall i', j' | Within(subsets, i', j') && (i' < i || (i' == i && j' < j))
        ensures !RefersToPod(subsets[i'][j'], uid)
      {
        OffsetOrder(subsets, i, j, i', j');
        FlatAt(subsets, i', j');
      }
    }
  }

  /** The first reference to this Pod uid gives this name. */
  ghost predicate NamesPod(subsets: seq<seq<Address>>, uid: string, name: string) {
    exists i, j :: FirstRef(subsets, i, j, uid) && subsets[i][j].target.value.name == name
  }

  ghost predicate PodIn(addresses: seq<Address>, uid: string, name: string) {
    exists k :: FirstAt(addresses, k, uid) && addresses[k].target.value.name == name
  }

  lemma PodInFlat(subsets: seq<seq<Address>>, uid: string, name: string)
    ensures PodIn(Flat(subsets), uid, name) <==> NamesPod(subsets, uid, name)
  {
    if PodIn(Flat(subsets), uid, name) {
      var k :| FirstAt(Flat(subsets), k, uid) && Flat(subsets)[k].target.value.name == name;
      var i, j := FlatFrom(subsets, k);
      FirstRefIsFirstAt(subsets, i, j, uid);
    }
    if NamesPod(subsets, uid, name) {
      var i, j :| FirstRef(subsets, i, j, uid) && subsets[i][j].target.value.name == name;
      FirstRefIsFirstAt(subsets, i, j, uid);
      FlatAt(subsets, i, j);
    }
  }

  /** The name that the first reference to this Pod uid gives, if there is one. */
  function FirstName(addresses: seq<Address>, uid: string): Option<string> {
    if addresses == [] then None
    else
      var n := |addresses| - 1;
      match FirstName(addresses[..n], uid)
      case Some(name) => Some(name)
      case None => if RefersToPod(addresses[n], uid) then Some(addresses[n].target.value.name) else None
  }

  lemma {:induction false} FirstNameIsFirst(addresses: seq<Address>, uid: string)
    ensures match FirstName(addresses, uid)
      case None => forall k | 0 <= k < |addresses| :: !RefersToPod(addresses[k], uid)
      case Some(name) => exists k :: FirstAt(addresses, k, uid) && addresses[k].target.value.name == name
  {
    if addresses != [] {
      var n := |addresses| - 1;
      FirstNameIsFirst(addresses[..n], uid);
      if FirstName(addresses[..n], uid).Some? {
        var name := FirstName(addresses[..n], uid).value;
        var k :| FirstAt(addresses[..n], k, uid) && addresses[..n][k].target.value.name == name;
        assert FirstAt(addresses, k, uid);
      } else if RefersToPod(addresses[n], uid) {
        forall l | 0 <= l < n ensures !RefersToPod(addresses[l], uid) {
          assert addresses[l] == addresses[..n][l];
        }
        assert FirstAt(addresses, n, uid);
      }
    }
  }

  lemma FirstNameIsPodIn(addresses: seq<Address>, uid: string, name: string)
    ensures FirstName(addresses, uid) == Some(name) <==> PodIn(addresses, uid, name)
  {
    FirstNameIsFirst(addresses, uid);
    if PodIn(addresses, uid, name) {
      var k :| FirstAt(addresses, k, uid) && addresses[k].target.value.name == name;
      if FirstName(addresses, uid).Some? {
        var l :| FirstAt(addresses, l, uid) && addresses[l].target.value.name == FirstName(addresses, uid).value;
        assert !(k < l) && !(l < k);
      }
    }
  }

  /** The map holds, for each uid, the pod that its first reference names. */
  ghost predicate PodsFound(c: Cluster, ns: string, addresses: seq<Address>, m: map<string, Obj>) {
    forall uid: string ::
      match FirstName(addresses, uid)
      case None => uid !in m
      case Some(name) => uid in m && Has(c, "Pod", Name(ns, name)) && m[uid] == The(c, "Pod", Name(ns, name))
  }

  ghost predicate PodMissing(c: Cluster, ns: string, addresses: seq<Address>, uid: string) {
    FirstName(addresses, uid).Some? && !Has(c, "Pod", Name(ns, FirstName(addresses, uid).value))
  }

  lemma FirstNameMore(addresses: seq<Address>, uid: string)
    requires addresses != []
    ensures var n := |addresses| - 1;
      FirstName(addresses, uid) ==
        if FirstName(addresses[..n], uid).Some? then FirstName(addresses[..n], uid)
        else if RefersToPod(addresses[n], uid) then Some(addresses[n].target.value.name) else None
  {
  }

  lemma PodMapMore(c: Cluster, ns: string, addresses: seq<Address>, m: map<string, Obj>)
    requires addresses != [] && PodsFound(c, ns, addresses[..|addresses| - 1], m)
    ensures match WithPod(c, ns, m, addresses[|addresses| - 1])
      case None => exists uid: string :: PodMissing(c, ns, addresses, uid)
      case Some(m') => PodsFound(c, ns, addresses, m')
  {
    var n := |addresses| - 1;
    var a := addresses[n];
    forall uid: string ensures FirstName(addresses, uid) ==
        if FirstName(addresses[..n], uid).Some? then FirstName(addresses[..n], uid)
        else if RefersToPod(a, uid) then Some(a.target.value.name) else None {
      FirstNameMore(addresses, uid);
    }
    if a.target.Some? && a.target.value.kind == "Pod" && a.target.value.uid !in m {
      GetIsHas(c, "Pod", Name(ns, a.target.value.name));
      assert FirstName(addresses, a.target.value.uid) == Some(a.target.value.name);
      if !Has(c, "Pod", Name(ns, a.target.value.name)) {
        assert PodMissing(c, ns, addresses, a.target.value.uid);
      }
    }
  }

  lemma {:induction false} PodMapExactly(c: Cluster, ns: string, addresses: seq<Address>)
    ensures match PodMap(c, ns, addresses)
      case None => exists uid: string :: PodMissing(c, ns, addresses, uid)
      case Some(m) => PodsFound(c, ns, addresses, m)
  {
    if addresses != [] {
      var n := |addresses| - 1;
      PodMapExactly(c, ns, addresses[..n]);
      match PodMap(c, ns, addresses[..n])
      case None =>
        var uid: string :| PodMissing(c, ns, addresses[..n], uid);
        FirstNameMore(addresses, uid);
        assert PodMissing(c, ns, addresses, uid);
      case Some(m) => PodMapMore(c, ns, addresses, m);
    }
  }

  lemma FirstNameNames(subsets: seq<seq<Address>>, uid: string, name: string)
    ensures FirstName(Flat(subsets), uid) == Some(name) <==> NamesPod(subsets, uid, name)
  {
    FirstNameIsPodIn(Flat(subsets), uid, name);
    PodInFlat(subsets, uid, name);
  }

  ghost predicate IsNamedPod(c: Cluster, ns: string, subsets: seq<seq<Address>>, o: Obj) {
    exists uid: string, name: string ::
      NamesPod(subsets, uid, name) && Has(c, "Pod", Name(ns, name)) && o == The(c, "Pod", Name(ns, name))
  }

  lemma PodIsNamed(c: Cluster, ns: string, subsets: seq<seq<Address>>, m: map<string, Obj>, o: Obj)
    requires PodsFound(c, ns, Flat(subsets), m)
    ensures o in m.Values <==> IsNamedPod(c, ns, subsets, o)
  {
    if o in m.Values {
      var uid :| uid in m && m[uid] == o;
      FirstNameNames(subsets, uid, FirstName(Flat(subsets), uid).value);
    }
    if IsNamedPod(c, ns, subsets, o) {
      var uid: string, name: string :|
        NamesPod(subsets, uid, name) && Has(c, "Pod", Name(ns, name)) && o == The(c, "Pod", Name(ns, name));
      FirstNameNames(subsets, uid, name);
      assert m[uid] == o;
    }
  }

  lemma PodIsNoted(c: Cluster, ns: string, subsets: seq<seq<Address>>, m: map<string, Obj>, r: WatchResource)
    requires PodsFound(c, ns, Flat(subsets), m)
    ensures r in KeysOf(m.Values) <==>
      exists uid: string, name: string :: NamesPod(subsets, uid, name) && r == WatchResource("Pod", Name(ns, name))
  {
    if r in KeysOf(m.Values) {
      var o :| o in m.Values && o.Key() == r;
      PodIsNamed(c, ns, subsets, m, o);
    }
    if uid: string, name: string :| NamesPod(subsets, uid, name) && r == WatchResource("Pod", Name(ns, name)) {
      FirstNameNames(subsets, uid, name);
      assert m[uid] in m.Values && m[uid].Key() == r;
    }
  }

  /**
   Pods fails exactly when the pod that the first reference to some uid names is not there; otherwise the result is
   exactly the pods so named, in the namespace of the Endpoints, and they are what is recorded.
   */
  lemma PodsExactly(c: Cluster, ctx: Context, e: Obj)
    requires e.Endpoints?
    ensures var a, ns := Asked(c, ctx, OfPods(e)), e.name.namespace;
      && (a == None <==>
            exists uid: string, name: string :: NamesPod(e.subsets, uid, name) && !Has(c, "Pod", Name(ns, name)))
      && (a.Some? ==>
            && a.value.data.Many?
            && (forall o :: o in a.value.data.objs <==> IsNamedPod(c, ns, e.subsets, o))
            && (forall r :: r in a.value.noted <==>
                  exists uid: string, name: string ::
                    NamesPod(e.subsets, uid, name) && r == WatchResource("Pod", Name(ns, name))))
  {
    var addresses, ns := Flat(e.subsets), e.name.namespace;
    PodMapExactly(c, ns, addresses);
    forall uid: string, name: string
      ensures FirstName(addresses, uid) == Some(name) <==> NamesPod(e.subsets, uid, name) {
      FirstNameNames(e.subsets, uid, name);
    }
    if PodMap(c, ns, addresses).Some? {
      var m := PodMap(c, ns, addresses).value;
      forall o: Obj ensures o in m.Values <==> IsNamedPod(c, ns, e.subsets, o) {
        PodIsNamed(c, ns, e.subsets, m, o);
      }
      forall r: WatchResource
        ensures r in KeysOf(m.Values) <==>
          exists uid: string, name: string ::
            NamesPod(e.subsets, uid, name) && r == WatchResource("Pod", Name(ns, name))
      {
        PodIsNoted(c, ns, e.subsets, m, r);
      }
    } else {
      var uid: string :| PodMissing(c, ns, addresses, uid);
      assert NamesPod(e.subsets, uid, FirstName(addresses, uid).value);
    }
  }

  /** The generator that owns the watcher, with this spec. */
  ghost predicate Owns(c: Cluster, setup: Laws.Setup, spec: GeneratorSpec) {
    && Has(c, setup.generator.kind, setup.generator.name)
    && var g := The(c, setup.generator.kind, setup.generator.name);
       (g.Generator? && g.spec == spec) || (g.ClusterGenerator? && g.spec == spec)
  }

  lemma OwnsIsSpecOf(c: Cluster, setup: Laws.Setup, spec: GeneratorSpec)
    ensures Owns(c, setup, spec) <==> Laws.SpecOf(c, setup) == Some(spec)
  {
    GetIsHas(c, setup.generator.kind, setup.generator.name);
    assert setup.generator == WatchResource(setup.generator.kind, setup.generator.name);
  }

  /** The text is the object's, which is recorded. */
  ghost predicate TextIsOf(c: Cluster, kind: string, name: Name, t: Option<Laws.Rendering>) {
    if Has(c, kind, name) && (The(c, kind, name).Template? || The(c, kind, name).ClusterTemplate?) then
      t == Some(Laws.Rendering(The(c, kind, name).text, {WatchResource(kind, name)}))
    else
      t == None
  }

  /**
   The text to render is the one in the generator's spec, if there is one; else a Generator's reference leads to a
   Template of the watcher's namespace, and a ClusterGenerator's to a ClusterTemplate.
   */
  lemma TextByFields(c: Cluster, setup: Laws.Setup, spec: GeneratorSpec)
    requires Owns(c, setup, spec)
    ensures if spec.template != "" then Laws.Text(c, setup) == Some(Laws.Rendering(spec.template, {}))
      else if spec.templateRef == "" then Laws.Text(c, setup) == None
      else if setup.generator.kind == "Generator" then
        TextIsOf(c, "Template", Name(setup.namespace, spec.templateRef), Laws.Text(c, setup))
      else
        TextIsOf(c, "ClusterTemplate", Name("", spec.templateRef), Laws.Text(c, setup))
  {
    OwnsIsSpecOf(c, setup, spec);
    GetIsHas(c, "Template", Name(setup.namespace, spec.templateRef));
    GetIsHas(c, "ClusterTemplate", Name("", spec.templateRef));
  }

  /**
   The primary object is of the kind the generator's spec names, and is called as the watcher says; Nodes have no
   namespace.
   */
  lemma PrimaryByFields(c: Cluster, setup: Laws.Setup, spec: GeneratorSpec, o: Obj)
    requires Owns(c, setup, spec)
    ensures Laws.Primary(c, setup) == Some(o) <==>
      || (spec.resourceKind == "Ingress" && Has(c, "Ingress", setup.resource) && o == The(c, "Ingress", setup.resource))
      || (spec.resourceKind == "Record" && Has(c, "Record", setup.resource) && o == The(c, "Record", setup.resource))
      || (spec.resourceKind == "Service" && Has(c, "Service", setup.resource) && o == The(c, "Service", setup.resource))
      || (spec.resourceKind == "Node" && Has(c, "Node", Name("", setup.resource.name))
          && o == The(c, "Node", Name("", setup.resource.name)))
  {
    OwnsIsSpecOf(c, setup, spec);
    GetIsHas(c, "Node", Name("", setup.resource.name));
    GetIsHas(c, "Ingress", setup.resource);
    GetIsHas(c, "Record", setup.resource);
    GetIsHas(c, "Service", setup.resource);
  }

  lemma NothingWithoutGenerator(c: Cluster, setup: Laws.Setup)
    requires forall spec :: !Owns(c, setup, spec)
    ensures Laws.Text(c, setup) == None && Laws.Primary(c, setup) == None
  {
    if Laws.SpecOf(c, setup).Some? {
      OwnsIsSpecOf(c, setup, Laws.SpecOf(c, setup).value);
    }
  }
}
