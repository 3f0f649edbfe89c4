/** Dependency tracking is sound: what a rendering recorded is all that a later rendering depends on. */
module TemplateLaws {
  import opened Names
  import opened Templates

  /** A parsed template chooses its next accessor call, or its output, from the answers so far. */
  datatype Move = Ask(q: Query) | Done(out: string) | Fail

  type Program = seq<Data> -> Move

  /**
   What a parsed text becomes once it is given the data it starts from: for Node and Service generators, the primary
   object.
   */
  type Parsed = Option<Obj> -> Program

  /** Where the text comes from. */
  datatype Source = Inline(text: string) | Ref(key: WatchResource)

  /** What does not change about a watcher: its namespace, the name of its resource, and the generator that owns it. */
  datatype Setup = Setup(namespace: string, resource: Name, generator: WatchResource)

  datatype Rendering = Rendering(out: string, noted: set<WatchResource>)

  /** Executing a template, for at most `steps` accessor calls. */
  function Play(c: Cluster, ctx: Context, program: Program, answers: seq<Data>, noted: set<WatchResource>,
        steps: nat): Option<Rendering>
    decreases steps
  {
    match program(answers)
    case Done(out) => Some(Rendering(out, noted))
    case Fail => None
    case Ask(q) =>
      if steps == 0 then None
      else
        match Asked(c, ctx, q)
        case None => None
        case Some(a) => Play(c, ctx, program, answers + [a.data], noted + a.noted, steps - 1)
  }

  /** The generator as it is now; it is read in every reconcile, and never recorded. */
  function SpecOf(c: Cluster, setup: Setup): Option<GeneratorSpec> {
    match c.Get(setup.generator)
    case Some(Generator(_, spec)) => Some(spec)
    case Some(ClusterGenerator(_, spec)) => Some(spec)
    case _ => None
  }

  /** An inline template wins over a reference, which is to a Template of the namespace or to a ClusterTemplate. */
  function SourceOf(setup: Setup, spec: GeneratorSpec): Option<Source> {
    if spec.template != "" then Some(Inline(spec.template))
    else if spec.templateRef == "" then None
    else if setup.generator.kind == "Generator" then Some(Ref(WatchResource("Template",
      Name(setup.namespace, spec.templateRef))))
    else Some(Ref(WatchResource("ClusterTemplate", Name("", spec.templateRef))))
  }

  function PrimaryKey(setup: Setup, spec: GeneratorSpec): Option<WatchResource> {
    if spec.resourceKind in ["Ingress", "Record", "Service"] then Some(WatchResource(spec.resourceKind, setup.resource))
    else if spec.resourceKind == "Node" then Some(NodeKey(setup.resource.name))
    else None
  }

  /** The primary object is the data of the template itself, to be read without an accessor. */
  predicate Bare(o: Obj) {
    o.Node? || o.Service?
  }

  function Given(primary: Obj): Option<Obj> {
    if Bare(primary) then Some(primary) else None
  }

  function Primary(c: Cluster, setup: Setup): Option<Obj> {
    match SpecOf(c, setup)
    case None => None
    case Some(spec) =>
      match PrimaryKey(setup, spec)
      case None => None
      case Some(key) => c.Get(key)
  }

  /** The text of the template; a referenced one is recorded. */
  function Text(c: Cluster, setup: Setup): Option<Rendering> {
    match SpecOf(c, setup)
    case None => None
    case Some(spec) =>
      match SourceOf(setup, spec)
      case None => None
      case Some(Inline(text)) => Some(Rendering(text, {}))
      case Some(Ref(key)) =>
        match c.Get(key)
        case Some(Template(_, text)) => Some(Rendering(text, {key}))
        case Some(ClusterTemplate(_, text)) => Some(Rendering(text, {key}))
        case _ => None
  }

  /** The rendering half of the watcher's Reconcile. */
  function Rendered(c: Cluster, setup: Setup, parse: string -> Option<Parsed>, steps: nat): Option<Rendering> {
    match Primary(c, setup)
    case None => None
    case Some(primary) =>
      match Text(c, setup)
      case None => None
      case Some(t) =>
        match parse(t.out)
        case None => None
        case Some(parsed) => Play(c, Context(setup.namespace, primary), parsed(Given(primary)), [], t.noted, steps)
  }

  ghost predicate Agree(a: Cluster, b: Cluster, keys: set<WatchResource>) {
    forall k <- keys :: a.Get(k) == b.Get(k)
  }

  lemma {:induction false} NodeMapAgrees(a: Cluster, b: Cluster, addresses: seq<Address>)
    requires NodeMap(a, addresses).Some? && Agree(a, b, KeysOf(NodeMap(a, addresses).value.Values))
    ensures NodeMap(b, addresses) == NodeMap(a, addresses)
  {
    if addresses != [] {
      var n := |addresses| - 1;
      var m, m' := NodeMap(a, addresses[..n]).value, NodeMap(a, addresses).value;
      MapGrows(m, m');
      NodeMapAgrees(a, b, addresses[..n]);
      if m' != m {
        assert m'[addresses[n].nodeName.value] in m'.Values;
        assert NodeKey(addresses[n].nodeName.value) in KeysOf(m'.Values);
      }
    }
  }

  lemma {:induction false} PodMapAgrees(a: Cluster, b: Cluster, ns: string, addresses: seq<Address>)
    requires PodMap(a, ns, addresses).Some? && Agree(a, b, KeysOf(PodMap(a, ns, addresses).value.Values))
    ensures PodMap(b, ns, addresses) == PodMap(a, ns, addresses)
  {
    if addresses != [] {
      var n := |addresses| - 1;
      var m, m' := PodMap(a, ns, addresses[..n]).value, PodMap(a, ns, addresses).value;
      MapGrows(m, m');
      PodMapAgrees(a, b, ns, addresses[..n]);
      if m' != m {
        var pod := m'[addresses[n].target.value.uid];
        assert pod in m'.Values;
        assert pod.Key() in KeysOf(m'.Values);
      }
    }
  }

  lemma MapGrows(m: map<string, Obj>, m': map<string, Obj>)
    requires forall k <- m :: k in m' && m'[k] == m[k]
    ensures m.Values <= m'.Values && KeysOf(m.Values) <= KeysOf(m'.Values)
  {
    forall o | o in m.Values ensures o in m'.Values {
      var k :| k in m && m[k] == o;
      assert m'[k] == o;
    }
  }

  /** One accessor answers alike on clusters that agree on what it recorded; the primary object is one of those. */
  lemma AskedAgrees(a: Cluster, b: Cluster, ctx: Context, q: Query)
    requires Asked(a, ctx, q).Some? && Agree(a, b, Asked(a, ctx, q).value.noted)
    ensures Asked(b, ctx, q) == Asked(a, ctx, q)
  {
    match q
    case OfNodes(e) => NodeMapAgrees(a, b, Flat(e.subsets));
    case OfPods(e) => PodMapAgrees(a, b, e.name.namespace, Flat(e.subsets));
    case _ =>
  }

  /**
   Two contexts that differ in the primary object only, whose content in `b` is the one asked for if it is asked
   for.
   */
  lemma PrimaryAgrees(a: Cluster, b: Cluster, ctx: Context, ctx': Context, q: Query)
    requires Asked(a, ctx, q).Some? && Agree(a, b, Asked(a, ctx, q).value.noted)
    requires ctx'.namespace == ctx.namespace && a.Get(ctx.primary.Key()) == Some(ctx.primary)
      && b.Get(ctx.primary.Key()) == Some(ctx'.primary)
    ensures Asked(b, ctx', q) == Asked(a, ctx, q)
  {
    AskedAgrees(a, b, ctx, q);
  }

  lemma {:induction false} PlayNotes(c: Cluster, ctx: Context, program: Program, answers: seq<Data>,
        noted: set<WatchResource>, steps: nat)
    requires Play(c, ctx, program, answers, noted, steps).Some?
    ensures noted <= Play(c, ctx, program, answers, noted, steps).value.noted
    decreases steps
  {
    if program(answers).Ask? {
      var a := Asked(c, ctx, program(answers).q).value;
      PlayNotes(c, ctx, program, answers + [a.data], noted + a.noted, steps - 1);
    }
  }

  lemma {:induction false} PlayAgrees(a: Cluster, b: Cluster, ctx: Context, ctx': Context, program: Program,
      answers: seq<Data>, noted: set<WatchResource>, steps: nat)
    requires Play(a, ctx, program, answers, noted, steps).Some?
    requires Agree(a, b, Play(a, ctx, program, answers, noted, steps).value.noted)
    requires ctx'.namespace == ctx.namespace && a.Get(ctx.primary.Key()) == Some(ctx.primary)
      && b.Get(ctx.primary.Key()) == Some(ctx'.primary)
    ensures Play(b, ctx', program, answers, noted, steps) == Play(a, ctx, program, answers, noted, steps)
    decreases steps
  {
    if program(answers).Ask? {
      var q := program(answers).q;
      var x := Asked(a, ctx, q).value;
      PlayNotes(a, ctx, program, answers + [x.data], noted + x.noted, steps - 1);
      PrimaryAgrees(a, b, ctx, ctx', q);
      PlayAgrees(a, b, ctx, ctx', program, answers + [x.data], noted + x.noted, steps - 1);
    }
  }

  /** The generator still gives the same kind and the same source. */
  predicate SameGenerator(a: Cluster, b: Cluster, setup: Setup) {
    match (SpecOf(a, setup), SpecOf(b, setup))
    case (Some(x), Some(y)) => x.resourceKind == y.resourceKind && SourceOf(setup, x) == SourceOf(setup, y)
    case _ => false
  }

  /** Nothing moved that a rendering depends on and does not record. */
  predicate Unmoved(a: Cluster, b: Cluster, setup: Setup) {
    && SameGenerator(a, b, setup) && Primary(b, setup).Some?
    && (Primary(a, setup).Some? && Bare(Primary(a, setup).value) ==> Primary(b, setup) == Primary(a, setup))
  }

  lemma PrimaryIsBare(c: Cluster, setup: Setup)
    requires Primary(c, setup).Some?
    ensures SpecOf(c, setup).Some? && PrimaryKey(setup, SpecOf(c, setup).value) == Some(Primary(c, setup).value.Key())
    ensures c.Get(Primary(c, setup).value.Key()) == Primary(c, setup)
    ensures Primary(c, setup).value.Kind() == SpecOf(c, setup).value.resourceKind
    ensures Bare(Primary(c, setup).value) <==> SpecOf(c, setup).value.resourceKind in ["Node", "Service"]
  {
    var o := Primary(c, setup).value;
    assert o.Kind() == SpecOf(c, setup).value.resourceKind;
  }

  lemma SameText(a: Cluster, b: Cluster, setup: Setup)
    requires Text(a, setup).Some? && SameGenerator(a, b, setup) && Agree(a, b, Text(a, setup).value.noted)
    ensures Text(b, setup) == Text(a, setup)
  {
  }

  /**
   After a successful rendering, any later cluster that agrees on every recorded object renders the same output and
   records the same objects, if the generator still gives the same kind and source and the primary object still
   exists, unchanged where the template reads it without an accessor. With an accessor the primary has to exist,
     no more.
   */
  lemma TrackingIsSound(a: Cluster, b: Cluster, setup: Setup, parse: string -> Option<Parsed>, steps: nat)
    requires Rendered(a, setup, parse, steps).Some?
    requires Agree(a, b, Rendered(a, setup, parse, steps).value.noted)
    ensures Unmoved(a, b, setup) ==> Rendered(b, setup, parse, steps) == Rendered(a, setup, parse, steps)
    ensures SameGenerator(a, b, setup) && !Bare(Primary(a, setup).value) ==>
      (Rendered(b, setup, parse, steps) == Rendered(a, setup, parse, steps) <==> Primary(b, setup).Some?)
  {
    var t, primary := Text(a, setup).value, Primary(a, setup).value;
    var ctx, program := Context(setup.namespace, primary), parse(t.out).value(Given(primary));
    PlayNotes(a, ctx, program, [], t.noted, steps);
    PrimaryIsBare(a, setup);
    if SameGenerator(a, b, setup) {
      SameText(a, b, setup);
    }
    if Unmoved(a, b, setup) {
      PrimaryIsBare(b, setup);
      var ctx' := Context(setup.namespace, Primary(b, setup).value);
      assert Given(ctx'.primary) == Given(primary);
      PlayAgrees(a, b, ctx, ctx', program, [], t.noted, steps);
    }
  }

  /** A rendering can be made, up to what the template does. */
  predicate Renderable(c: Cluster, setup: Setup) {
    Primary(c, setup).Some? && Text(c, setup).Some?
  }

  /**
   Tracking is sound from `a` to `b`: whatever the template, a change of the rendering comes with a change of a
   recorded object.
   */
  ghost predicate Tracked(a: Cluster, b: Cluster, setup: Setup) {
    forall parse: string -> Option<Parsed>, steps: nat ::
      Rendered(a, setup, parse, steps).Some? && Agree(a, b, Rendered(a, setup, parse, steps).value.noted) ==>
        Rendered(b, setup, parse, steps) == Rendered(a, setup, parse, steps)
  }

  /** Templates that print what the parser knows: their text, the data they are given, the primary object. */
  function PrintText(): string -> Option<Parsed> {
    text => Some((given: Option<Obj>) => (answers: seq<Data>) => Done(text))
  }

  function PrintGiven(o: Obj): string -> Option<Parsed> {
    text => Some((given: Option<Obj>) => (answers: seq<Data>) => Done(if given == Some(o) then "yes" else "no"))
  }

  function PrintPrimary(o: Obj): string -> Option<Parsed> {
    text => Some((given: Option<Obj>) => (answers: seq<Data>) =>
      if answers == [] then Ask(OfPrimary) else Done(if answers == [One(o)] then "yes" else "no"))
  }

  /**
   The generator moved from one kind with an accessor to the other while the object it left changed as well: no
   template can tell unnoticed.
   */
  predicate Displaced(a: Cluster, b: Cluster, setup: Setup)
    requires Renderable(a, setup)
  {
    var x := Primary(a, setup).value;
    && Text(b, setup) == Text(a, setup) && Primary(b, setup).Some?
    && !Bare(x) && !Bare(Primary(b, setup).value) && b.Get(x.Key()) != Some(x)
  }

  lemma TextDiffers(a: Cluster, b: Cluster, setup: Setup)
    requires Renderable(a, setup) && Agree(a, b, Text(a, setup).value.noted)
      && (Text(b, setup) != Text(a, setup) || Primary(b, setup) == None)
    ensures !Tracked(a, b, setup)
  {
    assert Rendered(a, setup, PrintText(), 0) == Text(a, setup);
    assert Rendered(b, setup, PrintText(), 0) != Text(a, setup);
  }

  lemma GivenDiffers(a: Cluster, b: Cluster, setup: Setup)
    requires Renderable(a, setup) && Agree(a, b, Text(a, setup).value.noted) && Text(b, setup) == Text(a, setup)
      && Primary(b, setup).Some?
    requires Given(Primary(a, setup).value) != Given(Primary(b, setup).value)
    ensures !Tracked(a, b, setup)
  {
    var x, y := Primary(a, setup).value, Primary(b, setup).value;
    var t := Text(a, setup).value;
    var o := if Bare(x) then x else y;
    var yes, no := Rendering("yes", t.noted), Rendering("no", t.noted);
    assert Rendered(a, setup, PrintGiven(o), 0) == Some(if Bare(x) then yes else no);
    assert Rendered(b, setup, PrintGiven(o), 0) == Some(if Bare(x) then no else yes);
    assert "yes"[0] != "no"[0];
  }

  lemma PrimaryDiffers(a: Cluster, b: Cluster, setup: Setup)
    requires Renderable(a, setup) && Agree(a, b, Text(a, setup).value.noted) && Text(b, setup) == Text(a, setup)
      && Primary(b, setup).Some?
    requires !Bare(Primary(a, setup).value) && !Bare(Primary(b, setup).value)
    requires b.Get(Primary(a, setup).value.Key()) == Primary(a, setup) != Primary(b, setup)
    ensures !Tracked(a, b, setup)
  {
    PrimaryIsBare(a, setup);
    PrimaryIsBare(b, setup);
    var x, y, t := Primary(a, setup).value, Primary(b, setup).value, Text(a, setup).value;
    assert [One(x)] + [] == [One(x)] && [] + [One(x)] == [One(x)] && [] + [One(y)] == [One(y)];
    assert [One(x)][0] != [One(y)][0];
    var parse := PrintPrimary(x);
    assert Asked(a, Context(setup.namespace, x), OfPrimary).Some?
      && Asked(b, Context(setup.namespace, y), OfPrimary).Some?;
    assert Rendered(a, setup, parse, 1) == Some(Rendering("yes", t.noted + {x.Key()}));
    assert Rendered(b, setup, parse, 1) == Some(Rendering("no", t.noted + {y.Key()}));
    assert "yes"[0] != "no"[0];
  }

  lemma UnmovedIsTracked(a: Cluster, b: Cluster, setup: Setup)
    requires Unmoved(a, b, setup)
    ensures Tracked(a, b, setup)
  {
    forall parse: string -> Option<Parsed>, steps: nat
      | Rendered(a, setup, parse, steps).Some? && Agree(a, b, Rendered(a, setup, parse, steps).value.noted)
      ensures Rendered(b, setup, parse, steps) == Rendered(a, setup, parse, steps)
    {
      TrackingIsSound(a, b, setup, parse, steps);
    }
  }

  /** A rendering that did not record its primary object did not ask for it. */
  lemma {:induction false} PlayWithoutPrimary(a: Cluster, b: Cluster, ctx: Context, ctx': Context, program: Program,
      answers: seq<Data>, noted: set<WatchResource>, steps: nat)
    requires Play(a, ctx, program, answers, noted, steps).Some?
    requires Agree(a, b, Play(a, ctx, program, answers, noted, steps).value.noted)
    requires ctx'.namespace == ctx.namespace && ctx.primary.Key() !in Play(a, ctx, program, answers, noted,
      steps).value.noted
    ensures Play(b, ctx', program, answers, noted, steps) == Play(a, ctx, program, answers, noted, steps)
    decreases steps
  {
    if program(answers).Ask? {
      var q := program(answers).q;
      var x := Asked(a, ctx, q).value;
      PlayNotes(a, ctx, program, answers + [x.data], noted + x.noted, steps - 1);
      AskedAgrees(a, b, ctx, q);
      assert q != OfPrimary;
      PlayWithoutPrimary(a, b, ctx, ctx', program, answers + [x.data], noted + x.noted, steps - 1);
    }
  }

  lemma DisplacedIsTracked(a: Cluster, b: Cluster, setup: Setup)
    requires Renderable(a, setup) && Displaced(a, b, setup)
    ensures Tracked(a, b, setup)
  {
    PrimaryIsBare(a, setup);
    var x, y, t := Primary(a, setup).value, Primary(b, setup).value, Text(a, setup).value;
    forall parse: string -> Option<Parsed>, steps: nat
      | Rendered(a, setup, parse, steps).Some? && Agree(a, b, Rendered(a, setup, parse, steps).value.noted)
      ensures Rendered(b, setup, parse, steps) == Rendered(a, setup, parse, steps)
    {
      var program := parse(t.out).value(None);
      PlayWithoutPrimary(a, b, Context(setup.namespace, x), Context(setup.namespace, y), program, [], t.noted, steps);
    }
  }

  lemma SameSource(a: Cluster, b: Cluster, setup: Setup)
    requires Text(a, setup).Some? && Text(b, setup) == Text(a, setup)
    ensures SourceOf(setup, SpecOf(b, setup).value) == SourceOf(setup, SpecOf(a, setup).value)
  {
    var x, y := SourceOf(setup, SpecOf(a, setup).value).value, SourceOf(setup, SpecOf(b, setup).value).value;
    if x.Ref? && y.Ref? {
      assert x.key in Text(a, setup).value.noted && x.key in Text(b, setup).value.noted;
    }
  }

  /**
   When tracking is sound, over all templates: exactly if the generator still gives the same kind and source and the
   primary object exists, unchanged for Node and Service generators. The one exception is a generator that moved
   between Ingress and Record while the object it left changed as well. A changed template object is always noticed.
   */
  lemma TrackingExactly(a: Cluster, b: Cluster, setup: Setup)
    requires Renderable(a, setup) && Agree(a, b, Text(a, setup).value.noted)
    ensures Tracked(a, b, setup) <==> Unmoved(a, b, setup) || Displaced(a, b, setup)
  {
    PrimaryIsBare(a, setup);
    if Unmoved(a, b, setup) {
      UnmovedIsTracked(a, b, setup);
    } else if Text(b, setup) != Text(a, setup) || Primary(b, setup) == None {
      TextDiffers(a, b, setup);
    } else {
      PrimaryIsBare(b, setup);
      if Given(Primary(a, setup).value) != Given(Primary(b, setup).value) {
        GivenDiffers(a, b, setup);
      } else if Displaced(a, b, setup) {
        DisplacedIsTracked(a, b, setup);
      } else {
        SameSource(a, b, setup);
        PrimaryDiffers(a, b, setup);
      }
    }
  }

  /**
   So when a rendering would now differ, either some recorded object changed, and looking it up in the resources index
   finds the watcher, or the generator or the primary object moved as no record can tell.
   */
  lemma ChangeIsNoticed(a: Cluster, b: Cluster, setup: Setup, parse: string -> Option<Parsed>, steps: nat,
        recorded: seq<WatchResource>)
    returns (k: Option<WatchResource>)
    requires Rendered(a, setup, parse, steps).Some?
    requires forall r :: r in recorded <==> r in Rendered(a, setup, parse, steps).value.noted
    requires forall r <- recorded :: r.SlashFree()
    requires Rendered(b, setup, parse, steps) != Rendered(a, setup, parse, steps)
    ensures k.Some? ==> k.value in recorded && a.Get(k.value) != b.Get(k.value) && k.value.Key() in WatchKeys(recorded)
    ensures k == None ==> !Unmoved(a, b, setup)
  {
    k := None;
    var noted := Rendered(a, setup, parse, steps).value.noted;
    if r :| r in noted && a.Get(r) != b.Get(r) {
      WatchIndexIsScan(recorded, r);
      k := Some(r);
    } else {
      TrackingIsSound(a, b, setup, parse, steps);
    }
  }

  /** An edit of an inline template: the rendering would differ, and every recorded object is as it was. */
  lemma EditedTemplateIsUnnoticed(ns: string, x: string, y: string, rest: string)
    requires x != "" && y != "" && x != y
    ensures var setup := Setup(ns, Name(ns, "app"), WatchResource("Generator", Name(ns, "gen")));
      var ingress := Ingress(Name(ns, "app"), [], rest);
      var a := Cluster(map[ingress.Key() := ingress, setup.generator :=
        Generator(Name(ns, "gen"), GeneratorSpec("Ingress", x, ""))]);
      var b := Cluster(map[ingress.Key() := ingress, setup.generator :=
        Generator(Name(ns, "gen"), GeneratorSpec("Ingress", y, ""))]);
      && Rendered(a, setup, PrintText(), 0) == Some(Rendering(x, {})) && Agree(a, b, {})
      && Rendered(b, setup, PrintText(), 0) == Some(Rendering(y, {}))
  {
  }

  /** A change of the object behind a Node generator, to a template that prints what it is given. */
  lemma BarePrimaryIsUnnoticed(node: string, x: string, y: string)
    requires x != y
    ensures var setup := Setup("", Name("", node), WatchResource("ClusterGenerator", Name("", "gen")));
      var gen := ClusterGenerator(Name("", "gen"), GeneratorSpec("Node", "text", ""));
      var was, now := Node(Name("", node), x), Node(Name("", node), y);
      var a, b := Cluster(map[gen.Key() := gen, was.Key() := was]), Cluster(map[gen.Key() := gen, now.Key() := now]);
      && Rendered(a, setup, PrintGiven(was), 0) == Some(Rendering("yes", {})) && Agree(a, b, {})
      && Rendered(b, setup, PrintGiven(was), 0) == Some(Rendering("no", {}))
  {
  }
}
