/**
 The Record/Provider lifecycle as a transition system over API objects, the in-memory provider cache, and
 the external zones. Each reconcile is one atomic step.
 */
module Protocol {
  import opened Api
  import opened Domains
  import opened Names
  import opened RecordSync
  import Laws = RecordLaws

  datatype RecordObj = RecordObj(meta: Meta, labels: map<string, string>, spec: RecordSpec, statuses: seq<Status>)

  datatype ProviderObj = ProviderObj(meta: Meta, spec: ProviderSpec)

  /** `zones` holds, for each zone a provider can point to, the live entries that the controller created or adopted. */
  datatype World = World(
    records: map<Name, RecordObj>, providers: map<Name, ProviderObj>,
    cache: map<nat, Cached>, zones: map<string, set<string>>, nextUid: nat)
  {
    function ZoneOf(target: string): set<string> {
      if target in zones then zones[target] else {}
    }
  }

  const INITIAL := World(map[], map[], map[], map[], 0)

  /**
   The outcome of a backend call: what the payload holds afterwards, and the entries it added to and took from the
   zone.
   */
  datatype Reply = Reply(answer: Answer, gained: set<string>, gone: set<string>)

  datatype Step =
    | CreateRecord(key: Name, labels: map<string, string>, spec: RecordSpec, finalizers: seq<string>)
    | EditRecord(key: Name, labels: map<string, string>, spec: RecordSpec, finalizers: seq<string>)
    | DeleteRecord(key: Name)
    | CreateProvider(key: Name, config: ProviderSpec, finalizers: seq<string>)
    | EditProvider(key: Name, config: ProviderSpec, finalizers: seq<string>)
    | DeleteProvider(key: Name)
    | ReconcileRecord(key: Name, order: seq<Name>, failures: map<Name, string>, replies: map<Name, Reply>,
      written: bool)
    | ReconcileProvider(key: Name, built: bool, written: bool)
    | Restart
    | EntriesVanish

  predicate Selects(p: ProviderSpec, r: RecordObj) {
    SelectsDomain(p.domain, r.spec.name) && SelectorMatches(p.selector, r.labels)
  }

  /** Records meet the providers of their own namespace and the cluster-scoped ones. */
  predicate InReach(record: Name, provider: Name) {
    provider.namespace == "" || provider.namespace == record.namespace
  }

  function ViewOf(w: World, r: RecordObj, key: Name): ProviderView
    requires key in w.providers
  {
    var p := w.providers[key];
    ProviderView(key, p.meta.uid, p.meta.generation, p.meta.deleting, if Selects(p.spec, r) then Selected
      else NotSelected)
  }

  ghost predicate Lists(w: World, record: Name, order: seq<Name>) {
    && (forall i, j :: 0 <= i < j < |order| ==> order[i] != order[j])
    && (forall key :: key in order <==> key in w.providers && InReach(record, key))
  }

  function FetchIn(w: World, failures: map<Name, string>, key: Name): Fetch {
    if key in failures then Failed(failures[key])
    else if key in w.providers then Found(w.providers[key].meta.uid, w.providers[key].meta.generation)
    else Missing
  }

  /** What a Record reconcile sees of the world. */
  function EnvOf(w: World, s: Step): Env
    requires s.ReconcileRecord? && s.key in w.records && forall k <- s.order :: k in w.providers
  {
    var r := w.records[s.key];
    Env(r.meta.deleting,
        seq(|s.order|, i requires 0 <= i < |s.order| => ViewOf(w, r, s.order[i])),
        w.cache,
        map k | k in w.providers.Keys + s.failures.Keys :: FetchIn(w, s.failures, k),
        map k | k in s.replies :: s.replies[k].answer)
  }

  /** The zone a call at this key reaches: the one its cached backend was built for. */
  function CallTarget(w: World, key: Name): string {
    if key in w.providers && w.providers[key].meta.uid in w.cache then w.cache[w.providers[key].meta.uid].spec.target
      else ""
  }

  /**
   What the controller relies on: an entry appears only under the id the payload is left with, the entry an
   id named is gone when the payload is left with another id, a Delete that returns nil clears the id, and
   error texts are not empty.
   */
  ghost predicate CallSafe(c: Call, reply: Reply) {
    var a := reply.answer;
    && reply.gained <= {a.id} && "" !in reply.gained
    && (c.id != "" && a.id != c.id ==> c.id in reply.gone)
    && (c.op == Delete && a.ok ==> a.id == "")
    && (!a.ok ==> a.error != "")
  }

  /** `replies` answers the call of each provider that gets one, as the backends promise. */
  ghost predicate Answered(env: Env, ss: seq<Status>, replies: map<Name, Reply>) {
    forall key {:trigger CallAt(env, key, ss)} :: CallAt(env, key, ss).Some? ==>
      key in replies && CallSafe(CallAt(env, key, ss).value, replies[key])
  }

  function CallAt(env: Env, key: Name, ss: seq<Status>): Option<Call> {
    Laws.CallAt(env, key, ss)
  }

  ghost predicate Calls(w: World, env: Env, ss: seq<Status>, key: Name, target: string) {
    CallAt(env, key, ss).Some? && CallTarget(w, key) == target
  }

  /** Zones change only by the calls; entries may also vanish by other hands at any time. */
  ghost predicate ZonesFollow(w: World, env: Env, ss: seq<Status>, replies: map<Name, Reply>, zones: map<string,
        set<string>>) {
    forall target <- zones, id <- zones[target] ::
      || (id in w.ZoneOf(target) && forall key {:trigger Calls(w, env, ss, key, target)} ::
            Calls(w, env, ss, key, target) && key in replies ==> id !in replies[key].gone)
      || (exists key {:trigger Calls(w, env, ss, key, target)} ::
            Calls(w, env, ss, key, target) && key in replies && id in replies[key].gained)
  }

  /** An object marked for deletion disappears with its last finalizer. */
  function PutRecord(w: World, key: Name, r: RecordObj): World {
    if r.meta.deleting && r.meta.finalizers == [] then w.(records := w.records - {key})
      else w.(records := w.records[key := r])
  }

  function PutProvider(w: World, key: Name, p: ProviderObj): World {
    if p.meta.deleting && p.meta.finalizers == [] then w.(providers := w.providers - {key})
      else w.(providers := w.providers[key := p])
  }

  /** A spec change moves the generation on; finalizers are replaced. */
  function Edited(meta: Meta, changed: bool, finalizers: seq<string>): Meta {
    meta.(finalizers := finalizers, generation := if changed then meta.generation + 1 else meta.generation)
  }

  function Mark(meta: Meta): Meta {
    if meta.deleting then meta else meta.(deleting := true, generation := meta.generation + 1)
  }

  predicate HoldsId(r: RecordObj, key: Name) {
    exists s <- r.statuses :: s.key == key && s.id != ""
  }

  /** The scan that keeps a deleted Provider's finalizer. */
  ghost predicate Busy(w: World, key: Name) {
    exists record <- w.records :: (key.namespace == "" || record.namespace == key.namespace)
      && HoldsId(w.records[record], key)
  }

  /**
   A status write stores the new ledger; the finalizer goes when a deleted record has nothing left to complain
   about.
   */
  function AfterReconcile(env: Env, r: RecordObj, written: bool): RecordObj {
    var ss := Reconciled(env, r.statuses);
    var fs := if r.meta.deleting && written && Complaints(ss) == [] then RemoveFinalizer(r.meta.finalizers)
      else r.meta.finalizers;
    r.(statuses := ss, meta := r.meta.(finalizers := fs))
  }

  function AfterProvider(p: ProviderObj, busy: bool, written: bool): ProviderObj {
    if FINALIZER !in p.meta.finalizers then
      if p.meta.deleting || !written then p else p.(meta := p.meta.(finalizers := AddFinalizer(p.meta.finalizers)))
    else if p.meta.deleting && !busy && written then
      p.(meta := p.meta.(finalizers := RemoveFinalizer(p.meta.finalizers)))
    else p
  }

  /** Whether a provider reconcile stores a freshly built backend. */
  predicate Rebuilds(p: ProviderObj, cache: map<nat, Cached>, busy: bool, built: bool) {
    && FINALIZER in p.meta.finalizers && built
    && (p.meta.deleting ==> busy && !(p.meta.uid in cache && cache[p.meta.uid].generation == p.meta.generation))
  }

  function CacheAfter(p: ProviderObj, cache: map<nat, Cached>, busy: bool, built: bool): map<nat, Cached> {
    if Rebuilds(p, cache, busy, built) then cache[p.meta.uid := Cached(p.meta.generation, p.spec)] else cache
  }

  ghost predicate Enabled(w: World, s: Step) {
    match s
    case CreateRecord(key, _, _, _) => key !in w.records
    case EditRecord(key, _, _, fs) =>
      key in w.records && (FINALIZER in w.records[key].meta.finalizers ==> FINALIZER in fs)
    case DeleteRecord(key) => key in w.records
    case CreateProvider(key, _, _) => key !in w.providers
    case EditProvider(key, config, fs) =>
      && key in w.providers && (FINALIZER in w.providers[key].meta.finalizers ==> FINALIZER in fs)
      && (config.target == w.providers[key].spec.target || !Busy(w, key))
    case DeleteProvider(key) => key in w.providers
    case ReconcileRecord(key, order, failures, replies, _) =>
      && key in w.records && Lists(w, key, order) && (forall f <- failures :: failures[f] != "")
      && Answered(EnvOf(w, s), w.records[key].statuses, replies)
    case ReconcileProvider(key, _, _) => key in w.providers
    case Restart => true
    case EntriesVanish => true
  }

  /** A reconcile of a record that bears the finalizer, before it is known how the calls will be answered. */
  ghost predicate Planned(w: World, s: Step) {
    && s.ReconcileRecord? && s.key in w.records && FINALIZER in w.records[s.key].meta.finalizers
    && Lists(w, s.key, s.order) && (forall k <- s.failures :: s.failures[k] != "")
  }

  ghost predicate Takes(w: World, s: Step, w': World) {
    Enabled(w, s) &&
    match s
    case CreateRecord(key, labels, spec, fs) =>
      w' == PutRecord(w.(nextUid := w.nextUid + 1), key, RecordObj(Meta(w.nextUid, 1, false, fs), labels, spec, []))
    case EditRecord(key, labels, spec, fs) =>
      var r := w.records[key];
      w' == PutRecord(w, key, RecordObj(Edited(r.meta, spec != r.spec, fs), labels, spec, r.statuses))
    case DeleteRecord(key) =>
      w' == PutRecord(w, key, w.records[key].(meta := Mark(w.records[key].meta)))
    case CreateProvider(key, config, fs) =>
      w' == PutProvider(w.(nextUid := w.nextUid + 1), key, ProviderObj(Meta(w.nextUid, 1, false, fs), config))
    case EditProvider(key, config, fs) =>
      var p := w.providers[key];
      w' == PutProvider(w, key, ProviderObj(Edited(p.meta, config != p.spec, fs), config))
    case DeleteProvider(key) =>
      w' == PutProvider(w, key, w.providers[key].(meta := Mark(w.providers[key].meta)))
    case ReconcileRecord(_, _, _, _, _) => TakesReconcile(w, s, w')
    case ReconcileProvider(key, built, written) =>
      var p := w.providers[key];
      w' == PutProvider(w.(cache := CacheAfter(p, w.cache, Busy(w, key), built)), key,
        AfterProvider(p, Busy(w, key), written))
    case Restart => w' == w.(cache := map[])
    case EntriesVanish =>
      w' == w.(zones := w'.zones) && forall target <- w'.zones :: w'.zones[target] <= w.ZoneOf(target)
  }

  ghost predicate TakesReconcile(w: World, s: Step, w': World)
    requires s.ReconcileRecord? && s.key in w.records && Lists(w, s.key, s.order)
  {
    var r := w.records[s.key];
    if FINALIZER !in r.meta.finalizers then
      w' == if r.meta.deleting || !s.written then w
            else PutRecord(w, s.key, r.(meta := r.meta.(finalizers := AddFinalizer(r.meta.finalizers))))
    else
      var env := EnvOf(w, s);
      && ZonesFollow(w, env, r.statuses, s.replies, w'.zones)
      && w' == PutRecord(w, s.key, AfterReconcile(env, r, s.written)).(zones := w'.zones)
  }
}
