/** From a live record's spec to the entry in the zone, through a whole reconcile over real zones. */
module Publishing {
  import opened Api
  import opened Domains
  import opened Names
  import opened RecordSync
  import opened Protocol
  import opened Contract
  import opened LiveZones
  import AdGuard
  import AliDns
  import Cloudflare
  import Json
  import Laws = RecordLaws
  import Safety = ProtocolSafety

  /**
   The zone holds, under this id, an entry with the name, type and value of the spec; AdGuard rewrites have no type.
   */
  ghost predicate Publishes(site: Site, id: string, spec: RecordSpec) {
    match site
    case AtCloudflare(entries) =>
      && id in entries && entries[id].name == spec.name
      && entries[id].rtype == spec.rtype && entries[id].value == spec.value
    case AtAliDns(domain, records) =>
      && id in records && records[id].rr == RelativeName(domain, spec.name)
      && records[id].rtype == spec.rtype && records[id].value == spec.value && records[id].line == LineOf(spec)
    case AtAdGuard(rewrites) =>
      id == Json.Encode(Json.Rewrite(spec.name, spec.value)) && Json.Rewrite(spec.name, spec.value) in rewrites
    case AtJobs(_, _) => false
  }

  function LineOf(spec: RecordSpec): string {
    if "dns.xzzpig.com/alidns/line" in spec.extra then spec.extra["dns.xzzpig.com/alidns/line"] else ""
  }

  ghost predicate CloudflareTwin(entries: map<string, Cloudflare.Entry>, spec: RecordSpec) {
    exists q <- entries ::
      q != "" && entries[q].name == spec.name && entries[q].rtype == spec.rtype && entries[q].value == spec.value
  }

  ghost predicate AliDnsTwin(domain: string, records: map<string, AliDns.Entry>, spec: RecordSpec, except: string) {
    exists q <- records :: q != except && Publishes(AtAliDns(domain, records), q, spec)
  }

  /**
   A nil answer that does not leave the spec in the zone. Cloudflare: a duplicate was refused and gone when it was to
   be adopted. AliDNS: another entry was in the way of an update, or the search adopted a stranger. AdGuard: the id
   already spelled the spec and the zone had lost it.
   */
  ghost predicate FallsShort(site: Site, c: Call, spec: RecordSpec, x: Weather) {
    match site
    case AtCloudflare(entries) =>
      c.id !in entries && CloudflareTwin(entries, spec) && x.adopt && x.cloudflare.hit == None
    case AtAliDns(domain, records) =>
      if c.id in records then AliDnsTwin(domain, records, spec, c.id) && !Publishes(site, c.id, spec)
      else AliDnsTwin(domain, records, spec, "") && (x.alidns.hit.Some? ==> !Publishes(site, x.alidns.hit.value, spec))
    case AtAdGuard(rewrites) =>
      Json.Decode(c.id) == Some(Json.Rewrite(spec.name, spec.value)) && c.op == Update && !Publishes(site, c.id, spec)
    case AtJobs(_, _) => true
  }

  lemma CloudflareTwinIsTaken(entries: map<string, Cloudflare.Entry>, spec: RecordSpec)
    ensures CloudflareTwin(entries, spec) <==> Cloudflare.Taken(entries, Cloudflare.Wanted(spec), "")
  {
  }

  lemma AliDnsTwinIsTaken(domain: string, records: map<string, AliDns.Entry>, spec: RecordSpec, except: string)
    ensures AliDnsTwin(domain, records, spec, except) <==> AliDns.Taken(records, AliDns.Wanted(domain, spec), except)
  {
    forall q | q in records
      ensures Publishes(AtAliDns(domain, records), q, spec) <==> records[q].Same(AliDns.Wanted(domain, spec))
    {
    }
    if AliDns.Taken(records, AliDns.Wanted(domain, spec), except) {
      var q :| q in records && q != except && records[q].Same(AliDns.Wanted(domain, spec));
      assert Publishes(AtAliDns(domain, records), q, spec);
    }
  }

  lemma CloudflarePublishes(entries: map<string, Cloudflare.Entry>, c: Call, spec: RecordSpec, x: Weather)
    requires Fair(AtCloudflare(entries), c, spec, x) && Invited(c.op, c.id) && c.op != Delete
    requires Served(AtCloudflare(entries), c, spec, x).1.ok
    ensures var (site', a) := Served(AtCloudflare(entries), c, spec, x);
      Publishes(site', a.id, spec) <==> !FallsShort(AtCloudflare(entries), c, spec, x)
  {
    CloudflareTwinIsTaken(entries, spec);
  }

  lemma AliDnsPublishes(domain: string, records: map<string, AliDns.Entry>, c: Call, spec: RecordSpec, x: Weather)
    requires Fair(AtAliDns(domain, records), c, spec, x) && Invited(c.op, c.id) && c.op != Delete
    requires Served(AtAliDns(domain, records), c, spec, x).1.ok
    ensures var (site', a) := Served(AtAliDns(domain, records), c, spec, x);
      Publishes(site', a.id, spec) <==> !FallsShort(AtAliDns(domain, records), c, spec, x)
  {
    AliDnsTwinIsTaken(domain, records, spec, "");
    AliDnsTwinIsTaken(domain, records, spec, c.id);
    AliDns.SuccessIsWantedExactly(
      AliDns.State(c.id, c.data, records), c.op, AliDns.Wanted(domain, spec), x.alidns);
    AliDns.OutcomeIsExact(AliDns.State(c.id, c.data, records), c.op, AliDns.Wanted(domain, spec), x.alidns);
  }

  lemma AdGuardPublishes(rewrites: set<Json.Rewrite>, c: Call, spec: RecordSpec, x: Weather)
    requires Invited(c.op, c.id) && c.op != Delete && Served(AtAdGuard(rewrites), c, spec, x).1.ok
    ensures var (site', a) := Served(AtAdGuard(rewrites), c, spec, x);
      Publishes(site', a.id, spec) <==> !FallsShort(AtAdGuard(rewrites), c, spec, x)
  {
    Json.DecodeEncode(Json.Rewrite(spec.name, spec.value));
  }

  /** A nil Create or Update leaves the spec in the zone, under the id it answers, exactly unless it falls short. */
  lemma NilPublishesExactly(site: Site, c: Call, spec: RecordSpec, x: Weather)
    requires Fair(site, c, spec, x) && Invited(c.op, c.id) && c.op != Delete && Served(site, c, spec, x).1.ok
    ensures var (site', a) := Served(site, c, spec, x); Publishes(site', a.id, spec) <==> !FallsShort(site, c, spec, x)
  {
    match site
    case AtCloudflare(entries) => CloudflarePublishes(entries, c, spec, x);
    case AtAliDns(domain, records) => AliDnsPublishes(domain, records, c, spec, x);
    case AtAdGuard(rewrites) => AdGuardPublishes(rewrites, c, spec, x);
    case AtJobs(_, _) =>
  }

  ghost predicate ReturnedNil(s: Step, c: Call)
    requires s.ReconcileRecord?
  {
    c.key in s.replies && s.replies[c.key].answer.ok
  }

  /** The effects up to call `i` of a reconcile. */
  ghost function Before(w: World, sites: map<string, Site>, s: Step, weather: map<Name, Weather>, i: nat): Effects
    requires Planned(w, s) && i <= |CallsOf(w, s)|
  {
    Executed(w, sites, CallsOf(w, s)[..i], w.records[s.key].spec, weather)
  }

  lemma ExecutedPrefix(w: World, sites: map<string, Site>, calls: seq<Call>, spec: RecordSpec,
      weather: map<Name, Weather>, i: nat)
    requires i < |calls|
    ensures Executed(w, sites, calls[..i + 1], spec, weather) ==
      Performed(Executed(w, sites, calls[..i], spec, weather), calls[i], CallTarget(w, calls[i].key), spec, weather)
  {
    assert calls[..i + 1][..i] == calls[..i];
  }

  lemma {:induction false} FairPrefix(w: World, sites: map<string, Site>, calls: seq<Call>, spec: RecordSpec,
      weather: map<Name, Weather>, i: nat)
    requires AllFair(w, sites, calls, spec, weather) && i < |calls|
    ensures FairAt(Executed(w, sites, calls[..i], spec, weather), calls[i], CallTarget(w, calls[i].key), spec, weather)
    decreases |calls|
  {
    var n := |calls| - 1;
    if i < n {
      assert calls[..n][..i] == calls[..i];
      FairPrefix(w, sites, calls[..n], spec, weather, i);
    }
  }

  lemma PerformedReplies(f: Effects, c: Call, target: string, spec: RecordSpec, weather: map<Name, Weather>, k: Name)
    ensures var g := Performed(f, c, target, spec, weather);
      c.key in g.replies && (k != c.key && k in f.replies ==> k in g.replies && g.replies[k] == f.replies[k])
  {
  }

  /** The reply of a call is the one it got when it was made. */
  lemma {:induction false} ReplyStays(w: World, sites: map<string, Site>, calls: seq<Call>, spec: RecordSpec,
      weather: map<Name, Weather>, i: nat)
    requires Laws.UniqueCalls(calls) && i < |calls|
    ensures var f, g := Executed(w, sites, calls[..i + 1], spec, weather), Executed(w, sites, calls, spec, weather);
      calls[i].key in f.replies && calls[i].key in g.replies && g.replies[calls[i].key] == f.replies[calls[i].key]
    decreases |calls|
  {
    var n := |calls| - 1;
    var c := calls[n];
    var front := Executed(w, sites, calls[..n], spec, weather);
    PerformedReplies(front, c, CallTarget(w, c.key), spec, weather, calls[i].key);
    assert Executed(w, sites, calls, spec, weather) == Performed(front, c, CallTarget(w, c.key), spec, weather);
    if i < n {
      assert calls[..n][..i + 1] == calls[..i + 1] && calls[i].key != c.key;
      ReplyStays(w, sites, calls[..n], spec, weather, i);
    } else {
      assert calls[..i + 1] == calls;
    }
  }

  /** Calls at other zones leave this one as it is. */
  lemma {:induction false} OthersLeaveSite(w: World, sites: map<string, Site>, calls: seq<Call>, spec: RecordSpec,
      weather: map<Name, Weather>, i: nat, target: string)
    requires i <= |calls| && forall j | i <= j < |calls| :: CallTarget(w, calls[j].key) != target
    ensures var f, g := Executed(w, sites, calls[..i], spec, weather), Executed(w, sites, calls, spec, weather);
      (target in g.sites <==> target in f.sites) && (target in f.sites ==> g.sites[target] == f.sites[target])
    decreases |calls|
  {
    if i == |calls| {
      assert calls[..i] == calls;
    } else {
      var n := |calls| - 1;
      assert calls[..n][..i] == calls[..i];
      OthersLeaveSite(w, sites, calls[..n], spec, weather, i, target);
    }
  }

  /**
   In a reconcile over real zones, a Create or Update that returns nil puts its id into the ledger, and leaves the
   record's spec in its zone under that id exactly unless it falls short.
   */
  lemma CallPublishesExactly(w: World, sites: map<string, Site>, s: Step, weather: map<Name, Weather>, w': World,
      sites': map<string, Site>, i: nat)
    requires Safety.Inv(w) && TrackedLive(w, sites) && ReconcilesThrough(w, sites, s, weather, w', sites')
    requires i < |CallsOf(w, s)| && CallsOf(w, s)[i].op != Delete
    requires var c := CallsOf(w, s)[i];
      c.key in weather && CallTarget(w, c.key) in Before(w, sites, s, weather, i).sites && ReturnedNil(s, c)
    ensures var c := CallsOf(w, s)[i];
      var target, spec := CallTarget(w, c.key), w.records[s.key].spec;
      var found := Before(w, sites, s, weather, i).sites[target];
      && target in Before(w, sites, s, weather, i + 1).sites
      && (Publishes(Before(w, sites, s, weather, i + 1).sites[target], Safety.IdAt(w', s.key, c.key), spec)
          <==> !FallsShort(found, c, spec, weather[c.key]))
  {
    var calls, spec := CallsOf(w, s), w.records[s.key].spec;
    var c := calls[i];
    CallsAreInvited(w, s);
    FairPrefix(w, sites, calls, spec, weather, i);
    ReplyStays(w, sites, calls, spec, weather, i);
    ExecutedPrefix(w, sites, calls, spec, weather, i);
    IdIsAnswered(w, sites, s, weather, w', sites', c);
    NilPublishesExactly(Before(w, sites, s, weather, i).sites[CallTarget(w, c.key)], c, spec, weather[c.key]);
  }

  /** The ledger holds the id that the call left. */
  lemma IdIsAnswered(w: World, sites: map<string, Site>, s: Step, weather: map<Name, Weather>, w': World,
      sites': map<string, Site>, c: Call)
    requires Safety.Inv(w) && TrackedLive(w, sites) && ReconcilesThrough(w, sites, s, weather, w', sites')
    requires c in CallsOf(w, s)
    ensures c.key in s.replies && Safety.IdAt(w', s.key, c.key) == s.replies[c.key].answer.id
  {
    CallsAreInvited(w, s);
    ThroughIsStep(w, sites, s, weather, w', sites');
    Safety.ReconcileIds(w, s, w', s.key, c.key);
    Safety.CallReachesZone(w, s, c.key);
  }

  /** No other of the calls goes to the zone that this one goes to. */
  ghost predicate Alone(w: World, calls: seq<Call>, i: nat)
    requires i < |calls|
  {
    forall j | 0 <= j < |calls| && j != i :: CallTarget(w, calls[j].key) != CallTarget(w, calls[i].key)
  }

  lemma AloneAtSite(w: World, sites: map<string, Site>, calls: seq<Call>, spec: RecordSpec, weather: map<Name, Weather>,
      i: nat)
    requires i < |calls| && Alone(w, calls, i)
    ensures var target := CallTarget(w, calls[i].key);
      var f := Executed(w, sites, calls[..i], spec, weather);
      (target in f.sites <==> target in sites) && (target in sites ==> f.sites[target] == sites[target])
    ensures var target := CallTarget(w, calls[i].key);
      var f, g := Executed(w, sites, calls[..i + 1], spec, weather), Executed(w, sites, calls, spec, weather);
      (target in g.sites <==> target in f.sites) && (target in f.sites ==> g.sites[target] == f.sites[target])
  {
    var target := CallTarget(w, calls[i].key);
    assert calls[..i][..0] == [];
    forall j | 0 <= j < i ensures CallTarget(w, calls[..i][j].key) != target {
      assert calls[..i][j] == calls[j];
    }
    OthersLeaveSite(w, sites, calls[..i], spec, weather, 0, target);
    OthersLeaveSite(w, sites, calls, spec, weather, i + 1, target);
  }

  /** When no other call of the reconcile goes to that zone, that is also how the reconcile found it and leaves it. */
  lemma ReconcilePublishesExactly(w: World, sites: map<string, Site>, s: Step, weather: map<Name, Weather>, w': World,
      sites': map<string, Site>, i: nat)
    requires Safety.Inv(w) && TrackedLive(w, sites) && ReconcilesThrough(w, sites, s, weather, w', sites')
    requires i < |CallsOf(w, s)| && CallsOf(w, s)[i].op != Delete && Alone(w, CallsOf(w, s), i)
    requires var c := CallsOf(w, s)[i]; c.key in weather && CallTarget(w, c.key) in sites && ReturnedNil(s, c)
    ensures var c := CallsOf(w, s)[i];
      var target, spec := CallTarget(w, c.key), w.records[s.key].spec;
      && target in sites'
      && (Publishes(sites'[target], Safety.IdAt(w', s.key, c.key), spec)
          <==> !FallsShort(sites[target], c, spec, weather[c.key]))
  {
    AloneAtSite(w, sites, CallsOf(w, s), w.records[s.key].spec, weather, i);
    CallPublishesExactly(w, sites, s, weather, w', sites', i);
  }

  /** An entry that is live after call `i` is live in the end, unless a later call of the reconcile took it. */
  lemma {:induction false} LiveUnlessTaken(w: World, sites: map<string, Site>, calls: seq<Call>, spec: RecordSpec,
      weather: map<Name, Weather>, i: nat, target: string, id: string)
    requires Laws.UniqueCalls(calls) && AllInvited(calls) && AllFair(w, sites, calls, spec, weather)
    requires MineLive(Effects(sites, w.zones, map[])) && i <= |calls|
    requires id in Executed(w, sites, calls[..i], spec, weather).MineAt(target)
    requires forall j | i <= j < |calls| ::
      !LiveZones.Took(w, Executed(w, sites, calls, spec, weather).replies, calls[j], target, id)
    ensures id in LiveAt(Executed(w, sites, calls, spec, weather).sites, target)
    decreases |calls|
  {
    ExecutedReplies(w, sites, calls, spec, weather);
    MineUnlessTaken(w, sites, calls, spec, weather, i, |calls|, target, id);
    assert calls[..|calls|] == calls;
  }

  lemma {:induction false} MineUnlessTaken(w: World, sites: map<string, Site>, calls: seq<Call>, spec: RecordSpec,
      weather: map<Name, Weather>, i: nat, n: nat, target: string, id: string)
    requires Laws.UniqueCalls(calls) && i <= n <= |calls|
    requires id in Executed(w, sites, calls[..i], spec, weather).MineAt(target)
    requires forall j | i <= j < n ::
      !LiveZones.Took(w, Executed(w, sites, calls, spec, weather).replies, calls[j], target, id)
    ensures id in Executed(w, sites, calls[..n], spec, weather).MineAt(target)
    decreases n
  {
    if i < n {
      MineUnlessTaken(w, sites, calls, spec, weather, i, n - 1, target, id);
      ExecutedPrefix(w, sites, calls, spec, weather, n - 1);
      ReplyStays(w, sites, calls, spec, weather, n - 1);
      assert !LiveZones.Took(w, Executed(w, sites, calls, spec, weather).replies, calls[n - 1], target, id);
    }
  }
}
