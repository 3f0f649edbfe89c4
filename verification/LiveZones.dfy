/**
 The lifecycle over real zones: a Record reconcile whose calls go one after another to the Cloudflare, AliDNS,
 AdGuard and Job backends, several of which may work on one zone.
 */
module LiveZones {
  import opened Api
  import opened Names
  import opened RecordSync
  import opened Protocol
  import opened Contract
  import Laws = RecordLaws
  import Safety = ProtocolSafety
  import AdGuard
  import AliDns
  import Cloudflare
  import JobLaws
  import JobProvider
  import Json

  /** What a call works on; for the Job backend, the jobs of the cluster. */
  datatype Site =
    | AtCloudflare(entries: map<string, Cloudflare.Entry>)
    | AtAliDns(domain: string, records: map<string, AliDns.Entry>)
    | AtAdGuard(rewrites: set<Json.Rewrite>)
    | AtJobs(config: JobProvider.Config, jobs: map<Name, JobProvider.Job>)

  /** The ids of all live entries of a zone, whoever made them; of jobs, those at work. */
  ghost function Live(site: Site): set<string> {
    match site
    case AtCloudflare(entries) => entries.Keys
    case AtAliDns(_, records) => records.Keys
    case AtAdGuard(rewrites) => AdGuard.LiveIds(rewrites)
    case AtJobs(_, jobs) => JobLaws.AtWork(jobs)
  }

  ghost function LiveAt(sites: map<string, Site>, target: string): set<string> {
    if target in sites then Live(sites[target]) else {}
  }

  /** How the servers behave during one call. */
  datatype Weather = Weather(
    adopt: bool, cloudflare: Cloudflare.Server, alidns: AliDns.Server, adguard: AdGuard.Server,
      cluster: JobProvider.Surroundings)

  function Served(site: Site, c: Call, spec: RecordSpec, x: Weather): (Site, Answer) {
    match site
    case AtCloudflare(entries) =>
      var (s, r) := Cloudflare.Called(x.adopt, Cloudflare.State(c.id, c.data, entries), c.op, Cloudflare.Wanted(spec),
        x.cloudflare);
      (AtCloudflare(s.zone), r.Answered(s.id, s.data))
    case AtAliDns(domain, records) =>
      var (s, r) := AliDns.Called(AliDns.State(c.id, c.data, records), c.op, AliDns.Wanted(domain, spec), x.alidns);
      (AtAliDns(domain, s.zone), r.Answered(s.id, s.data))
    case AtAdGuard(rewrites) =>
      var (s, r) := AdGuard.Called(AdGuard.State(c.id, c.data, rewrites), c.op, AdGuard.Wanted(spec), x.adguard);
      (AtAdGuard(s.zone), r.Answered(s.id, s.data))
    case AtJobs(config, jobs) =>
      var (s, o) := JobProvider.Called(config, JobProvider.State(c.id, c.data, jobs), c.op, x.cluster.(spec := spec));
      (AtJobs(config, s.jobs), Answer(o == JobProvider.Done, s.id, s.data, JobLaws.Text(o)))
  }

  /**
   The servers behave as servers do, an AdGuard Delete does not let go of a live rewrite, and the Job backend does not
   panic.
   */
  ghost predicate Fair(site: Site, c: Call, spec: RecordSpec, x: Weather) {
    match site
    case AtCloudflare(entries) => Cloudflare.Plausible(entries, Cloudflare.Wanted(spec), x.cloudflare)
    case AtAliDns(_, records) => AliDns.Plausible(records, x.alidns)
    case AtAdGuard(rewrites) => !AdGuard.LetsGo(AdGuard.State(c.id, c.data, rewrites), c.op, AdGuard.Wanted(spec),
      x.adguard)
    case AtJobs(config, jobs) =>
      && (forall n <- jobs :: n.SlashFree()) && (x.cluster.rendered.Some? ==> x.cluster.rendered.value.SlashFree())
      && !(c.id != "" && '/' !in c.id)
      && (config.hasData || !JobLaws.NeedsData(config, JobProvider.State(c.id, c.data, jobs), x.cluster))
  }

  lemma ServedIsSafe(site: Site, c: Call, spec: RecordSpec, x: Weather)
    requires Fair(site, c, spec, x) && Invited(c.op, c.id)
    ensures var (site', a) := Served(site, c, spec, x);
      ZoneSafe(Live(site), Live(site'), c.id, a.id) && (c.op == Delete && a.ok ==> a.id == "")
        && (!a.ok ==> a.error != "")
  {
    match site
    case AtCloudflare(entries) =>
      Cloudflare.CloudflareKeepsZone(x.adopt, Cloudflare.State(c.id, c.data, entries), c.op, Cloudflare.Wanted(spec),
        x.cloudflare);
    case AtAliDns(domain, records) =>
      AliDns.AliDnsKeepsZone(AliDns.State(c.id, c.data, records), c.op, AliDns.Wanted(domain, spec), x.alidns);
    case AtAdGuard(rewrites) =>
      AdGuard.AdGuardZoneExactly(AdGuard.State(c.id, c.data, rewrites), c.op, AdGuard.Wanted(spec), x.adguard);
    case AtJobs(config, jobs) =>
      var s, env := JobProvider.State(c.id, c.data, jobs), x.cluster.(spec := spec);
      JobLaws.PanicsExactly(config, s, c.op, env);
      JobLaws.JobKeepsZone(config, s, c.op, env);
  }

  /** The zones after some calls, the entries of the controller in them, and the replies. */
  datatype Effects = Effects(sites: map<string, Site>, mine: map<string, set<string>>, replies: map<Name, Reply>) {
    function MineAt(target: string): set<string> {
      if target in mine then mine[target] else {}
    }
  }

  /** One call at the zone `target`; a zone that is not there cannot be reached. */
  ghost function Performed(f: Effects, c: Call, target: string, spec: RecordSpec, weather: map<Name,
        Weather>): Effects {
    if target !in f.sites || c.key !in weather then
      f.(replies := f.replies[c.key := Reply(Answer(false, c.id, c.data, "unreachable"), {}, {})])
    else
      var site := f.sites[target];
      var (site', a) := Served(site, c, spec, weather[c.key]);
      var mine := Tracked(f.MineAt(target), Live(site), Live(site'), a.id);
      Effects(f.sites[target := site'], f.mine[target := mine],
        f.replies[c.key := ReplyOf(f.MineAt(target), mine, c.id, a)])
  }

  /** The calls of one reconcile, in order. */
  ghost function Executed(w: World, sites: map<string, Site>, calls: seq<Call>, spec: RecordSpec, weather: map<Name,
        Weather>): Effects {
    if calls == [] then Effects(sites, w.zones, map[])
    else
      var c := calls[|calls| - 1];
      Performed(Executed(w, sites, calls[..|calls| - 1], spec, weather), c, CallTarget(w, c.key), spec, weather)
  }

  ghost predicate FairAt(f: Effects, c: Call, target: string, spec: RecordSpec, weather: map<Name, Weather>) {
    target in f.sites && c.key in weather ==> Fair(f.sites[target], c, spec, weather[c.key])
  }

  ghost predicate AllFair(w: World, sites: map<string, Site>, calls: seq<Call>, spec: RecordSpec, weather: map<Name,
        Weather>) {
    calls == [] ||
      var front, c := calls[..|calls| - 1], calls[|calls| - 1];
      && AllFair(w, sites, front, spec, weather)
      && FairAt(Executed(w, sites, front, spec, weather), c, CallTarget(w, c.key), spec, weather)
  }

  /** The controller's entries are live. */
  ghost predicate MineLive(f: Effects) {
    forall target <- f.mine :: f.mine[target] <= LiveAt(f.sites, target)
  }

  /** What one call does to what the controller owns, to what strangers own, and to the reply. */
  lemma PerformedFacts(f: Effects, c: Call, target: string, spec: RecordSpec, weather: map<Name, Weather>)
    requires FairAt(f, c, target, spec, weather) && Invited(c.op, c.id) && MineLive(f)
    ensures var g := Performed(f, c, target, spec, weather);
      && MineLive(g) && c.key in g.replies && CallSafe(c, g.replies[c.key])
      && (forall k :: k != c.key ==>
            (k in g.replies <==> k in f.replies) && (k in f.replies ==> g.replies[k] == f.replies[k]))
      && (forall t :: t != target ==> g.MineAt(t) == f.MineAt(t) && LiveAt(g.sites, t) == LiveAt(f.sites, t))
      && (forall id :: id in g.MineAt(target) ==>
            id in g.replies[c.key].gained || (id in f.MineAt(target) && id !in g.replies[c.key].gone))
      && (forall id :: id in LiveAt(g.sites, target) && id !in g.MineAt(target) ==>
            id in LiveAt(f.sites, target) && id !in f.MineAt(target))
  {
    if target in f.sites && c.key in weather {
      var site := f.sites[target];
      var (site', a) := Served(site, c, spec, weather[c.key]);
      ServedIsSafe(site, c, spec, weather[c.key]);
      var before, after := f.MineAt(target), Tracked(f.MineAt(target), Live(site), Live(site'), a.id);
      TrackedIsZoneSafe(before, Live(site), Live(site'), c.id, a.id);
      ZoneSafeIsCallSafe(c, before, after, a);
    }
  }

  /** The call at this zone took the entry, or added it. */
  ghost predicate Took(w: World, replies: map<Name, Reply>, c: Call, target: string, id: string) {
    CallTarget(w, c.key) == target && c.key in replies && id in replies[c.key].gone
  }

  ghost predicate Gave(w: World, replies: map<Name, Reply>, c: Call, target: string, id: string) {
    CallTarget(w, c.key) == target && c.key in replies && id in replies[c.key].gained
  }

  /** The entry was the controller's and no call took it, or a call added it. */
  ghost predicate Followed(w: World, calls: seq<Call>, replies: map<Name, Reply>, target: string, id: string) {
    || (id in w.ZoneOf(target) && forall c <- calls :: !Took(w, replies, c, target, id))
    || exists c <- calls :: Gave(w, replies, c, target, id)
  }

  ghost predicate Stranger(f: Effects, target: string, id: string) {
    id in LiveAt(f.sites, target) && id !in f.MineAt(target)
  }

  lemma FollowedOnce(w: World, front: seq<Call>, c: Call, f: Effects, g: Effects, target: string, id: string)
    requires forall d <- front ::
      d.key != c.key && d.key in f.replies && d.key in g.replies && g.replies[d.key] == f.replies[d.key]
    requires id in f.MineAt(target) ==> Followed(w, front, f.replies, target, id)
    requires Gave(w, g.replies, c, target, id) || (id in f.MineAt(target) && !Took(w, g.replies, c, target, id))
    ensures Followed(w, front + [c], g.replies, target, id)
  {
    var calls := front + [c];
    assert c in calls;
    if !Gave(w, g.replies, c, target, id) {
      if d :| d in front && Gave(w, f.replies, d, target, id) {
        assert d in calls && Gave(w, g.replies, d, target, id);
      } else {
        forall d <- calls ensures !Took(w, g.replies, d, target, id) {
          assert d == c || d in front;
        }
      }
    }
  }

  ghost predicate AllInvited(calls: seq<Call>) {
    forall c <- calls :: Invited(c.op, c.id)
  }

  ghost predicate Replied(calls: seq<Call>, replies: map<Name, Reply>) {
    forall c <- calls :: c.key in replies && CallSafe(c, replies[c.key])
  }

  lemma {:induction false} ExecutedReplies(w: World, sites: map<string, Site>, calls: seq<Call>, spec: RecordSpec,
        weather: map<Name, Weather>)
    requires Laws.UniqueCalls(calls) && AllInvited(calls) && AllFair(w, sites, calls, spec, weather)
    requires MineLive(Effects(sites, w.zones, map[]))
    ensures MineLive(Executed(w, sites, calls, spec, weather))
    ensures Replied(calls, Executed(w, sites, calls, spec, weather).replies)
  {
    if calls != [] {
      var n := |calls| - 1;
      var front, c := calls[..n], calls[n];
      var f := Executed(w, sites, front, spec, weather);
      ExecutedReplies(w, sites, front, spec, weather);
      PerformedFacts(f, c, CallTarget(w, c.key), spec, weather);
      assert forall d <- calls :: d == c || d in front;
    }
  }

  lemma FrontIsApart(calls: seq<Call>)
    requires calls != [] && Laws.UniqueCalls(calls)
    ensures Laws.UniqueCalls(calls[..|calls| - 1]) && forall d <- calls[..|calls| - 1] ::
      d.key != calls[|calls| - 1].key
  {
  }

  lemma PerformedFollows(w: World, front: seq<Call>, f: Effects, c: Call, spec: RecordSpec, weather: map<Name, Weather>,
      target: string, id: string)
    requires FairAt(f, c, CallTarget(w, c.key), spec, weather) && Invited(c.op, c.id) && MineLive(f)
    requires forall d <- front :: d.key != c.key && d.key in f.replies
    requires id in f.MineAt(target) ==> Followed(w, front, f.replies, target, id)
    requires id in Performed(f, c, CallTarget(w, c.key), spec, weather).MineAt(target)
    ensures Followed(w, front + [c], Performed(f, c, CallTarget(w, c.key), spec, weather).replies, target, id)
  {
    PerformedFacts(f, c, CallTarget(w, c.key), spec, weather);
    FollowedOnce(w, front, c, f, Performed(f, c, CallTarget(w, c.key), spec, weather), target, id);
  }

  /** Calls change the controller's entries only as their replies say. */
  lemma {:induction false} ExecutedFollows(w: World, sites: map<string, Site>, calls: seq<Call>, spec: RecordSpec,
      weather: map<Name, Weather>, target: string, id: string)
    requires Laws.UniqueCalls(calls) && AllInvited(calls) && AllFair(w, sites, calls, spec, weather)
    requires MineLive(Effects(sites, w.zones, map[])) && id in Executed(w, sites, calls, spec, weather).MineAt(target)
    ensures Followed(w, calls, Executed(w, sites, calls, spec, weather).replies, target, id)
  {
    if calls != [] {
      var n := |calls| - 1;
      var front, c := calls[..n], calls[n];
      var f := Executed(w, sites, front, spec, weather);
      assert calls == front + [c];
      FrontIsApart(calls);
      ExecutedReplies(w, sites, front, spec, weather);
      if id in f.MineAt(target) {
        ExecutedFollows(w, sites, front, spec, weather, target, id);
      }
      PerformedFollows(w, front, f, c, spec, weather, target, id);
    }
  }

  /** Calls leave nothing behind that is not tracked: a stranger afterwards was one before. */
  lemma {:induction false} ExecutedTracks(w: World, sites: map<string, Site>, calls: seq<Call>, spec: RecordSpec,
      weather: map<Name, Weather>, target: string, id: string)
    requires Laws.UniqueCalls(calls) && AllInvited(calls) && AllFair(w, sites, calls, spec, weather)
    requires MineLive(Effects(sites, w.zones, map[])) && Stranger(Executed(w, sites, calls, spec, weather), target, id)
    ensures Stranger(Effects(sites, w.zones, map[]), target, id)
  {
    if calls != [] {
      var n := |calls| - 1;
      var front, c := calls[..n], calls[n];
      ExecutedReplies(w, sites, front, spec, weather);
      PerformedFacts(Executed(w, sites, front, spec, weather), c, CallTarget(w, c.key), spec, weather);
      ExecutedTracks(w, sites, front, spec, weather, target, id);
    }
  }

  lemma {:induction false} VisitCallsIgnoreAnswers(env: Env, answers: map<Name, Answer>, ps: seq<ProviderView>,
        ss: seq<Status>)
    ensures VisitCalls(env.(answers := answers), ps, ss) == VisitCalls(env, ps, ss)
  {
    if ps != [] {
      VisitCallsIgnoreAnswers(env, answers, ps[..|ps| - 1], ss);
    }
  }

  lemma {:induction false} SweepCallsIgnoreAnswers(env: Env, answers: map<Name, Answer>, ss: seq<Status>)
    ensures SweepAllCalls(env.(answers := answers), ss) == SweepAllCalls(env, ss)
  {
    if ss != [] {
      SweepCallsIgnoreAnswers(env, answers, ss[..|ss| - 1]);
    }
  }

  /** The calls it makes. */
  ghost function CallsOf(w: World, s: Step): seq<Call>
    requires Planned(w, s)
  {
    AllCalls(EnvOf(w, s), w.records[s.key].statuses)
  }

  lemma CallsDoNotDependOnReplies(w: World, s: Step, replies: map<Name, Reply>)
    requires Planned(w, s)
    ensures Planned(w, s.(replies := replies)) && CallsOf(w, s.(replies := replies)) == CallsOf(w, s)
  {
    var env, ss := EnvOf(w, s), w.records[s.key].statuses;
    var answers := map k | k in replies :: replies[k].answer;
    assert EnvOf(w, s.(replies := replies)) == env.(answers := answers);
    VisitCallsIgnoreAnswers(env, answers, env.providers, ss);
    SweepCallsIgnoreAnswers(env, answers, ss);
  }

  /** The reconcile with the replies of the real backends. */
  ghost function Through(w: World, sites: map<string, Site>, s: Step, weather: map<Name, Weather>): Effects
    requires Planned(w, s)
  {
    Executed(w, sites, CallsOf(w, s), w.records[s.key].spec, weather)
  }

  ghost predicate AllFairIn(w: World, sites: map<string, Site>, s: Step, weather: map<Name, Weather>)
    requires Planned(w, s)
  {
    AllFair(w, sites, CallsOf(w, s), w.records[s.key].spec, weather)
  }

  lemma CallsAreInvited(w: World, s: Step)
    requires Planned(w, s) && Safety.Ledgers(w)
    ensures Laws.UniqueCalls(CallsOf(w, s)) && AllInvited(CallsOf(w, s))
    ensures forall k {:trigger Protocol.CallAt(EnvOf(w, s), k, w.records[s.key].statuses)} ::
      Protocol.CallAt(EnvOf(w, s), k, w.records[s.key].statuses).Some? ==>
        Protocol.CallAt(EnvOf(w, s), k, w.records[s.key].statuses).value in CallsOf(w, s)
        && Protocol.CallAt(EnvOf(w, s), k, w.records[s.key].statuses).value.key == k
    ensures forall c <- CallsOf(w, s) :: Protocol.CallAt(EnvOf(w, s), c.key, w.records[s.key].statuses) == Some(c)
  {
    var env, ss := EnvOf(w, s), w.records[s.key].statuses;
    Laws.CallsByKey(env, ss, Call(s.key, Create, "", ""));
    forall c <- CallsOf(w, s) ensures Protocol.CallAt(env, c.key, ss) == Some(c) && Invited(c.op, c.id) {
      Laws.CallsByKey(env, ss, c);
      Laws.PickedKey(env.providers, c.key);
      Laws.FindKey(ss, c.key);
    }
    forall k | Protocol.CallAt(env, k, ss).Some?
      ensures Protocol.CallAt(env, k, ss).value in CallsOf(w, s) && Protocol.CallAt(env, k, ss).value.key == k
    {
      Laws.CallsByKey(env, ss, Protocol.CallAt(env, k, ss).value);
    }
  }

  /** What the backends did to the zones is what the lifecycle takes for granted. */
  lemma BackendsAnswer(w: World, sites: map<string, Site>, s: Step, weather: map<Name, Weather>)
    requires Safety.Inv(w) && Planned(w, s) && AllFairIn(w, sites, s, weather)
    requires MineLive(Effects(sites, w.zones, map[])) && s.replies == Through(w, sites, s, weather).replies
    ensures Answered(EnvOf(w, s), w.records[s.key].statuses, s.replies)
    ensures ZonesFollow(w, EnvOf(w, s), w.records[s.key].statuses, s.replies, Through(w, sites, s, weather).mine)
  {
    var env, ss, spec := EnvOf(w, s), w.records[s.key].statuses, w.records[s.key].spec;
    var calls, f := CallsOf(w, s), Through(w, sites, s, weather);
    CallsAreInvited(w, s);
    ExecutedReplies(w, sites, calls, spec, weather);
    forall target <- f.mine, id <- f.mine[target]
      ensures (id in w.ZoneOf(target) && forall key {:trigger Calls(w, env, ss, key, target)} ::
                 Calls(w, env, ss, key, target) && key in s.replies ==> id !in s.replies[key].gone)
           || (exists key {:trigger Calls(w, env, ss, key, target)} ::
                 Calls(w, env, ss, key, target) && key in s.replies && id in s.replies[key].gained)
    {
      ExecutedFollows(w, sites, calls, spec, weather, target, id);
      assert Followed(w, calls, s.replies, target, id);
      if c :| c in calls && Gave(w, s.replies, c, target, id) {
        assert Calls(w, env, ss, c.key, target);
      } else {
        forall key | Calls(w, env, ss, key, target) && key in s.replies ensures id !in s.replies[key].gone {
          assert !Took(w, s.replies, Protocol.CallAt(env, key, ss).value, target, id);
        }
      }
    }
  }

  ghost predicate TrackedLive(w: World, sites: map<string, Site>) {
    MineLive(Effects(sites, w.zones, map[]))
  }

  ghost predicate ReconcilesThrough(w: World, sites: map<string, Site>, s: Step, weather: map<Name, Weather>,
        w': World, sites': map<string, Site>) {
    Planned(w, s) && AllFairIn(w, sites, s, weather) &&
    var f := Through(w, sites, s, weather);
    && s.replies == f.replies && sites' == f.sites
    && w' == PutRecord(w, s.key, AfterReconcile(EnvOf(w, s), w.records[s.key], s.written)).(zones := f.mine)
  }

  /** The real backends always have an answer: some reconcile goes through. */
  lemma ReconcileGoesThrough(w: World, sites: map<string, Site>, s: Step, weather: map<Name, Weather>)
    returns (s': Step, w': World, sites': map<string, Site>)
    requires Planned(w, s) && AllFairIn(w, sites, s, weather)
    ensures s'.ReconcileRecord? && s' == s.(replies := s'.replies)
      && ReconcilesThrough(w, sites, s', weather, w', sites')
  {
    var f := Through(w, sites, s, weather);
    CallsDoNotDependOnReplies(w, s, f.replies);
    s' := s.(replies := f.replies);
    w' := PutRecord(w, s.key, AfterReconcile(EnvOf(w, s'), w.records[s.key], s.written)).(zones := f.mine);
    sites' := f.sites;
  }

  /** A reconcile through the real backends is a step of the lifecycle. */
  lemma ThroughIsStep(w: World, sites: map<string, Site>, s: Step, weather: map<Name, Weather>, w': World,
        sites': map<string, Site>)
    requires Safety.Inv(w) && TrackedLive(w, sites) && ReconcilesThrough(w, sites, s, weather, w', sites')
    ensures Takes(w, s, w') && TrackedLive(w', sites')
  {
    BackendsAnswer(w, sites, s, weather);
    CallsAreInvited(w, s);
    ExecutedReplies(w, sites, CallsOf(w, s), w.records[s.key].spec, weather);
    assert Enabled(w, s);
    assert TakesReconcile(w, s, w');
  }

  /** An entry that is live after the reconcile and was not a stranger before is tracked. */
  lemma ThroughTracks(w: World, sites: map<string, Site>, s: Step, weather: map<Name, Weather>, w': World,
        sites': map<string, Site>,
      target: string, id: string)
    requires Safety.Inv(w) && TrackedLive(w, sites) && ReconcilesThrough(w, sites, s, weather, w', sites')
    requires id in LiveAt(sites', target) && (id in LiveAt(sites, target) ==> id in w.ZoneOf(target))
    ensures id in w'.ZoneOf(target)
  {
    CallsAreInvited(w, s);
    if id !in w'.ZoneOf(target) {
      ExecutedTracks(w, sites, CallsOf(w, s), w.records[s.key].spec, weather, target, id);
    }
  }

  ghost predicate Calling(w: World, s: Step) {
    s.ReconcileRecord? && s.key in w.records && FINALIZER in w.records[s.key].meta.finalizers
  }

  /**
   One step over real zones. Zones change by the calls of a reconcile, and at any time by other hands, which may
   add and remove entries at will; the controller's entries are then those that are still live.
   */
  ghost predicate RealStep(w: World, sites: map<string, Site>, s: Step, weather: map<Name, Weather>, w': World,
        sites': map<string, Site>) {
    if Calling(w, s) then ReconcilesThrough(w, sites, s, weather, w', sites')
    else
      && Takes(w, s, w')
      && (!s.EntriesVanish? ==> sites' == sites)
      && (s.EntriesVanish? ==> forall target :: w'.ZoneOf(target) == w.ZoneOf(target) * LiveAt(sites', target))
  }

  lemma OtherStepsKeepZones(w: World, s: Step, w': World)
    requires Takes(w, s, w') && !Calling(w, s) && !s.EntriesVanish?
    ensures w'.zones == w.zones
  {
  }

  lemma RealStepIsStep(w: World, sites: map<string, Site>, s: Step, weather: map<Name, Weather>, w': World,
        sites': map<string, Site>)
    requires Safety.Inv(w) && TrackedLive(w, sites) && RealStep(w, sites, s, weather, w', sites')
    ensures Takes(w, s, w') && TrackedLive(w', sites')
  {
    if Calling(w, s) {
      ThroughIsStep(w, sites, s, weather, w', sites');
    } else if !s.EntriesVanish? {
      OtherStepsKeepZones(w, s, w');
    } else {
      assert forall target <- w'.zones :: w'.zones[target] == w'.ZoneOf(target);
    }
  }

  lemma RealStepTracks(w: World, sites: map<string, Site>, s: Step, weather: map<Name, Weather>, w': World,
        sites': map<string, Site>,
      target: string, id: string)
    requires Safety.Inv(w) && TrackedLive(w, sites) && RealStep(w, sites, s, weather, w', sites')
    requires id in w.ZoneOf(target) && id in LiveAt(sites', target)
    ensures id in w'.ZoneOf(target)
  {
    if Calling(w, s) {
      ThroughTracks(w, sites, s, weather, w', sites', target, id);
    } else if !s.EntriesVanish? {
      OtherStepsKeepZones(w, s, w');
    }
  }

  /** A run from the empty cluster over any zones. */
  ghost predicate RealRun(ws: seq<World>, zones: seq<map<string, Site>>, steps: seq<Step>, weathers: seq<map<Name,
        Weather>>) {
    && |ws| == |zones| == |steps| + 1 == |weathers| + 1 && ws[0] == INITIAL
    && forall i :: 0 <= i < |steps| ==> RealStep(ws[i], zones[i], steps[i], weathers[i], ws[i + 1], zones[i + 1])
  }

  lemma {:induction false} RealRunIsRun(ws: seq<World>, zones: seq<map<string, Site>>, steps: seq<Step>,
        weathers: seq<map<Name, Weather>>, n: nat)
    requires RealRun(ws, zones, steps, weathers) && n <= |steps|
    ensures Safety.Run(ws[..n + 1], steps[..n])
    ensures Safety.Inv(ws[n]) && TrackedLive(ws[n], zones[n])
  {
    if n > 0 {
      RealRunIsRun(ws, zones, steps, weathers, n - 1);
      var m := n - 1;
      RealStepIsStep(ws[m], zones[m], steps[m], weathers[m], ws[m + 1], zones[m + 1]);
      Safety.StepKeeps(ws[m], steps[m], ws[m + 1]);
      forall i | 0 <= i < n ensures Takes(ws[..n + 1][i], steps[..n][i], ws[..n + 1][i + 1]) {
        if i < m {
          assert Takes(ws[..m + 1][i], steps[..m][i], ws[..m + 1][i + 1]);
        }
      }
    }
  }

  /** An entry that a reconcile created stays tracked for as long as it is live. */
  lemma {:induction false} CreatedStaysTracked(ws: seq<World>, zones: seq<map<string, Site>>, steps: seq<Step>,
        weathers: seq<map<Name, Weather>>,
      i: nat, n: nat, target: string, id: string)
    requires RealRun(ws, zones, steps, weathers) && i < n <= |steps| && Calling(ws[i], steps[i])
    requires id !in LiveAt(zones[i], target) && forall k | i < k <= n :: id in LiveAt(zones[k], target)
    ensures id in ws[n].ZoneOf(target)
    decreases n
  {
    var m := n - 1;
    RealRunIsRun(ws, zones, steps, weathers, m);
    if m == i {
      ThroughTracks(ws[m], zones[m], steps[m], weathers[m], ws[m + 1], zones[m + 1], target, id);
    } else {
      CreatedStaysTracked(ws, zones, steps, weathers, i, m, target, id);
      RealStepTracks(ws[m], zones[m], steps[m], weathers[m], ws[m + 1], zones[m + 1], target, id);
    }
  }

  /**
   No orphans in the real zones: over every run with Cloudflare, AliDNS and AdGuard zones and with jobs, shared by any
   number of providers and with other hands in them,
     an entry that a reconcile created and that is live ever since is named
   by a record that bears the finalizer, at an existing provider of that zone.
   */
  lemma {:induction false} NoOrphansInRealZones(ws: seq<World>, zones: seq<map<string, Site>>, steps: seq<Step>,
        weathers: seq<map<Name, Weather>>,
      i: nat, n: nat, target: string, id: string)
    requires RealRun(ws, zones, steps, weathers) && i < n <= |steps| && Calling(ws[i], steps[i])
    requires id !in LiveAt(zones[i], target) && forall k | i < k <= n :: id in LiveAt(zones[k], target)
    ensures exists rk, k :: Safety.NamesEntry(ws[n], rk, k, target, id) && Safety.Backed(ws[n], rk, k)
  {
    RealRunIsRun(ws, zones, steps, weathers, n);
    CreatedStaysTracked(ws, zones, steps, weathers, i, n, target, id);
    Safety.NoOrphansOverRuns(ws[..n + 1], steps[..n], n, target, id);
  }
}
