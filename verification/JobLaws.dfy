/** Whole runs of the Job backend: the ledger of jobs, and when a nil Delete really ran a delete job. */
module JobLaws {
  import opened Api
  import opened Names
  import opened RecordSync
  import opened Contract
  import opened Protocol
  import opened JobProvider

  datatype Event = Invoke(op: Op, env: Surroundings) | Report(job: Name, conditions: seq<Condition>) | Vanish(job: Name)

  /** `mine` are the jobs this payload started; the counters say what became of them. */
  datatype Ledger = Ledger(s: State, mine: set<Name>, created: nat, consumed: nat, abandoned: nat, vanished: nat)

  predicate Outstanding(s: State) {
    s.id != "" && Named(s).Some?
  }

  /**
   The reconciler creates exactly when it holds no id; jobs are reported on until they finish, and may be removed by
   others.
   */
  ghost predicate Legal(s: State, e: Event) {
    match e
    case Invoke(op, env) => (s.id == "" <==> op == Create) && (env.rendered.Some? ==> env.rendered.value.SlashFree())
    case Report(n, _) => n in s.jobs && !s.jobs[n].Finished()
    case Vanish(n) => n in s.jobs
  }

  function Step(config: Config, s: State, e: Event): State {
    match e
    case Invoke(op, env) => Called(config, s, op, env).0
    case Report(n, cs) => if n in s.jobs then s.(jobs := s.jobs[n := s.jobs[n].(conditions := cs)]) else s
    case Vanish(n) => s.(jobs := s.jobs - {n})
  }

  /** The books after a call that took the state to `s'`. */
  function Booked(l: Ledger, s': State): Ledger {
    Ledger(s', l.mine + (s'.jobs.Keys - l.s.jobs.Keys),
           l.created + |s'.jobs.Keys - l.s.jobs.Keys|,
           l.consumed + |l.s.jobs.Keys - s'.jobs.Keys|,
           l.abandoned + (if Outstanding(l.s) && s'.id == "" && s'.jobs == l.s.jobs then 1 else 0),
           l.vanished)
  }

  function Next(config: Config, l: Ledger, e: Event): Ledger {
    var s' := Step(config, l.s, e);
    match e
    case Invoke(_, _) => Booked(l, s')
    case Report(_, _) => l.(s := s')
    case Vanish(n) => l.(s := s', vanished := l.vanished + if Outstanding(l.s) && !Outstanding(s') then 1 else 0)
  }

  /**
   The payload's id is empty or the key of a job of ours; an unfinished job of ours is the one it names; the books
   balance.
   */
  ghost predicate Balanced(l: Ledger) {
    && (l.s.id != "" ==>
          ParseId(l.s.id).Some? && ParseId(l.s.id).value in l.mine && ParseId(l.s.id).value.Key() == l.s.id)
    && (forall n <- l.mine :: n.SlashFree())
    && (forall n <- l.mine :: n in l.s.jobs && !l.s.jobs[n].Finished() ==> l.s.id != "" && ParseId(l.s.id) == Some(n))
    && l.created == l.consumed + l.abandoned + l.vanished + if Outstanding(l.s) then 1 else 0
  }

  /** What one call can do to the id and the jobs. */
  lemma CallShapes(config: Config, s: State, op: Op, env: Surroundings)
    requires s.id != "" ==> ParseId(s.id).Some?
    ensures var (s', o) := Called(config, s, op, env);
      && (o == Panic ==> s' == s)
      && (o == Done ==>
          && Outstanding(s) && Named(s).value.Complete() && s'.jobs == s.jobs - {ParseId(s.id).value}
          && s'.id == if op == Delete then "" else s.id)
      && (o != Done ==>
          || (s'.jobs == s.jobs && s'.id == s.id)
          || (s'.jobs == s.jobs && s'.id == "" && o.Error? && Outstanding(s) && Named(s).value.Failed()
            && Named(s).value.action == "create")
          || (o == Running && !Outstanding(s) && env.rendered.Some? && env.rendered.value !in s.jobs
              && s'.id == env.rendered.value.Key()
              && s'.jobs == s.jobs[env.rendered.value := Job(ActionOf(op), env.spec, [])]))
  {
  }

  lemma {:induction false} KeyNotEmpty(n: Name)
    ensures n.Key() != ""
  {
    assert [n.namespace, n.name][1..] == [n.name];
  }

  lemma ConsumingKeeps(l: Ledger, s': State)
    requires Balanced(l) && Outstanding(l.s) && Named(l.s).value.Complete()
    requires s'.jobs == l.s.jobs - {ParseId(l.s.id).value} && (s'.id == "" || s'.id == l.s.id)
    ensures Balanced(Booked(l, s'))
  {
    assert s'.jobs.Keys - l.s.jobs.Keys == {} && l.s.jobs.Keys - s'.jobs.Keys == {ParseId(l.s.id).value};
  }

  lemma WaitingKeeps(l: Ledger, s': State)
    requires Balanced(l) && s'.jobs == l.s.jobs
    requires s'.id == l.s.id || (s'.id == "" && Outstanding(l.s) && Named(l.s).value.Failed())
    ensures Balanced(Booked(l, s'))
  {
    assert s'.jobs.Keys - l.s.jobs.Keys == {} && l.s.jobs.Keys - s'.jobs.Keys == {};
  }

  lemma StartingKeeps(l: Ledger, s': State, n: Name, job: Job)
    requires Balanced(l) && !Outstanding(l.s) && n.SlashFree() && n !in l.s.jobs
    requires s'.id == n.Key() && s'.jobs == l.s.jobs[n := job]
    ensures Balanced(Booked(l, s'))
  {
    ParseIdKey(n);
    KeyNotEmpty(n);
    assert s'.jobs.Keys - l.s.jobs.Keys == {n} && l.s.jobs.Keys - s'.jobs.Keys == {};
  }

  lemma InvokeKeeps(config: Config, l: Ledger, e: Event)
    requires Balanced(l) && e.Invoke? && Legal(l.s, e)
    ensures Balanced(Next(config, l, e))
  {
    var (s', o) := Called(config, l.s, e.op, e.env);
    CallShapes(config, l.s, e.op, e.env);
    if o == Done {
      ConsumingKeeps(l, s');
    } else if s'.jobs == l.s.jobs {
      WaitingKeeps(l, s');
    } else {
      StartingKeeps(l, s', e.env.rendered.value, Job(ActionOf(e.op), e.env.spec, []));
    }
  }

  lemma StepKeepsBalance(config: Config, l: Ledger, e: Event)
    requires Balanced(l) && Legal(l.s, e)
    ensures Balanced(Next(config, l, e))
  {
    if e.Invoke? {
      InvokeKeeps(config, l, e);
    }
  }

  ghost predicate LegalRun(config: Config, s: State, es: seq<Event>)
    decreases es
  {
    es != [] ==> Legal(s, es[0]) && LegalRun(config, Step(config, s, es[0]), es[1..])
  }

  function After(config: Config, l: Ledger, es: seq<Event>): Ledger
    decreases es
  {
    if es == [] then l else After(config, Next(config, l, es[0]), es[1..])
  }

  lemma {:induction false} RunKeepsBalance(config: Config, l: Ledger, es: seq<Event>)
    requires Balanced(l) && LegalRun(config, l.s, es)
    ensures Balanced(After(config, l, es))
    decreases es
  {
    if es != [] {
      StepKeepsBalance(config, l, es[0]);
      RunKeepsBalance(config, Next(config, l, es[0]), es[1..]);
    }
  }

  /** A status that holds no id yet. */
  function Empty(jobs: map<Name, Job>, data: string): Ledger {
    Ledger(State("", data, jobs), {}, 0, 0, 0, 0)
  }

  /**
   Over every run from a status without an id, jobs started = consumed + failed creates given up + removed by others
   + the one outstanding.
   */
  lemma {:induction false} JobLedgerOverRuns(config: Config, jobs: map<Name, Job>, data: string, es: seq<Event>)
    requires LegalRun(config, Empty(jobs, data).s, es)
    ensures var l := After(config, Empty(jobs, data), es);
      l.created == l.consumed + l.abandoned + l.vanished + if Outstanding(l.s) then 1 else 0
  {
    RunKeepsBalance(config, Empty(jobs, data), es);
  }

  /** Over every such run, at most one of the jobs started is unfinished, and the id names it. */
  lemma {:induction false} OneUnfinishedOverRuns(config: Config, jobs: map<Name, Job>, data: string, es: seq<Event>,
        n: Name)
    requires LegalRun(config, Empty(jobs, data).s, es)
    ensures var l := After(config, Empty(jobs, data), es);
      n in l.mine && n in l.s.jobs && !l.s.jobs[n].Finished() ==> l.s.id == n.Key()
  {
    RunKeepsBalance(config, Empty(jobs, data), es);
  }

  /** A job is started only when the job the id names does not exist. */
  lemma NeverStartsTwo(config: Config, s: State, op: Op, env: Surroundings)
    requires s.id != "" ==> ParseId(s.id).Some?
    requires exists n :: n in Called(config, s, op, env).0.jobs && n !in s.jobs
    ensures !Outstanding(s) && Called(config, s, op, env).1 == Running
  {
    CallShapes(config, s, op, env);
  }

  /** The call gets to the point where it executes the data template. */
  predicate NeedsData(config: Config, s: State, env: Surroundings) {
    if s.id != "" && (ParseId(s.id) == None || env.getFails) then false
    else if Outstanding(s) then
      (Named(s).value.Complete() && config.SavesOnComplete()) || (Named(s).value.Failed() && config.SavesOnFailure())
    else env.rendered.Some? && config.SavesOnCreate()
  }

  /** A call panics exactly on an id without a separator, or when it needs a data template that was never given. */
  lemma PanicsExactly(config: Config, s: State, op: Op, env: Surroundings)
    ensures Called(config, s, op, env).1 == Panic <==>
      (s.id != "" && '/' !in s.id) || (!config.hasData && NeedsData(config, s, env))
  {
    ParseIdFails(s.id);
  }

  /**
   After a completed job the data is written even when the job could not be removed; without a template the call
   panics.
   */
  lemma DataWrittenDespiteFailedRemoval(config: Config, s: State, env: Surroundings)
    requires s.id != "" && ParseId(s.id).Some? && Outstanding(s) && Named(s).value.Complete()
    requires config.SavesOnComplete() && !env.getFails && env.data.Some?
    ensures var (s', o) := Called(config, s, Update, env);
      if config.hasData then s'.data == env.data.value && s'.id == s.id && (o == Done <==> !env.deleteFails)
      else (s', o) == (s, Panic)
  {
  }

  /** The keys of the jobs still at work: what counts as this backend's live entries. */
  ghost function Unfinished(mine: set<Name>, jobs: map<Name, Job>): set<string> {
    set n | n in mine && n in jobs && !jobs[n].Finished() :: n.Key()
  }

  function Text(o: Outcome): string {
    match o
    case Error(text) => text
    case Running => "job is running"
    case Done => ""
    case Panic => "index out of range"
  }

  lemma InvokeIsZoneSafe(config: Config, l: Ledger, op: Op, env: Surroundings)
    requires Balanced(l) && Legal(l.s, Invoke(op, env))
    ensures var l' := Next(config, l, Invoke(op, env));
      ZoneSafe(Unfinished(l.mine, l.s.jobs), Unfinished(l'.mine, l'.s.jobs), l.s.id, l'.s.id)
  {
    var l' := Next(config, l, Invoke(op, env));
    CallShapes(config, l.s, op, env);
    InvokeKeeps(config, l, Invoke(op, env));
    var before, after := Unfinished(l.mine, l.s.jobs), Unfinished(l'.mine, l'.s.jobs);
    forall id <- after ensures id in before + {l'.s.id} && id != "" && (id == l.s.id ==> l'.s.id == l.s.id) {
      var n :| n in l'.mine && n in l'.s.jobs && !l'.s.jobs[n].Finished() && n.Key() == id;
      KeyNotEmpty(n);
      assert ParseId(l'.s.id) == Some(n);
      if n in l.mine && n in l.s.jobs && !l.s.jobs[n].Finished() {
        assert id in before;
        ParseIdKey(n);
      }
    }
  }

  /** With unfinished jobs as its entries, every call of the Job backend is one the lifecycle accepts. */
  lemma JobCallsAreSafe(config: Config, l: Ledger, key: Name, op: Op, env: Surroundings)
    requires Balanced(l) && Legal(l.s, Invoke(op, env))
    ensures var (s', o) := Called(config, l.s, op, env);
      var before, after := Unfinished(l.mine, l.s.jobs), Unfinished(l.mine + (s'.jobs.Keys - l.s.jobs.Keys), s'.jobs);
      CallSafe(Call(key, op, l.s.id, l.s.data), ReplyOf(before, after, l.s.id,
        Answer(o == Done, s'.id, s'.data, Text(o))))
  {
    InvokeIsZoneSafe(config, l, op, env);
    CallShapes(config, l.s, op, env);
    var (s', o) := Called(config, l.s, op, env);
    var before, after := Unfinished(l.mine, l.s.jobs), Unfinished(l.mine + (s'.jobs.Keys - l.s.jobs.Keys), s'.jobs);
    ZoneSafeIsCallSafe(Call(key, op, l.s.id, l.s.data), before, after, Answer(o == Done, s'.id, s'.data, Text(o)));
  }

  /** The events while a record is being deleted: only Deletes, and none once the id is gone. */
  ghost predicate DeletionRun(config: Config, s: State, es: seq<Event>)
    decreases es
  {
    es != [] ==>
      && (es[0].Invoke? ==> es[0].op == Delete && s.id != "")
      && Legal(s, es[0]) && DeletionRun(config, Step(config, s, es[0]), es[1..])
  }

  /** The id is given up only by a Delete that found a completed delete job. */
  ghost predicate Clean(config: Config, s: State, es: seq<Event>)
    decreases es
  {
    es != [] ==>
      var s' := Step(config, s, es[0]);
      && (s.id != "" && s'.id == "" ==>
          && Outstanding(s) && Named(s).value.action == "delete" && Named(s).value.Complete()
          && es[0].Invoke? && Called(config, s, es[0].op, es[0].env).1 == Done)
      && Clean(config, s', es[1..])
  }

  /** A completed job can be consumed, a failed one looked at: the data template is there, or is not needed. */
  predicate CanConsume(config: Config) {
    config.hasData || !config.SavesOnComplete()
  }

  predicate CanLookAtFailure(config: Config) {
    config.hasData || !config.SavesOnFailure()
  }

  predicate CanStart(config: Config) {
    config.hasData || !config.SavesOnCreate()
  }

  /** Some Delete can give the id up on account of this job. */
  predicate GivesUp(config: Config, job: Job) {
    || (!job.Failed() && CanConsume(config))
    || (!job.Complete() && job.action == "create" && CanLookAtFailure(config))
  }

  /**
   What can be checked before the first Delete: the named job runs the deletion, or no Delete can give the id up on
   its account.
   */
  predicate SafeToDelete(config: Config, s: State) {
    s.id != "" && Outstanding(s) ==> Named(s).value.action == "delete" || !GivesUp(config, Named(s).value)
  }

  lemma DeletionStep(config: Config, s: State, e: Event)
    requires s.id != "" && ParseId(s.id).Some? && SafeToDelete(config, s)
    requires Legal(s, e) && (e.Invoke? ==> e.op == Delete)
    ensures var s' := Step(config, s, e);
      && SafeToDelete(config, s') && (s'.id != "" ==> ParseId(s'.id).Some?)
      && (s'.id == "" ==>
            && Outstanding(s) && Named(s).value.action == "delete" && Named(s).value.Complete()
            && e.Invoke? && Called(config, s, e.op, e.env).1 == Done)
  {
    if e.Invoke? {
      CallShapes(config, s, e.op, e.env);
      if e.env.rendered.Some? {
        ParseIdKey(e.env.rendered.value);
      }
    }
  }

  lemma {:induction false} SafeDeletionsAreClean(config: Config, s: State, es: seq<Event>)
    requires s.id != "" ==> ParseId(s.id).Some? && SafeToDelete(config, s)
    requires DeletionRun(config, s, es)
    ensures Clean(config, s, es)
    decreases es
  {
    if es != [] {
      var s' := Step(config, s, es[0]);
      if s.id != "" {
        DeletionStep(config, s, es[0]);
      }
      SafeDeletionsAreClean(config, s', es[1..]);
    }
  }

  /** A Delete at which nothing fails, and which starts the job `name` if it starts one. */
  function PlainDelete(name: Option<Name>): Event {
    Invoke(Delete, Surroundings(RecordSpec("", "", "", 0, map[]), false, false, false, name, Some("")))
  }

  /** Otherwise a completed job of another kind is taken for the deletion, or a failed creation clears the id. */
  lemma UnsafeDeletion(config: Config, s: State) returns (es: seq<Event>)
    requires s.id != "" && ParseId(s.id).Some? && !SafeToDelete(config, s)
    ensures DeletionRun(config, s, es) && !Clean(config, s, es)
  {
    var n, job, call := ParseId(s.id).value, Named(s).value, PlainDelete(None);
    if job.Finished() {
      es := [call];
      assert Step(config, s, call).id == "";
    } else {
      var report := Report(n, [Condition(if CanConsume(config) then "Complete" else "Failed", "True", "", "")]);
      var s' := Step(config, s, report);
      es := [report, call];
      assert es[1..] == [call] && Named(s').value.Finished() && s'.id == s.id;
      assert Step(config, s', call).id == "";
      assert !Clean(config, s', [call]);
      assert DeletionRun(config, s', [call]);
    }
  }

  /**
   A nil Delete means that a delete job completed, over all runs, exactly when the first Delete starts from such a
   state.
   */
  lemma DeletionIsHonestExactly(config: Config, s: State)
    requires s.id != "" && ParseId(s.id).Some?
    ensures SafeToDelete(config, s) <==> forall es :: DeletionRun(config, s, es) ==> Clean(config, s, es)
  {
    if SafeToDelete(config, s) {
      forall es | DeletionRun(config, s, es) ensures Clean(config, s, es) {
        SafeDeletionsAreClean(config, s, es);
      }
    } else {
      var es := UnsafeDeletion(config, s);
    }
  }

  function StateAfter(config: Config, s: State, es: seq<Event>): State
    decreases es
  {
    if es == [] then s else StateAfter(config, Step(config, s, es[0]), es[1..])
  }

  lemma OneEvent(config: Config, s: State, e: Event)
    ensures StateAfter(config, s, [e]) == Step(config, s, e)
  {
    assert [e][1..] == [];
  }

  /** No Delete can give the id up on account of the named job, or, if there is none, of a delete job. */
  predicate Stuck(config: Config, s: State) {
    if Outstanding(s) then !GivesUp(config, Named(s).value) else !CanStart(config) || !CanConsume(config)
  }

  ghost predicate NobodyRemovesJobs(es: seq<Event>) {
    forall e <- es :: !e.Vanish?
  }

  lemma StuckStep(config: Config, s: State, e: Event)
    requires s.id != "" && ParseId(s.id).Some? && Stuck(config, s)
    requires Legal(s, e) && !e.Vanish? && (e.Invoke? ==> e.op == Delete)
    ensures var s' := Step(config, s, e);
      s'.id != "" && ParseId(s'.id).Some? && Stuck(config, s') && (Outstanding(s) ==> s'.id == s.id && Outstanding(s'))
  {
    if e.Invoke? {
      CallShapes(config, s, e.op, e.env);
      if e.env.rendered.Some? {
        KeyNotEmpty(e.env.rendered.value);
        ParseIdKey(e.env.rendered.value);
      }
    }
  }

  lemma {:induction false} StuckStays(config: Config, s: State, es: seq<Event>)
    requires s.id != "" && ParseId(s.id).Some? && Stuck(config, s)
    requires DeletionRun(config, s, es) && NobodyRemovesJobs(es)
    ensures StateAfter(config, s, es).id != "" && (Outstanding(s) ==> StateAfter(config, s, es).id == s.id)
    decreases es
  {
    if es != [] {
      StuckStep(config, s, es[0]);
      StuckStays(config, Step(config, s, es[0]), es[1..]);
    }
  }

  lemma {:induction false} NamesAreBounded(names: set<Name>) returns (k: nat)
    ensures forall n <- names :: |n.name| < k
  {
    if names == {} {
      k := 0;
    } else {
      var n :| n in names;
      k := NamesAreBounded(names - {n});
      if k <= |n.name| {
        k := |n.name| + 1;
      }
    }
  }

  lemma FreshName(names: set<Name>) returns (n: Name)
    ensures n !in names && n.SlashFree()
  {
    var k := NamesAreBounded(names);
    n := Name("", seq(k, _ => 'j'));
  }

  /** A run of Deletes that gets rid of the id without anybody's help but the job's. */
  lemma FinishNamed(config: Config, s: State) returns (es: seq<Event>)
    requires s.id != "" && ParseId(s.id).Some? && Outstanding(s) && !Stuck(config, s)
    ensures DeletionRun(config, s, es) && NobodyRemovesJobs(es) && StateAfter(config, s, es).id == ""
  {
    var n, job, call := ParseId(s.id).value, Named(s).value, PlainDelete(None);
    if job.Finished() {
      es := [call];
      OneEvent(config, s, call);
    } else {
      var report := Report(n, [Condition(if CanConsume(config) then "Complete" else "Failed", "True", "", "")]);
      var s' := Step(config, s, report);
      es := [report, call];
      assert es[1..] == [call] && Named(s').value.Finished() && s'.id == s.id;
      OneEvent(config, s', call);
      assert DeletionRun(config, s', [call]);
    }
  }

  lemma FinishDeletion(config: Config, s: State) returns (es: seq<Event>)
    requires s.id != "" && ParseId(s.id).Some? && !Stuck(config, s)
    ensures DeletionRun(config, s, es) && NobodyRemovesJobs(es) && StateAfter(config, s, es).id == ""
  {
    if Outstanding(s) {
      es := FinishNamed(config, s);
    } else {
      var n := FreshName(s.jobs.Keys);
      var start := PlainDelete(Some(n));
      var s' := Step(config, s, start);
      KeyNotEmpty(n);
      ParseIdKey(n);
      assert s'.id == n.Key() && s'.jobs == s.jobs[n := Job("delete", start.env.spec, [])];
      var rest := FinishNamed(config, s');
      es := [start] + rest;
      assert es[1..] == rest;
    }
  }

  /**
   While nobody else removes jobs, the id can never be got rid of exactly when no Delete can give it up: the named
   job failed in an update or a deletion, or a data template is needed that was never given. A named job then stays
   named for good.
   */
  lemma DeletionStuckExactly(config: Config, s: State)
    requires s.id != "" && ParseId(s.id).Some?
    ensures Stuck(config, s) <==>
      forall es :: DeletionRun(config, s, es) && NobodyRemovesJobs(es) ==> StateAfter(config, s, es).id != ""
    ensures Stuck(config, s) && Outstanding(s) ==>
      forall es :: DeletionRun(config, s, es) && NobodyRemovesJobs(es) ==> StateAfter(config, s, es).id == s.id
  {
    if Stuck(config, s) {
      forall es | DeletionRun(config, s, es) && NobodyRemovesJobs(es)
        ensures StateAfter(config, s, es).id != "" && (Outstanding(s) ==> StateAfter(config, s, es).id == s.id)
      {
        StuckStays(config, s, es);
      }
    } else {
      var es := FinishDeletion(config, s);
    }
  }

  /**
   The ledger, and the spec the external entry stands at: a completed job put it there, or, for a deletion, removed
   it.
   */
  datatype Plant = Plant(l: Ledger, entry: Option<RecordSpec>)

  function Made(job: Job): Option<RecordSpec> {
    if job.action == "delete" then None else Some(job.spec)
  }

  function NextPlant(config: Config, x: Plant, e: Event): Plant {
    var completes := e.Report? && e.job in x.l.mine && e.job in x.l.s.jobs
      && x.l.s.jobs[e.job].(conditions := e.conditions).Complete();
    Plant(Next(config, x.l, e), if completes then Made(x.l.s.jobs[e.job]) else x.entry)
  }

  /** The entry exists and the status has no id. */
  predicate Orphaned(x: Plant) {
    x.entry.Some? && x.l.s.id == ""
  }

  ghost predicate Orphans(config: Config, x: Plant, es: seq<Event>)
    decreases es
  {
    Orphaned(x) || (es != [] && Orphans(config, NextPlant(config, x, es[0]), es[1..]))
  }

  /** A Delete takes a completed job of another kind for the deletion it waits for. */
  predicate Mistaken(config: Config, s: State, e: Event) {
    && e.Invoke? && e.op == Delete && Called(config, s, e.op, e.env).1 == Done
    && Named(s).Some? && Named(s).value.action != "delete"
  }

  ghost predicate SomeMistaken(config: Config, x: Plant, es: seq<Event>)
    decreases es
  {
    es != [] && (Mistaken(config, x.l.s, es[0]) || SomeMistaken(config, NextPlant(config, x, es[0]), es[1..]))
  }

  /** A completed job that is still named is the last one that touched the entry. */
  ghost predicate Current(x: Plant) {
    Balanced(x.l) && (Outstanding(x.l.s) && Named(x.l.s).value.Complete() ==> x.entry == Made(Named(x.l.s).value))
  }

  /** What is known besides while no Delete was mistaken. */
  ghost predicate Unorphaned(x: Plant) {
    && !Orphaned(x)
    && (Outstanding(x.l.s) && !Named(x.l.s).value.Complete() && Named(x.l.s).value.action == "create"
      ==> x.entry == None)
  }

  /** The plant after a call that took the state to `s'`: calls do not touch the entry, jobs do. */
  function AfterCall(x: Plant, s': State): Plant {
    Plant(Booked(x.l, s'), x.entry)
  }

  lemma ConsumingIsCurrent(x: Plant, s': State)
    requires Current(x) && Outstanding(x.l.s) && Named(x.l.s).value.Complete()
    requires s'.jobs == x.l.s.jobs - {ParseId(x.l.s.id).value} && (s'.id == "" || s'.id == x.l.s.id)
    ensures Current(AfterCall(x, s')) && !Outstanding(s')
    ensures s'.id == "" && Named(x.l.s).value.action != "delete" ==> Orphaned(AfterCall(x, s'))
    ensures Unorphaned(x) && !(s'.id == "" && Named(x.l.s).value.action != "delete") ==> Unorphaned(AfterCall(x, s'))
  {
    ConsumingKeeps(x.l, s');
  }

  lemma WaitingIsCurrent(x: Plant, s': State)
    requires Current(x) && s'.jobs == x.l.s.jobs
    requires
      || s'.id == x.l.s.id
      || (s'.id == "" && Outstanding(x.l.s) && Named(x.l.s).value.Failed() && Named(x.l.s).value.action == "create")
    ensures Current(AfterCall(x, s')) && (Unorphaned(x) ==> Unorphaned(AfterCall(x, s')))
  {
    WaitingKeeps(x.l, s');
  }

  lemma StartingIsCurrent(x: Plant, s': State, n: Name, job: Job)
    requires Current(x) && !Outstanding(x.l.s) && n.SlashFree() && n !in x.l.s.jobs && !job.Complete()
    requires s'.id == n.Key() && s'.jobs == x.l.s.jobs[n := job] && (job.action == "create" ==> x.l.s.id == "")
    ensures Current(AfterCall(x, s')) && (Unorphaned(x) ==> Unorphaned(AfterCall(x, s')))
  {
    StartingKeeps(x.l, s', n, job);
    ParseIdKey(n);
    KeyNotEmpty(n);
  }

  lemma InvokeKeepsCurrent(config: Config, x: Plant, e: Event)
    requires Current(x) && e.Invoke? && Legal(x.l.s, e)
    ensures Current(NextPlant(config, x, e))
    ensures Mistaken(config, x.l.s, e) ==> Orphaned(NextPlant(config, x, e))
    ensures Unorphaned(x) && !Mistaken(config, x.l.s, e) ==> Unorphaned(NextPlant(config, x, e))
  {
    var (s', o) := Called(config, x.l.s, e.op, e.env);
    assert NextPlant(config, x, e) == AfterCall(x, s');
    CallShapes(config, x.l.s, e.op, e.env);
    if o == Done {
      ConsumingIsCurrent(x, s');
    } else if s'.jobs == x.l.s.jobs {
      WaitingIsCurrent(x, s');
    } else {
      StartingIsCurrent(x, s', e.env.rendered.value, Job(ActionOf(e.op), e.env.spec, []));
    }
  }

  lemma OthersKeepCurrent(config: Config, x: Plant, e: Event)
    requires Current(x) && !e.Invoke? && Legal(x.l.s, e)
    ensures Current(NextPlant(config, x, e)) && (Unorphaned(x) ==> Unorphaned(NextPlant(config, x, e)))
  {
    StepKeepsBalance(config, x.l, e);
  }

  lemma StepKeepsCurrent(config: Config, x: Plant, e: Event)
    requires Current(x) && Legal(x.l.s, e)
    ensures Current(NextPlant(config, x, e))
    ensures Mistaken(config, x.l.s, e) ==> Orphaned(NextPlant(config, x, e))
    ensures Unorphaned(x) && !Mistaken(config, x.l.s, e) ==> Unorphaned(NextPlant(config, x, e))
  {
    if e.Invoke? {
      InvokeKeepsCurrent(config, x, e);
    } else {
      OthersKeepCurrent(config, x, e);
    }
  }

  lemma {:induction false} UnorphanedRun(config: Config, x: Plant, es: seq<Event>)
    requires Current(x) && Unorphaned(x) && LegalRun(config, x.l.s, es)
    ensures Orphans(config, x, es) <==> SomeMistaken(config, x, es)
    decreases es
  {
    if es != [] {
      StepKeepsCurrent(config, x, es[0]);
      if !Mistaken(config, x.l.s, es[0]) {
        UnorphanedRun(config, NextPlant(config, x, es[0]), es[1..]);
      }
    }
  }

  /**
   Over every run from a status without an id, the entry the jobs made is left without an id exactly when some
   Delete takes a completed create or update job for the deletion.
   */
  lemma {:induction false} JobOrphansExactly(config: Config, jobs: map<Name, Job>, data: string, es: seq<Event>)
    requires LegalRun(config, Empty(jobs, data).s, es)
    ensures Orphans(config, Plant(Empty(jobs, data), None), es)
      <==> SomeMistaken(config, Plant(Empty(jobs, data), None), es)
  {
    UnorphanedRun(config, Plant(Empty(jobs, data), None), es);
  }

  function PlantAfter(config: Config, x: Plant, es: seq<Event>): Plant
    decreases es
  {
    if es == [] then x else PlantAfter(config, NextPlant(config, x, es[0]), es[1..])
  }

  lemma {:induction false} RunKeepsCurrent(config: Config, x: Plant, es: seq<Event>)
    requires Current(x) && LegalRun(config, x.l.s, es)
    ensures Current(PlantAfter(config, x, es))
    decreases es
  {
    if es != [] {
      StepKeepsCurrent(config, x, es[0]);
      RunKeepsCurrent(config, NextPlant(config, x, es[0]), es[1..]);
    }
  }

  /**
   After every run, a Create or Update that returns nil leaves the entry at the record's current spec exactly when
   the job it consumed was rendered from that spec, and was not a deletion.
   */
  lemma {:induction false} NilIsCurrentExactly(config: Config, jobs: map<Name, Job>, data: string, es: seq<Event>,
        op: Op, env: Surroundings)
    requires LegalRun(config, Empty(jobs, data).s, es)
    requires var x := PlantAfter(config, Plant(Empty(jobs, data), None), es);
      op != Delete && Legal(x.l.s, Invoke(op, env)) && Called(config, x.l.s, op, env).1 == Done
    ensures var x := PlantAfter(config, Plant(Empty(jobs, data), None), es);
      && Outstanding(x.l.s)
      && (NextPlant(config, x, Invoke(op, env)).entry == Some(env.spec) <==> Made(Named(x.l.s).value) == Some(env.spec))
  {
    RunKeepsCurrent(config, Plant(Empty(jobs, data), None), es);
    var x := PlantAfter(config, Plant(Empty(jobs, data), None), es);
    CallShapes(config, x.l.s, op, env);
  }

  lemma TwoEvents(config: Config, x: Plant, a: Event, b: Event)
    requires Legal(x.l.s, a) && Legal(Step(config, x.l.s, a), b)
    ensures LegalRun(config, x.l.s, [a, b]) && PlantAfter(config, x, [a, b])
      == NextPlant(config, NextPlant(config, x, a), b)
  {
    assert [a, b][1..] == [b] && [b][1..] == [];
    assert PlantAfter(config, NextPlant(config, x, a), [b]) == NextPlant(config, NextPlant(config, x, a), b);
    assert LegalRun(config, Step(config, x.l.s, a), [b]);
  }

  /** A create job for the spec `was`, started and completed. */
  function CreatedAt(was: RecordSpec, n: Name): seq<Event> {
    [Invoke(Create, Surroundings(was, false, false, false, Some(n), None)),
      Report(n, [Condition("Complete", "True", "", "")])]
  }

  /**
   An edit while the create job runs: the Update that consumes it returns nil, and the entry stands at the old spec.
   */
  lemma NilForOldSpec(was: RecordSpec, now: RecordSpec, n: Name)
    requires was != now && n.SlashFree()
    ensures var config, start := Config(NoData, false), Plant(Empty(map[], ""), None);
      var x := PlantAfter(config, start, CreatedAt(was, n));
      && LegalRun(config, start.l.s, CreatedAt(was, n))
      && x.entry == Some(was)
      && Called(config, x.l.s, Update, Surroundings(now, false, false, false, None, None)).1 == Done
  {
    var config, start := Config(NoData, false), Plant(Empty(map[], ""), None);
    var create, report := CreatedAt(was, n)[0], CreatedAt(was, n)[1];
    ParseIdKey(n);
    KeyNotEmpty(n);
    var x := NextPlant(config, start, create);
    assert x.l.s == State(n.Key(), "", map[n := Job("create", was, [])]) && x.l.mine == {n};
    TwoEvents(config, start, create, report);
    assert CreatedAt(was, n) == [create, report];
  }

  /** The keys of all jobs at work, whichever status they are for. */
  ghost function AtWork(jobs: map<Name, Job>): set<string> {
    Unfinished(jobs.Keys, jobs)
  }

  /** A call that does not panic creates no job but the one it names, and does not let go of one at work. */
  lemma JobKeepsZone(config: Config, s: State, op: Op, env: Surroundings)
    requires (forall n <- s.jobs :: n.SlashFree()) && (env.rendered.Some? ==> env.rendered.value.SlashFree())
    requires Called(config, s, op, env).1 != Panic
    ensures var (s', o) := Called(config, s, op, env);
      && ZoneSafe(AtWork(s.jobs), AtWork(s'.jobs), s.id, s'.id) && (forall n <- s'.jobs :: n.SlashFree())
      && (op == Delete && o == Done ==> s'.id == "") && (o != Done ==> Text(o) != "")
  {
    var (s', o) := Called(config, s, op, env);
    PanicsExactly(config, s, op, env);
    ParseIdFails(s.id);
    CallShapes(config, s, op, env);
    forall id <- AtWork(s'.jobs)
      ensures id != "" && id in AtWork(s.jobs) + {s'.id} && (id == s.id ==> s'.id == id)
    {
      var n :| n in s'.jobs && !s'.jobs[n].Finished() && n.Key() == id;
      KeyNotEmpty(n);
      ParseIdKey(n);
    }
  }
}
