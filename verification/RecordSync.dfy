/**
 What one Record reconcile does to the Record's ledger of per-provider statuses, as a value: every listed
 status is revisited or swept, and statuses for newly selected providers are appended.
 */
module RecordSync {
  import opened Api
  import opened Names
  import opened Strings

  const NOT_READY := "provider not ready"

  /** How ProviderSelector.Matches judges the record; a malformed label selector is an error. */
  datatype Verdict = Selected | NotSelected | Malformed

  datatype ProviderView = ProviderView(key: Name, uid: nat, generation: nat, deleting: bool, verdict: Verdict)

  /** The outcome of getProvider for a status whose provider was not selected. */
  datatype Fetch = Missing | Failed(error: string) | Found(uid: nat, generation: nat)

  /** What a backend call leaves in its payload, and whether it returned nil. */
  datatype Answer = Answer(ok: bool, id: string, data: string, error: string)

  datatype Op = Create | Update | Delete

  datatype Call = Call(key: Name, op: Op, id: string, data: string)

  /** Everything outside the Record that one reconcile reads. */
  datatype Env = Env(
    deleting: bool, providers: seq<ProviderView>, cache: map<nat, Cached>,
    fetched: map<Name, Fetch>, answers: map<Name, Answer>)
  {
    function FetchOf(key: Name): Fetch {
      if key in fetched then fetched[key] else Missing
    }

    function AnswerOf(key: Name): Answer {
      if key in answers then answers[key] else Answer(false, "", "", "no answer")
    }

    predicate Ready(uid: nat, generation: nat) {
      uid in cache && cache[uid].generation == generation
    }

    ghost predicate WellFormed() {
      forall p <- providers :: p.verdict != Malformed
    }

    /** The lists hold every provider once. */
    ghost predicate Distinct() {
      forall i, j :: 0 <= i < j < |providers| ==> providers[i].key != providers[j].key
    }
  }

  ghost predicate UniqueKeys(ss: seq<Status>) {
    forall i, j :: 0 <= i < j < |ss| ==> ss[i].key != ss[j].key
  }

  function Fresh(key: Name): Status {
    Status(key, "", "", "")
  }

  /** FindProviderStatus. */
  function Find(ss: seq<Status>, key: Name): Option<Status> {
    if ss == [] then None else if ss[0].key == key then Some(ss[0]) else Find(ss[1..], key)
  }

  /** The selected provider with this key, if any. */
  function Picked(ps: seq<ProviderView>, key: Name): Option<ProviderView> {
    if ps == [] then None
    else
      var last := ps[|ps| - 1];
      if last.key == key && last.verdict == Selected then Some(last) else Picked(ps[..|ps| - 1], key)
  }

  function Took(s: Status, a: Answer): Status {
    Status(s.key, a.id, a.data, if a.ok then "" else a.error)
  }

  /** The backend call a selected provider gets for an entry with this id. */
  function CallFor(env: Env, p: ProviderView, id: string): Option<Op> {
    if !env.Ready(p.uid, p.generation) then None
    else if env.deleting || p.deleting then if id == "" then None else Some(Delete)
    else if id == "" then Some(Create) else Some(Update)
  }

  function Visit(env: Env, p: ProviderView, s: Status): Status {
    if !env.Ready(p.uid, p.generation) then s.(message := NOT_READY)
    else if CallFor(env, p, s.id) == None then s.(message := "")
    else Took(s, env.AnswerOf(p.key))
  }

  /** A status nobody selects is cleaned up: Delete is called when it still holds an id at an existing provider. */
  function SweepCalls(env: Env, s: Status): bool {
    var f := env.FetchOf(s.key);
    s.id != "" && f.Found? && env.Ready(f.uid, f.generation)
  }

  function Sweep(env: Env, s: Status): Option<Status> {
    var f := env.FetchOf(s.key);
    if f.Failed? then Some(s.(message := f.error))
    else if s.id == "" || f.Missing? then None
    else if !env.Ready(f.uid, f.generation) then Some(s.(message := NOT_READY))
    else
      var a := env.AnswerOf(s.key);
      if a.ok then None else Some(Took(s, a))
  }

  /** An old status after visiting the providers `ps`. */
  function Matched(env: Env, ps: seq<ProviderView>, s: Status): Status {
    match Picked(ps, s.key)
    case None => s
    case Some(p) => Visit(env, p, s)
  }

  function MatchAll(env: Env, ps: seq<ProviderView>, ss: seq<Status>): (r: seq<Status>)
    ensures |r| == |ss|
  {
    seq(|ss|, i requires 0 <= i < |ss| => Matched(env, ps, ss[i]))
  }

  /** The statuses appended for selected providers that had none. */
  function Added(env: Env, ps: seq<ProviderView>, ss: seq<Status>): seq<Status> {
    if ps == [] then []
    else
      var last := ps[|ps| - 1];
      Added(env, ps[..|ps| - 1], ss) +
      if last.verdict == Selected && Find(ss, last.key) == None then [Visit(env, last, Fresh(last.key))] else []
  }

  function StatusFor(ss: seq<Status>, key: Name): Status {
    match Find(ss, key)
    case None => Fresh(key)
    case Some(s) => s
  }

  function VisitCalls(env: Env, ps: seq<ProviderView>, ss: seq<Status>): seq<Call> {
    if ps == [] then []
    else
      var last := ps[|ps| - 1];
      var s := StatusFor(ss, last.key);
      var op := CallFor(env, last, s.id);
      VisitCalls(env, ps[..|ps| - 1], ss) +
      if last.verdict == Selected && op.Some? then [Call(last.key, op.value, s.id, s.data)] else []
  }

  /** What remains of one old status. */
  function Settle(env: Env, s: Status): Option<Status> {
    if Picked(env.providers, s.key).Some? then Some(Matched(env, env.providers, s)) else Sweep(env, s)
  }

  function Somes<T>(os: seq<Option<T>>): seq<T> {
    if os == [] then []
    else Somes(os[..|os| - 1]) + match os[|os| - 1] case None => [] case Some(v) => [v]
  }

  function SettleAll(env: Env, ss: seq<Status>): (r: seq<Option<Status>>)
    ensures |r| == |ss|
  {
    seq(|ss|, i requires 0 <= i < |ss| => Settle(env, ss[i]))
  }

  function SweepAllCalls(env: Env, ss: seq<Status>): seq<Call> {
    if ss == [] then []
    else
      var s := ss[|ss| - 1];
      SweepAllCalls(env, ss[..|ss| - 1]) +
      if Picked(env.providers, s.key) == None && SweepCalls(env, s) then [Call(s.key, Delete, s.id, s.data)] else []
  }

  /** The whole ledger after one reconcile: old statuses first and in order, then the new ones. */
  function Reconciled(env: Env, ss: seq<Status>): seq<Status> {
    Somes(SettleAll(env, ss)) + Added(env, env.providers, ss)
  }

  function AllCalls(env: Env, ss: seq<Status>): seq<Call> {
    VisitCalls(env, env.providers, ss) + SweepAllCalls(env, ss)
  }

  /** The calls made before the malformed selector of provider `n` ended the reconcile, with nothing saved. */
  ghost predicate StoppedAt(env: Env, ss: seq<Status>, calls: seq<Call>, n: nat) {
    && n < |env.providers| && env.providers[n].verdict == Malformed
    && (forall i :: 0 <= i < n ==> env.providers[i].verdict != Malformed)
    && calls == VisitCalls(env, env.providers[..n], ss)
  }

  /** The messages of the statuses that are not ready, in order. */
  function Complaints(ss: seq<Status>): seq<string> {
    if ss == [] then []
    else
      var s := ss[|ss| - 1];
      Complaints(ss[..|ss| - 1]) + if s.message != "" then [s.message] else []
  }

  function Summary(messages: seq<string>): string {
    if messages == [] then "" else Join(messages, '\n')
  }

  function Lines(messages: seq<string>): string {
    if messages == [] then "" else Lines(messages[..|messages| - 1]) + messages[|messages| - 1] + "\n"
  }

  lemma {:induction false} LinesIsSummary(messages: seq<string>)
    ensures Lines(messages) == if messages == [] then "" else Summary(messages) + "\n"
  {
    if messages != [] {
      var front, last := messages[..|messages| - 1], messages[|messages| - 1];
      LinesIsSummary(front);
      if front != [] {
        JoinAppend(front, [last], '\n');
        assert messages == front + [last];
      }
    }
  }

  /** Trimming one newline from the accumulated text leaves the messages joined by newlines. */
  lemma TrimmedLines(messages: seq<string>)
    ensures TrimSuffix(Lines(messages), "\n") == Summary(messages)
  {
    LinesIsSummary(messages);
    if messages != [] {
      var text := Summary(messages) + "\n";
      assert text[|text| - 1..] == "\n";
    }
  }

  lemma {:induction false} NoComplaints(ss: seq<Status>)
    ensures Complaints(ss) == [] <==> forall s <- ss :: s.message == ""
  {
    if ss != [] {
      NoComplaints(ss[..|ss| - 1]);
      assert ss == ss[..|ss| - 1] + [ss[|ss| - 1]];
    }
  }
}
