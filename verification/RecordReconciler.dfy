/** RecordReconciler.Reconcile as the source runs it: loops over shared status objects, nil-ing, compaction. */
module RecordReconciler {
  import opened Api
  import opened Names
  import opened RecordSync
  import opened Strings
  import Laws = RecordLaws

  class ProviderStatus {
    const key: Name
    var id: string
    var data: string
    var message: string
    var checked: bool

    function View(): Status reads this {
      Status(key, id, data, message)
    }

    constructor (key: Name)
      ensures this.key == key && View() == Fresh(key) && !checked
    {
      this.key, id, data, message, checked := key, "", "", "", false;
    }

    method Success(id: string, data: string)
      modifies this
      ensures View() == Status(key, id, data, "") && checked == old(checked)
    {
      this.id, this.data, message := id, data, "";
    }

    method Error(id: string, data: string, text: string)
      modifies this
      ensures View() == Status(key, id, data, text) && checked == old(checked)
    {
      this.id, this.data, message := id, data, text;
    }
  }

  ghost predicate Apart(objs: seq<ProviderStatus?>) {
    forall i, j :: 0 <= i < j < |objs| && objs[i] != null ==> objs[i] != objs[j]
  }

  ghost predicate Shows(objs: seq<ProviderStatus?>, vs: seq<Status>)
    reads objs
  {
    |objs| == |vs| && forall i :: 0 <= i < |objs| ==> objs[i] != null && objs[i].View() == vs[i]
  }

  lemma {:induction false} FindIndex(ss: seq<Status>, key: Name, j: nat)
    requires j < |ss| && ss[j].key == key && forall q :: 0 <= q < j ==> ss[q].key != key
    ensures Find(ss, key) == Some(ss[j])
  {
    if j > 0 {
      FindIndex(ss[1..], key, j - 1);
    }
  }

  /** One more provider that is not selected changes nothing. */
  lemma VisitSkips(env: Env, ps: seq<ProviderView>, ss: seq<Status>, p: ProviderView)
    requires p.verdict != Selected
    ensures MatchAll(env, ps + [p], ss) == MatchAll(env, ps, ss)
    ensures Added(env, ps + [p], ss) == Added(env, ps, ss)
    ensures VisitCalls(env, ps + [p], ss) == VisitCalls(env, ps, ss)
  {
    assert (ps + [p])[..|ps|] == ps;
  }

  ghost predicate NewKey(ps: seq<ProviderView>, p: ProviderView) {
    forall q <- ps :: q.key != p.key
  }

  function CallSeq(key: Name, op: Option<Op>, s: Status): seq<Call> {
    if op.Some? then [Call(key, op.value, s.id, s.data)] else []
  }

  lemma VisitHits(env: Env, ps: seq<ProviderView>, ss: seq<Status>, p: ProviderView, j: nat)
    requires p.verdict == Selected && NewKey(ps, p) && UniqueKeys(ss)
    requires j < |ss| && ss[j].key == p.key
    ensures MatchAll(env, ps, ss)[j] == ss[j]
    ensures MatchAll(env, ps + [p], ss) == MatchAll(env, ps, ss)[j := Visit(env, p, ss[j])]
    ensures Added(env, ps + [p], ss) == Added(env, ps, ss)
    ensures VisitCalls(env, ps + [p], ss) ==
      VisitCalls(env, ps, ss) + CallSeq(p.key, CallFor(env, p, ss[j].id), ss[j])
  {
    assert (ps + [p])[..|ps|] == ps;
    FindIndex(ss, p.key, j);
    Laws.PickedKey(ps, p.key);
    var a, b := MatchAll(env, ps + [p], ss), MatchAll(env, ps, ss)[j := Visit(env, p, ss[j])];
    forall i | 0 <= i < |ss| ensures a[i] == b[i] {
      if i != j {
        assert ss[i].key != ss[j].key;
      }
    }
  }

  lemma VisitMisses(env: Env, ps: seq<ProviderView>, ss: seq<Status>, p: ProviderView)
    requires p.verdict == Selected && NewKey(ps, p)
    requires forall s <- ss :: s.key != p.key
    ensures MatchAll(env, ps + [p], ss) == MatchAll(env, ps, ss)
    ensures Added(env, ps + [p], ss) == Added(env, ps, ss) + [Visit(env, p, Fresh(p.key))]
    ensures VisitCalls(env, ps + [p], ss) ==
      VisitCalls(env, ps, ss) + CallSeq(p.key, CallFor(env, p, ""), Fresh(p.key))
  {
    assert (ps + [p])[..|ps|] == ps;
    Laws.FindKey(ss, p.key);
    var a, b := MatchAll(env, ps + [p], ss), MatchAll(env, ps, ss);
    forall i | 0 <= i < |ss| ensures a[i] == b[i] {
      assert ss[i] in ss;
    }
  }

  class Record {
    var providers: seq<ProviderStatus?>
    var allReady: bool
    var message: string
    var calls: seq<Call>
    const finalizers: Finalizers

    constructor (statuses: seq<ProviderStatus?>, finalizers: seq<string>)
      ensures providers == statuses && calls == [] && fresh(this.finalizers) && this.finalizers.items == finalizers
    {
      providers, allReady, message, calls := statuses, false, "", [];
      this.finalizers := new Finalizers(finalizers);
    }

    method Find(key: Name) returns (found: ProviderStatus?, ghost at: nat)
      requires null !in providers
      ensures found == null ==> forall j :: 0 <= j < |providers| ==> providers[j].key != key
      ensures found != null ==> at < |providers| && found == providers[at] && found.key == key
    {
      at := 0;
      for i := 0 to |providers|
        invariant forall j :: 0 <= j < i ==> providers[j].key != key
      {
        if providers[i].key == key {
          return providers[i], i;
        }
      }
      found := null;
    }

    /** The body of the matched loop for a provider that selects the record. */
    method VisitOne(env: Env, p: ProviderView, s: ProviderStatus)
      requires s.key == p.key
      modifies this`calls, s
      ensures s.checked && s.View() == Visit(env, p, old(s.View()))
      ensures calls == old(calls) + CallSeq(p.key, CallFor(env, p, old(s.id)), old(s.View()))
    {
      s.checked := true;
      if !env.Ready(p.uid, p.generation) {
        s.message := NOT_READY;
        return;
      }
      var op: Op;
      if env.deleting || p.deleting {
        if s.id == "" {
          s.Success(s.id, s.data);
          return;
        }
        op := Delete;
      } else if s.id == "" {
        op := Create;
      } else {
        op := Update;
      }
      calls := calls + [Call(p.key, op, s.id, s.data)];
      var a := env.AnswerOf(p.key);
      if a.ok {
        s.Success(a.id, a.data);
      } else {
        s.Error(a.id, a.data, a.error);
      }
    }

    /** The status objects, their values, and which of them are marked Checked; the list only ever grows from `was`. */
    ghost predicate State(was: seq<ProviderStatus?>, vs: seq<Status>, marks: seq<bool>)
      reads this, providers
    {
      && Apart(providers) && was <= providers && Shows(providers, vs)
      && |marks| == |vs| && forall j :: 0 <= j < |marks| ==> providers[j].checked == marks[j]
    }

    method VisitNew(env: Env, p: ProviderView, ghost was: seq<ProviderStatus?>, ghost vs: seq<Status>,
          ghost marks: seq<bool>)
      requires State(was, vs, marks)
      modifies this`providers, this`calls
      ensures State(was, vs + [Visit(env, p, Fresh(p.key))], marks + [true])
      ensures |providers| == |old(providers)| + 1 && old(providers) < providers && fresh(providers[|old(providers)|])
      ensures calls == old(calls) + CallSeq(p.key, CallFor(env, p, ""), Fresh(p.key))
    {
      var s := new ProviderStatus(p.key);
      providers := providers + [s];
      VisitOne(env, p, s);
    }

    method VisitOld(env: Env, p: ProviderView, s: ProviderStatus, ghost at: nat,
                    ghost was: seq<ProviderStatus?>, ghost vs: seq<Status>, ghost marks: seq<bool>)
      requires State(was, vs, marks)
      requires at < |providers| && providers[at] == s && s.key == p.key
      modifies this`calls, s
      ensures State(was, vs[at := Visit(env, p, vs[at])], marks[at := true])
      ensures calls == old(calls) + CallSeq(p.key, CallFor(env, p, vs[at].id), vs[at])
    {
      VisitOne(env, p, s);
    }

    method VisitSelected(env: Env, p: ProviderView, ghost ps: seq<ProviderView>, ghost ss: seq<Status>,
                         ghost was: seq<ProviderStatus?>, ghost vs: seq<Status>, ghost marks: seq<bool>)
      returns (ghost vs': seq<Status>, ghost marks': seq<bool>)
      requires NewKey(ps, p) && p.verdict == Selected && UniqueKeys(ss)
      requires State(was, vs, marks) && Tally(env, ps, ss, vs, marks, calls)
      modifies this`providers, this`calls, providers
      ensures State(was, vs', marks') && Tally(env, ps + [p], ss, vs', marks', calls)
      ensures old(providers) <= providers && forall j :: |old(providers)| <= j < |providers| ==> fresh(providers[j])
    {
      var s, at := Find(p.key);
      if s == null {
        assert forall j :: 0 <= j < |vs| ==> vs[j].key == providers[j].key;
        TallyNew(env, ps, ss, p, vs, marks, calls);
        VisitNew(env, p, was, vs, marks);
        return vs + [Visit(env, p, Fresh(p.key))], marks + [true];
      } else {
        TallyOld(env, ps, ss, p, at, vs, marks, calls);
        VisitOld(env, p, s, at, was, vs, marks);
        return vs[at := Visit(env, p, vs[at])], marks[at := true];
      }
    }

    method VisitMatched(env: Env, ghost ss: seq<Status>)
          returns (ok: bool, ghost vs: seq<Status>, ghost marks: seq<bool>)
      requires env.Distinct() && UniqueKeys(ss)
      requires Apart(providers) && Shows(providers, ss) && calls == []
      requires forall s <- providers :: !s.checked
      modifies this`providers, this`calls, providers
      ensures ok <==> env.WellFormed()
      ensures State(old(providers), vs, marks)
      ensures ok ==> Tally(env, env.providers, ss, vs, marks, calls)
      ensures !ok ==> exists n :: StoppedAt(env, ss, calls, n)
      ensures forall j :: |ss| <= j < |providers| ==> fresh(providers[j])
    {
      ghost var was := providers;
      vs, marks := ss, seq(|ss|, j => false);
      TallyStart(env, ss, marks);
      for i := 0 to |env.providers|
        invariant forall p <- env.providers[..i] :: p.verdict != Malformed
        invariant State(was, vs, marks)
        invariant Tally(env, env.providers[..i], ss, vs, marks, calls)
        invariant forall j :: |ss| <= j < |providers| ==> fresh(providers[j])
      {
        var p := env.providers[i];
        ghost var ps := env.providers[..i];
        assert env.providers[..i + 1] == ps + [p];
        if p.verdict == Malformed {
          assert StoppedAt(env, ss, calls, i);
          return false, vs, marks;
        }
        if p.verdict == NotSelected {
          TallySkips(env, ps, ss, p, vs, marks, calls);
          continue;
        }
        vs, marks := VisitSelected(env, p, ps, ss, was, vs, marks);
      }
      assert env.providers[..|env.providers|] == env.providers;
      return true, vs, marks;
    }

    /** The unmatched loop's work on one status; `drop` asks for the entry to be nil-ed. */
    method SweepOne(env: Env, s: ProviderStatus) returns (drop: bool)
      modifies this`calls, s
      ensures drop <==> Sweep(env, old(s.View())) == None
      ensures !drop ==> s.View() == Sweep(env, old(s.View())).value
      ensures s.checked == old(s.checked)
      ensures calls == old(calls) + SweepCallSeq(env, old(s.View()))
    {
      var f := env.FetchOf(s.key);
      if f.Failed? {
        s.Error(s.id, s.data, f.error);
        return false;
      }
      if s.id != "" && f.Found? {
        if !env.Ready(f.uid, f.generation) {
          s.message := NOT_READY;
          return false;
        }
        calls := calls + [Call(s.key, Delete, s.id, s.data)];
        var a := env.AnswerOf(s.key);
        if !a.ok {
          s.Error(a.id, a.data, a.error);
          return false;
        }
      }
      return true;
    }

    /** The state after the unmatched loop went over the first `i` of the statuses `was`. */
    ghost predicate Swept(env: Env, was: seq<ProviderStatus?>, vs: seq<Status>, marks: seq<bool>, i: nat)
      reads this, was, providers
    {
      && Apart(was) && |providers| == |was| == |vs| == |marks| && i <= |vs|
      && (forall j :: 0 <= j < i ==> SlotShows(providers[j], was[j], SweptOne(env, vs[j], marks[j])))
      && (forall j :: i <= j < |vs| ==> SlotShows(providers[j], was[j], Some(vs[j])) && was[j].checked == marks[j])
    }

    method SweepAt(env: Env, ghost was: seq<ProviderStatus?>, ghost vs: seq<Status>, ghost marks: seq<bool>, i: nat)
      returns (dropped: bool)
      requires i < |vs| && Swept(env, was, vs, marks, i)
      modifies this`providers, this`calls, providers[i]
      ensures Swept(env, was, vs, marks, i + 1)
      ensures dropped <==> SweptOne(env, vs[i], marks[i]) == None
      ensures calls == old(calls) + if marks[i] then [] else SweepCallSeq(env, vs[i])
    {
      var s := providers[i];
      if s.checked {
        return false;
      }
      dropped := SweepOne(env, s);
      if dropped {
        providers := providers[i := null];
      }
    }

    method SweepLoop(env: Env, ghost was: seq<ProviderStatus?>, ghost vs: seq<Status>, ghost marks: seq<bool>)
          returns (count: int)
      requires |marks| == |vs| && was == providers && Swept(env, was, vs, marks, 0)
      modifies this`providers, this`calls, providers
      ensures Swept(env, was, vs, marks, |vs|)
      ensures count >= 0 && SweepTally(env, vs, marks, |vs|, count, old(calls), calls)
    {
      ghost var start, kept := calls, 0;
      count := |providers|;
      for i := 0 to |providers|
        invariant Swept(env, was, vs, marks, i)
        invariant SweepTally(env, vs, marks, i, kept, start, calls)
        invariant count == |was| - i + kept
      {
        SweptStep(env, vs, marks, i, kept, start, calls);
        assert providers[i] in was;
        var dropped := SweepAt(env, was, vs, marks, i);
        if dropped {
          count := count - 1;
        } else {
          kept := kept + 1;
        }
      }
    }

    method SweepUnmatched(env: Env, ghost vs: seq<Status>, ghost marks: seq<bool>)
          returns (count: int, ghost os: seq<Option<Status>>)
      requires |marks| == |vs| && State(providers, vs, marks)
      modifies this`providers, this`calls, providers
      ensures os == SweptAll(env, vs, marks) && ShowsSome(providers, os)
      ensures forall j :: 0 <= j < |providers| ==> providers[j] == null || providers[j] in old(providers)
      ensures count == |Somes(os)|
      ensures calls == old(calls) + SweptCalls(env, vs, marks)
    {
      count := SweepLoop(env, providers, vs, marks);
      assert vs[..|vs|] == vs && marks[..|vs|] == marks;
      os := SweptAll(env, vs, marks);
      SweptPointwise(env, vs, marks);
    }

    method Compact(count: int, ghost os: seq<Option<Status>>)
      requires ShowsSome(providers, os) && count == |Somes(os)|
      modifies this`providers
      ensures Shows(providers, Somes(os))
      ensures forall o <- providers :: o in old(providers)
    {
      AllSomes(os);
      if count != |providers| {
        var kept: seq<ProviderStatus?> := [];
        for i := 0 to |providers|
          invariant providers == old(providers)
          invariant Shows(kept, Somes(os[..i]))
          invariant forall o <- kept :: o in providers
        {
          assert os[..i + 1][..i] == os[..i];
          if providers[i] != null {
            kept := kept + [providers[i]];
          }
        }
        assert os[..|os|] == os;
        providers := kept;
      }
    }

    method Summarise(ghost vs: seq<Status>)
      requires Shows(providers, vs)
      modifies this`allReady, this`message
      ensures allReady <==> Complaints(vs) == []
      ensures message == Summary(Complaints(vs))
    {
      allReady := true;
      message := "";
      for i := 0 to |providers|
        invariant allReady <==> Complaints(vs[..i]) == []
        invariant message == Lines(Complaints(vs[..i]))
      {
        ghost var c := Complaints(vs[..i]);
        assert vs[..i + 1][..i] == vs[..i];
        if providers[i].message != "" {
          allReady := false;
          message := message + providers[i].message + "\n";
          assert Complaints(vs[..i + 1]) == c + [vs[i].message];
          LinesStep(c, vs[i].message);
        } else {
          assert Complaints(vs[..i + 1]) == c;
        }
      }
      assert vs[..|vs|] == vs;
      TrimmedLines(Complaints(vs));
      message := TrimSuffix(message, "\n");
    }

    method Clean(env: Env, ghost vs: seq<Status>, ghost marks: seq<bool>) returns (ghost after: seq<Status>)
      requires |marks| == |vs| && State(providers, vs, marks)
      modifies this, providers
      ensures after == Somes(SweptAll(env, vs, marks)) && calls == old(calls) + SweptCalls(env, vs, marks)
      ensures Shows(providers, after)
      ensures message == Summary(Complaints(after)) && (allReady <==> Complaints(after) == [])
    {
      var count;
      ghost var os;
      count, os := SweepUnmatched(env, vs, marks);
      after := Somes(os);
      Compact(count, os);
      Summarise(after);
    }

    /** Everything up to the status write: the two loops, the compaction and the summary. */
    method SyncLedger(env: Env, ghost ss: seq<Status>) returns (saved: bool, ghost after: seq<Status>)
      requires env.Distinct() && UniqueKeys(ss)
      requires Apart(providers) && Shows(providers, ss) && calls == []
      requires forall s <- providers :: !s.checked
      modifies this, providers
      ensures saved <==> env.WellFormed()
      ensures saved ==> after == Reconciled(env, ss) && calls == AllCalls(env, ss)
      ensures !saved ==> exists n :: StoppedAt(env, ss, calls, n)
      ensures saved ==> Shows(providers, after)
      ensures saved ==> message == Summary(Complaints(after)) && (allReady <==> Complaints(after) == [])
    {
      ghost var vs, marks;
      saved, vs, marks := VisitMatched(env, ss);
      after := ss;
      if saved {
        SweptIsReconciled(env, ss, vs, marks, calls);
        after := Clean(env, vs, marks);
      }
    }

    /**
     The reconcile of a record whose finalizer is already set. `saved` tells whether the status write is
     reached; without it the changed status objects are thrown away with the in-memory record.
     */
    method Reconcile(env: Env, ghost ss: seq<Status>) returns (saved: bool, ghost after: seq<Status>)
      requires env.Distinct() && UniqueKeys(ss)
      requires Apart(providers) && Shows(providers, ss) && calls == []
      requires forall s <- providers :: !s.checked
      modifies this, providers, finalizers
      ensures saved <==> env.WellFormed()
      ensures saved ==> after == Reconciled(env, ss) && calls == AllCalls(env, ss)
      ensures !saved ==> exists n :: StoppedAt(env, ss, calls, n)
      ensures saved ==> Shows(providers, after)
      ensures saved ==> message == Summary(Complaints(after)) && (allReady <==> Complaints(after) == [])
      ensures finalizers.items ==
        if saved && allReady && env.deleting then RemoveFinalizer(old(finalizers.items)) else old(finalizers.items)
    {
      saved, after := SyncLedger(env, ss);
      if saved && allReady && env.deleting {
        label before:
        finalizers.Remove();
        assert Shows(providers, after) by {
          assert forall i :: 0 <= i < |providers| ==> providers[i].View() == old@before(providers[i].View());
        }
      }
    }
  }

  lemma {:induction false} SomesConcat<T>(a: seq<Option<T>>, b: seq<Option<T>>)
    ensures Somes(a + b) == Somes(a) + Somes(b)
  {
    if b == [] {
      assert a + b == a;
    } else {
      SomesConcat(a, b[..|b| - 1]);
      assert (a + b)[..|a + b| - 1] == a + b[..|b| - 1];
    }
  }

  lemma {:induction false} SweptConcat(env: Env, vs: seq<Status>, marks: seq<bool>, ws: seq<Status>, ns: seq<bool>)
    requires |marks| == |vs| && |ns| == |ws|
    ensures SweptAll(env, vs + ws, marks + ns) == SweptAll(env, vs, marks) + SweptAll(env, ws, ns)
    ensures SweptCalls(env, vs + ws, marks + ns) == SweptCalls(env, vs, marks) + SweptCalls(env, ws, ns)
  {
    if ws == [] {
      assert vs + ws == vs && marks + ns == marks;
    } else {
      var k := |ws| - 1;
      SweptConcat(env, vs, marks, ws[..k], ns[..k]);
      assert (vs + ws)[..|vs + ws| - 1] == vs + ws[..k];
      assert (marks + ns)[..|vs + ws| - 1] == marks + ns[..k];
    }
  }

  lemma {:induction false} SweptMarked(env: Env, vs: seq<Status>, marks: seq<bool>)
    requires |marks| == |vs| && forall j :: 0 <= j < |marks| ==> marks[j]
    ensures Somes(SweptAll(env, vs, marks)) == vs && SweptCalls(env, vs, marks) == []
  {
    if vs != [] {
      var k := |vs| - 1;
      SweptMarked(env, vs[..k], marks[..k]);
      assert SweptAll(env, vs, marks)[..k] == SweptAll(env, vs[..k], marks[..k]);
    }
  }

  lemma {:induction false} SweptSettles(env: Env, ss: seq<Status>, marks: seq<bool>)
    requires |marks| == |ss| && forall j :: 0 <= j < |ss| ==> (marks[j] <==> Picked(env.providers, ss[j].key).Some?)
    ensures SweptAll(env, MatchAll(env, env.providers, ss), marks) == SettleAll(env, ss)
    ensures SweptCalls(env, MatchAll(env, env.providers, ss), marks) == SweepAllCalls(env, ss)
  {
    if ss != [] {
      var n := |ss| - 1;
      SweptSettles(env, ss[..n], marks[..n]);
      assert MatchAll(env, env.providers, ss)[..n] == MatchAll(env, env.providers, ss[..n]);
      assert SettleAll(env, ss)[..n] == SettleAll(env, ss[..n]);
    }
  }

  /** The two loops together compute the specified ledger and make the specified calls. */
  lemma SweptIsReconciled(env: Env, ss: seq<Status>, vs: seq<Status>, marks: seq<bool>, calls: seq<Call>)
    requires Tally(env, env.providers, ss, vs, marks, calls)
    ensures Somes(SweptAll(env, vs, marks)) == Reconciled(env, ss)
    ensures calls + SweptCalls(env, vs, marks) == AllCalls(env, ss)
  {
    var old', new' := MatchAll(env, env.providers, ss), Added(env, env.providers, ss);
    var a, b := marks[..|ss|], marks[|ss|..];
    assert marks == a + b;
    SweptConcat(env, old', a, new', b);
    SweptSettles(env, ss, a);
    SweptMarked(env, new', b);
    SomesConcat(SweptAll(env, old', a), SweptAll(env, new', b));
  }

  lemma LinesStep(messages: seq<string>, m: string)
    ensures Lines(messages + [m]) == Lines(messages) + m + "\n"
  {
    assert (messages + [m])[..|messages|] == messages;
  }

  ghost predicate SlotShows(slot: ProviderStatus?, was: ProviderStatus?, o: Option<Status>)
    reads slot
  {
    if o == None then slot == null else slot != null && slot == was && slot.View() == o.value
  }

  ghost predicate ShowsSome(objs: seq<ProviderStatus?>, os: seq<Option<Status>>)
    reads objs
  {
    |objs| == |os| && forall i :: 0 <= i < |objs| ==>
      if os[i] == None then objs[i] == null else objs[i] != null && objs[i].View() == os[i].value
  }

  function SweepCallSeq(env: Env, s: Status): seq<Call> {
    if SweepCalls(env, s) then [Call(s.key, Delete, s.id, s.data)] else []
  }

  function SweptOne(env: Env, v: Status, mark: bool): Option<Status> {
    if mark then Some(v) else Sweep(env, v)
  }

  function SweptAll(env: Env, vs: seq<Status>, marks: seq<bool>): (r: seq<Option<Status>>)
    requires |marks| == |vs|
    ensures |r| == |vs|
  {
    if vs == [] then []
    else
      var n := |vs| - 1;
      SweptAll(env, vs[..n], marks[..n]) + [SweptOne(env, vs[n], marks[n])]
  }

  function SweptCalls(env: Env, vs: seq<Status>, marks: seq<bool>): seq<Call>
    requires |marks| == |vs|
  {
    if vs == [] then []
    else
      var n := |vs| - 1;
      SweptCalls(env, vs[..n], marks[..n]) + if marks[n] then [] else SweepCallSeq(env, vs[n])
  }

  ghost predicate SweepTally(env: Env, vs: seq<Status>, marks: seq<bool>, i: nat, kept: nat, start: seq<Call>,
        calls: seq<Call>) {
    && |marks| == |vs| && i <= |vs|
    && kept == |Somes(SweptAll(env, vs[..i], marks[..i]))|
    && calls == start + SweptCalls(env, vs[..i], marks[..i])
  }

  lemma SweptStep(env: Env, vs: seq<Status>, marks: seq<bool>, i: nat, kept: nat, start: seq<Call>, calls: seq<Call>)
    requires SweepTally(env, vs, marks, i, kept, start, calls) && i < |vs|
    ensures SweepTally(env, vs, marks, i + 1,
      if SweptOne(env, vs[i], marks[i]) == None then kept else kept + 1,
      start, calls + if marks[i] then [] else SweepCallSeq(env, vs[i]))
  {
    assert vs[..i + 1][..i] == vs[..i] && marks[..i + 1][..i] == marks[..i];
    var before, after := SweptAll(env, vs[..i], marks[..i]), SweptAll(env, vs[..i + 1], marks[..i + 1]);
    assert after[..i] == before;
  }

  lemma {:induction false} SweptPointwise(env: Env, vs: seq<Status>, marks: seq<bool>)
    requires |marks| == |vs|
    ensures forall j :: 0 <= j < |vs| ==> SweptAll(env, vs, marks)[j] == SweptOne(env, vs[j], marks[j])
  {
    if vs != [] {
      SweptPointwise(env, vs[..|vs| - 1], marks[..|vs| - 1]);
    }
  }

  /** Compaction is skipped exactly when no entry is nil. */
  lemma {:induction false} AllSomes<T>(os: seq<Option<T>>)
    ensures |Somes(os)| <= |os|
    ensures |Somes(os)| == |os| ==> forall i :: 0 <= i < |os| ==> os[i] == Some(Somes(os)[i])
  {
    if os != [] {
      AllSomes(os[..|os| - 1]);
    }
  }

  /** What the matched loop has computed after the providers `ps`. */
  ghost predicate Tally(env: Env, ps: seq<ProviderView>, ss: seq<Status>, vs: seq<Status>, marks: seq<bool>,
        calls: seq<Call>) {
    && vs == MatchAll(env, ps, ss) + Added(env, ps, ss)
    && |marks| == |vs|
    && (forall j :: 0 <= j < |vs| ==> (marks[j] <==> j >= |ss| || Picked(ps, ss[j].key).Some?))
    && calls == VisitCalls(env, ps, ss)
  }

  lemma TallyStart(env: Env, ss: seq<Status>, marks: seq<bool>)
    requires |marks| == |ss| && forall j :: 0 <= j < |marks| ==> !marks[j]
    ensures Tally(env, [], ss, ss, marks, [])
  {
    assert MatchAll(env, [], ss) + Added(env, [], ss) == ss;
  }

  lemma TallySkips(env: Env, ps: seq<ProviderView>, ss: seq<Status>, p: ProviderView,
                   vs: seq<Status>, marks: seq<bool>, calls: seq<Call>)
    requires Tally(env, ps, ss, vs, marks, calls) && p.verdict != Selected
    ensures Tally(env, ps + [p], ss, vs, marks, calls)
  {
    VisitSkips(env, ps, ss, p);
    assert (ps + [p])[..|ps|] == ps;
  }

  lemma TallyNew(env: Env, ps: seq<ProviderView>, ss: seq<Status>, p: ProviderView,
                 vs: seq<Status>, marks: seq<bool>, calls: seq<Call>)
    requires Tally(env, ps, ss, vs, marks, calls) && p.verdict == Selected && NewKey(ps, p)
    requires forall j :: 0 <= j < |vs| ==> vs[j].key != p.key
    ensures Tally(env, ps + [p], ss, vs + [Visit(env, p, Fresh(p.key))], marks + [true],
                  calls + CallSeq(p.key, CallFor(env, p, ""), Fresh(p.key)))
  {
    forall o <- ss ensures o.key != p.key {
      var j :| 0 <= j < |ss| && ss[j] == o;
      assert vs[j].key == o.key;
    }
    VisitMisses(env, ps, ss, p);
    assert (ps + [p])[..|ps|] == ps;
  }

  lemma TallyOld(env: Env, ps: seq<ProviderView>, ss: seq<Status>, p: ProviderView, at: nat,
                 vs: seq<Status>, marks: seq<bool>, calls: seq<Call>)
    requires Tally(env, ps, ss, vs, marks, calls) && p.verdict == Selected && NewKey(ps, p) && UniqueKeys(ss)
    requires at < |vs| && vs[at].key == p.key
    ensures Tally(env, ps + [p], ss, vs[at := Visit(env, p, vs[at])], marks[at := true],
                  calls + CallSeq(p.key, CallFor(env, p, vs[at].id), vs[at]))
  {
    AddedIsNew(env, ps, ss, p, at);
    VisitHits(env, ps, ss, p, at);
    assert (ps + [p])[..|ps|] == ps;
  }

  lemma {:induction false} AddedKeys(env: Env, ps: seq<ProviderView>, ss: seq<Status>)
    ensures forall s <- Added(env, ps, ss) :: exists p <- ps :: p.key == s.key
  {
    if ps != [] {
      AddedKeys(env, ps[..|ps| - 1], ss);
      assert ps == ps[..|ps| - 1] + [ps[|ps| - 1]];
    }
  }

  /** An entry found for a provider not yet visited is one of the original entries. */
  lemma AddedIsNew(env: Env, ps: seq<ProviderView>, ss: seq<Status>, p: ProviderView, at: nat)
    requires NewKey(ps, p)
    requires at < |MatchAll(env, ps, ss) + Added(env, ps, ss)|
    requires (MatchAll(env, ps, ss) + Added(env, ps, ss))[at].key == p.key
    ensures at < |ss|
  {
    AddedKeys(env, ps, ss);
  }
}
