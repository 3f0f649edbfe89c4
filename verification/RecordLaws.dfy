/** What a Record reconcile guarantees about the ledger, the readiness summary, and the finalizer. */
module RecordLaws {
  import opened Api
  import opened Names
  import opened RecordSync

  /** The reconcile seen from one provider key: an independent description of the result. */
  function After(env: Env, key: Name, was: Option<Status>): Option<Status> {
    match Picked(env.providers, key)
    case Some(p) => Some(Visit(env, p, if was.Some? then was.value else Fresh(key)))
    case None => if was.Some? then Sweep(env, was.value) else None
  }

  lemma {:induction false} FindKey(ss: seq<Status>, key: Name)
    ensures Find(ss, key).Some? ==> Find(ss, key).value in ss && Find(ss, key).value.key == key
    ensures Find(ss, key) == None <==> forall s <- ss :: s.key != key
  {
    if ss != [] {
      FindKey(ss[1..], key);
      assert ss == [ss[0]] + ss[1..];
    }
  }

  lemma {:induction false} FindMember(ss: seq<Status>, s: Status)
    requires UniqueKeys(ss) && s in ss
    ensures Find(ss, s.key) == Some(s)
  {
    if ss[0] != s {
      var i :| 0 <= i < |ss| && ss[i] == s;
      assert s == ss[1..][i - 1];
      FindMember(ss[1..], s);
    }
  }

  lemma {:induction false} FindConcat(a: seq<Status>, b: seq<Status>, key: Name)
    ensures Find(a + b, key) == if Find(a, key).Some? then Find(a, key) else Find(b, key)
  {
    if a == [] {
      assert a + b == b;
    } else {
      FindConcat(a[1..], b, key);
      assert (a + b)[1..] == a[1..] + b;
    }
  }

  lemma {:induction false} UniqueConcat(a: seq<Status>, b: seq<Status>)
    requires UniqueKeys(a) && UniqueKeys(b)
    requires forall s <- b :: Find(a, s.key) == None
    ensures UniqueKeys(a + b)
  {
    var c := a + b;
    forall i, j | 0 <= i < j < |c| ensures c[i].key != c[j].key {
      if i < |a| <= j {
        assert c[j] in b;
        FindKey(a, c[j].key);
        assert c[i] in a;
      }
    }
  }

  lemma {:induction false} PickedKey(ps: seq<ProviderView>, key: Name)
    ensures Picked(ps, key).Some? ==>
      var p := Picked(ps, key).value; p in ps && p.key == key && p.verdict == Selected
    ensures Picked(ps, key) == None <==> forall p <- ps :: p.key == key ==> p.verdict != Selected
  {
    if ps != [] {
      PickedKey(ps[..|ps| - 1], key);
      assert ps == ps[..|ps| - 1] + [ps[|ps| - 1]];
    }
  }

  lemma {:induction false} PickedMember(ps: seq<ProviderView>, p: ProviderView)
    requires forall i, j :: 0 <= i < j < |ps| ==> ps[i].key != ps[j].key
    requires p in ps && p.verdict == Selected
    ensures Picked(ps, p.key) == Some(p)
  {
    var front := ps[..|ps| - 1];
    if ps[|ps| - 1] != p {
      var i :| 0 <= i < |ps| && ps[i] == p;
      assert front[i] == p;
      PickedMember(front, p);
    }
  }

  lemma SweepKeepsKey(env: Env, s: Status)
    ensures Settle(env, s).Some? ==> Settle(env, s).value.key == s.key
  {
    PickedKey(env.providers, s.key);
  }

  lemma SettleFront(env: Env, ss: seq<Status>)
    requires ss != []
    ensures SettleAll(env, ss)[..|ss| - 1] == SettleAll(env, ss[..|ss| - 1])
    ensures Somes(SettleAll(env, ss)) == Somes(SettleAll(env, ss[..|ss| - 1])) + Somes([Settle(env, ss[|ss| - 1])])
  {
    assert SettleAll(env, ss)[..|ss| - 1] == SettleAll(env, ss[..|ss| - 1]);
  }

  lemma {:induction false} FindSettled(env: Env, ss: seq<Status>, key: Name)
    requires UniqueKeys(ss)
    ensures Find(Somes(SettleAll(env, ss)), key) == match Find(ss, key) case None => None case Some(s) => Settle(env, s)
    ensures UniqueKeys(Somes(SettleAll(env, ss)))
  {
    if ss != [] {
      var front, last := ss[..|ss| - 1], ss[|ss| - 1];
      assert ss == front + [last];
      var a, b := Somes(SettleAll(env, front)), Somes([Settle(env, last)]);
      SettleFront(env, ss);
      FindSettled(env, front, key);
      FindConcat(front, [last], key);
      FindConcat(a, b, key);
      SweepKeepsKey(env, last);
      FindSettled(env, front, last.key);
      FindKey(front, last.key);
      FindKey(front, key);
      UniqueConcat(a, b);
    }
  }

  lemma {:induction false} FindAdded(env: Env, ps: seq<ProviderView>, ss: seq<Status>, key: Name)
    requires forall i, j :: 0 <= i < j < |ps| ==> ps[i].key != ps[j].key
    ensures Find(Added(env, ps, ss), key) ==
      if Picked(ps, key).Some? && Find(ss, key) == None then Some(Visit(env, Picked(ps, key).value, Fresh(key)))
        else None
    ensures UniqueKeys(Added(env, ps, ss))
  {
    if ps != [] {
      var front, last := ps[..|ps| - 1], ps[|ps| - 1];
      FindAdded(env, front, ss, key);
      FindAdded(env, front, ss, last.key);
      PickedKey(front, last.key);
      if last.verdict == Selected && Find(ss, last.key) == None {
        var a, b := Added(env, front, ss), [Visit(env, last, Fresh(last.key))];
        FindConcat(a, b, key);
        assert forall p <- front :: p.key != last.key;
        UniqueConcat(a, b);
        PickedKey(front, key);
      } else {
        assert Added(env, ps, ss) == Added(env, front, ss);
      }
    }
  }

  /** The append, nil-out and compaction keep one status per provider, and act on each provider separately. */
  lemma ReconciledByKey(env: Env, ss: seq<Status>, key: Name)
    requires UniqueKeys(ss) && env.Distinct()
    ensures UniqueKeys(Reconciled(env, ss))
    ensures Find(Reconciled(env, ss), key) == After(env, key, Find(ss, key))
  {
    var a, b := Somes(SettleAll(env, ss)), Added(env, env.providers, ss);
    FindSettled(env, ss, key);
    FindAdded(env, env.providers, ss, key);
    FindConcat(a, b, key);
    FindKey(ss, key);
    forall s <- b ensures Find(a, s.key) == None {
      FindAdded(env, env.providers, ss, s.key);
      FindMember(b, s);
      FindSettled(env, ss, s.key);
    }
    UniqueConcat(a, b);
  }

  /** The one backend call that concerns a provider key, if there is one. */
  function CallAt(env: Env, key: Name, ss: seq<Status>): Option<Call> {
    match Picked(env.providers, key)
    case Some(p) =>
      var s := StatusFor(ss, key);
      var op := CallFor(env, p, s.id);
      if op.Some? then Some(Call(key, op.value, s.id, s.data)) else None
    case None =>
      match Find(ss, key)
      case None => None
      case Some(s) => if SweepCalls(env, s) then Some(Call(key, Delete, s.id, s.data)) else None
  }

  ghost predicate UniqueCalls(cs: seq<Call>) {
    forall i, j :: 0 <= i < j < |cs| ==> cs[i].key != cs[j].key
  }

  lemma {:induction false} VisitCallKeys(env: Env, ps: seq<ProviderView>, ss: seq<Status>)
    requires forall i, j :: 0 <= i < j < |ps| ==> ps[i].key != ps[j].key
    ensures UniqueCalls(VisitCalls(env, ps, ss))
    ensures forall d <- VisitCalls(env, ps, ss) :: Picked(ps, d.key).Some?
  {
    if ps != [] {
      var front, last := ps[..|ps| - 1], ps[|ps| - 1];
      VisitCallKeys(env, front, ss);
      PickedKey(front, last.key);
      assert forall p <- front :: p.key != last.key;
    }
  }

  lemma {:induction false} VisitCallMember(env: Env, ps: seq<ProviderView>, ss: seq<Status>, c: Call)
    requires forall i, j :: 0 <= i < j < |ps| ==> ps[i].key != ps[j].key
    ensures c in VisitCalls(env, ps, ss) <==>
      Picked(ps, c.key).Some? &&
      var s := StatusFor(ss, c.key);
      CallFor(env, Picked(ps, c.key).value, s.id) == Some(c.op) && c.id == s.id && c.data == s.data
  {
    if ps != [] {
      var front, last := ps[..|ps| - 1], ps[|ps| - 1];
      VisitCallMember(env, front, ss, c);
      PickedKey(front, last.key);
      assert forall p <- front :: p.key != last.key;
    }
  }

  lemma {:induction false} SweepCallKeys(env: Env, ss: seq<Status>)
    requires UniqueKeys(ss)
    ensures UniqueCalls(SweepAllCalls(env, ss))
    ensures forall d <- SweepAllCalls(env, ss) :: Picked(env.providers, d.key) == None && Find(ss, d.key) != None
  {
    if ss != [] {
      var front, last := ss[..|ss| - 1], ss[|ss| - 1];
      assert ss == front + [last];
      SweepCallKeys(env, front);
      FindKey(front, last.key);
      assert forall s <- front :: s.key != last.key;
      forall d <- SweepAllCalls(env, ss) ensures Find(ss, d.key) != None {
        FindConcat(front, [last], d.key);
      }
    }
  }

  lemma {:induction false} SweepCallMember(env: Env, ss: seq<Status>, c: Call)
    requires UniqueKeys(ss)
    ensures c in SweepAllCalls(env, ss) <==>
      Picked(env.providers, c.key) == None && Find(ss, c.key).Some? &&
      var s := Find(ss, c.key).value;
      SweepCalls(env, s) && c == Call(s.key, Delete, s.id, s.data)
  {
    if ss != [] {
      var front, last := ss[..|ss| - 1], ss[|ss| - 1];
      assert ss == front + [last];
      SweepCallMember(env, front, c);
      FindConcat(front, [last], c.key);
      FindKey(front, c.key);
    }
  }

  /** One reconcile calls each provider at most once, and only as CallAt says. */
  lemma CallsByKey(env: Env, ss: seq<Status>, c: Call)
    requires UniqueKeys(ss) && env.Distinct()
    ensures c in AllCalls(env, ss) <==> CallAt(env, c.key, ss) == Some(c)
    ensures UniqueCalls(AllCalls(env, ss))
  {
    VisitCallMember(env, env.providers, ss, c);
    SweepCallMember(env, ss, c);
    VisitCallKeys(env, env.providers, ss);
    SweepCallKeys(env, ss);
    FindKey(ss, c.key);
  }

  /**
   What a reconcile that a malformed selector ended has called is part of what it would have called: at most the
   providers before.
   */
  lemma StoppedCallsByKey(env: Env, ss: seq<Status>, calls: seq<Call>, n: nat, c: Call)
    requires UniqueKeys(ss) && env.Distinct() && StoppedAt(env, ss, calls, n)
    ensures c in calls <==> CallAt(env, c.key, ss) == Some(c) && exists i ::
      0 <= i < n && env.providers[i].key == c.key && env.providers[i].verdict == Selected
  {
    var front := env.providers[..n];
    VisitCallMember(env, front, ss, c);
    PickedKey(front, c.key);
    PickedKey(env.providers, c.key);
    if Picked(front, c.key).Some? {
      PickedMember(env.providers, Picked(front, c.key).value);
      var i :| 0 <= i < n && front[i] == Picked(front, c.key).value;
    }
    if i :| 0 <= i < n && env.providers[i].key == c.key && env.providers[i].verdict == Selected {
      PickedMember(front, front[i]);
      PickedMember(env.providers, env.providers[i]);
    }
  }

  /** A dying record, or a dying provider, never gets a Create or an Update. */
  lemma DyingOnlyDeletes(env: Env, ss: seq<Status>, key: Name)
    requires CallAt(env, key, ss).Some?
    requires env.deleting || (Picked(env.providers, key).Some? ==> Picked(env.providers, key).value.deleting)
    ensures CallAt(env, key, ss).value.op == Delete && CallAt(env, key, ss).value.id != ""
  {
  }

  /** Error texts are not empty, and a Delete that returns nil clears the id. */
  ghost predicate HonestAt(env: Env, key: Name, ss: seq<Status>) {
    && (env.FetchOf(key).Failed? ==> env.FetchOf(key).error != "")
    && (CallAt(env, key, ss).Some? ==>
        var a := env.AnswerOf(key);
        && (!a.ok ==> a.error != "")
        && (CallAt(env, key, ss).value.op == Delete && a.ok ==> a.id == ""))
  }

  ghost predicate Honest(env: Env, ss: seq<Status>) {
    forall key {:trigger CallAt(env, key, ss)} {:trigger env.FetchOf(key)} :: HonestAt(env, key, ss)
  }

  /** A status kept although nobody selects its provider says why. */
  lemma KeptUnselectedComplains(env: Env, ss: seq<Status>, s: Status)
    requires UniqueKeys(ss) && env.Distinct() && Honest(env, ss)
    requires s in Reconciled(env, ss) && Picked(env.providers, s.key) == None
    ensures s.message != "" && Find(ss, s.key).Some?
  {
    ReconciledByKey(env, ss, s.key);
    FindMember(Reconciled(env, ss), s);
    assert HonestAt(env, s.key, ss);
    FindKey(ss, s.key);
    var was := Find(ss, s.key).value;
    assert was.key == s.key;
    if SweepCalls(env, was) {
      assert CallAt(env, s.key, ss).Some?;
    }
  }

  /** The condition under which one key leaves no complaint. */
  ghost predicate Settled(env: Env, key: Name, ss: seq<Status>) {
    && (Picked(env.providers, key).Some? ==>
        var p := Picked(env.providers, key).value; env.Ready(p.uid, p.generation))
    && (Picked(env.providers, key) == None && Find(ss, key).Some? ==>
        var f := env.FetchOf(key);
        !f.Failed? && (Find(ss, key).value.id != "" && f.Found? ==> env.Ready(f.uid, f.generation)))
    && (CallAt(env, key, ss).Some? ==> env.AnswerOf(key).ok)
  }

  lemma AfterComplaint(env: Env, ss: seq<Status>, key: Name)
    requires HonestAt(env, key, ss)
    ensures Settled(env, key, ss) <==>
      (After(env, key, Find(ss, key)).Some? ==> After(env, key, Find(ss, key)).value.message == "")
  {
    FindKey(ss, key);
    PickedKey(env.providers, key);
    if Picked(env.providers, key) == None && Find(ss, key).Some? {
      assert Find(ss, key).value.key == key;
    }
  }

  /** The record is ready exactly when every provider it concerns is ready and every call returned nil. */
  lemma ReadyExactlyWhenSettled(env: Env, ss: seq<Status>)
    requires UniqueKeys(ss) && env.Distinct() && Honest(env, ss)
    ensures Complaints(Reconciled(env, ss)) == [] <==> forall key :: Settled(env, key, ss)
  {
    var r := Reconciled(env, ss);
    NoComplaints(r);
    forall key ensures Settled(env, key, ss) <==> (Find(r, key).Some? ==> Find(r, key).value.message == "") {
      ReconciledByKey(env, ss, key);
      assert HonestAt(env, key, ss);
      AfterComplaint(env, ss, key);
    }
    if Complaints(r) == [] {
      forall key ensures Settled(env, key, ss) {
        FindKey(r, key);
      }
    }
    if forall key :: Settled(env, key, ss) {
      forall s <- r ensures s.message == "" {
        ReconciledByKey(env, ss, s.key);
        FindMember(r, s);
        assert Settled(env, s.key, ss);
      }
    }
  }

  /**
   When a deleted record's reconcile ends with every status ready, no status holds an id any more, and every
   id there was has been deleted by a call that returned nil or belonged to a provider that does not exist.
   */
  lemma ReleaseIsClean(env: Env, ss: seq<Status>, key: Name)
    requires UniqueKeys(ss) && env.Distinct() && Honest(env, ss) && env.deleting
    requires Complaints(Reconciled(env, ss)) == []
    ensures Find(Reconciled(env, ss), key).Some? ==> Find(Reconciled(env, ss), key).value.id == ""
    ensures Find(ss, key).Some? && Find(ss, key).value.id != "" ==>
      || (CallAt(env, key, ss).Some? && CallAt(env, key, ss).value.op == Delete && env.AnswerOf(key).ok)
      || (Picked(env.providers, key) == None && env.FetchOf(key).Missing?)
  {
    ReadyExactlyWhenSettled(env, ss);
    ReconciledByKey(env, ss, key);
    assert Settled(env, key, ss) && HonestAt(env, key, ss);
    FindKey(ss, key);
    FindKey(Reconciled(env, ss), key);
    PickedKey(env.providers, key);
  }

  /** The providers at which the record still holds an id. */
  function Pending(ss: seq<Status>): set<Name> {
    set s | s in ss && s.id != "" :: s.key
  }

  lemma PendingByKey(ss: seq<Status>, key: Name)
    requires UniqueKeys(ss)
    ensures key in Pending(ss) <==> Find(ss, key).Some? && Find(ss, key).value.id != ""
  {
    FindKey(ss, key);
    if key in Pending(ss) {
      var s :| s in ss && s.id != "" && s.key == key;
      FindMember(ss, s);
    }
  }

  /**
   While the record or the provider is dying, or is no longer selected, an id never appears, and a Delete that
   returns nil removes it.
   */
  lemma PendingShrinks(env: Env, ss: seq<Status>, key: Name)
    requires UniqueKeys(ss) && env.Distinct() && Honest(env, ss)
    requires env.deleting || (Picked(env.providers, key).Some? ==> Picked(env.providers, key).value.deleting)
    ensures key in Pending(Reconciled(env, ss)) ==> key in Pending(ss)
    ensures CallAt(env, key, ss).Some? && env.AnswerOf(key).ok ==>
      key in Pending(ss) && key !in Pending(Reconciled(env, ss))
  {
    ReconciledByKey(env, ss, key);
    PendingByKey(ss, key);
    PendingByKey(Reconciled(env, ss), key);
    assert HonestAt(env, key, ss);
    FindKey(ss, key);
    PickedKey(env.providers, key);
  }

  /** A reconcile of a deleted record. */
  ghost predicate Dying(env: Env, ss: seq<Status>) {
    env.deleting && env.Distinct() && Honest(env, ss)
  }

  /** Every provider that matters can be reached. */
  ghost predicate Open(env: Env, ss: seq<Status>) {
    forall key :: Reachable(env, key, ss)
  }

  /** Every provider that matters can be reached, and some pending Delete gets through. */
  ghost predicate Productive(env: Env, ss: seq<Status>) {
    Open(env, ss) && (Pending(ss) != {} ==> exists key <- Pending(ss) :: Cleared(env, key, ss))
  }

  ghost predicate Reachable(env: Env, key: Name, ss: seq<Status>) {
    && (Picked(env.providers, key).Some? ==>
        var p := Picked(env.providers, key).value; env.Ready(p.uid, p.generation))
    && (Picked(env.providers, key) == None && Find(ss, key).Some? ==>
        var f := env.FetchOf(key);
        !f.Failed? && (Find(ss, key).value.id != "" && f.Found? ==> env.Ready(f.uid, f.generation)))
  }

  ghost predicate Cleared(env: Env, key: Name, ss: seq<Status>) {
    if CallAt(env, key, ss).Some? then env.AnswerOf(key).ok
    else Picked(env.providers, key) == None && env.FetchOf(key).Missing?
  }

  /** During deletion nothing becomes pending, and what is cleared stops being pending. */
  lemma DyingStep(env: Env, ss: seq<Status>)
    requires UniqueKeys(ss) && Dying(env, ss)
    ensures UniqueKeys(Reconciled(env, ss)) && Pending(Reconciled(env, ss)) <= Pending(ss)
    ensures forall key :: Cleared(env, key, ss) ==> key !in Pending(Reconciled(env, ss))
  {
    forall key ensures key in Pending(Reconciled(env, ss)) ==> key in Pending(ss) && !Cleared(env, key, ss) {
      PendingShrinks(env, ss, key);
      ReconciledByKey(env, ss, key);
      PendingByKey(Reconciled(env, ss), key);
      PendingByKey(ss, key);
      FindKey(ss, key);
    }
    ReconciledByKey(env, ss, Name("", ""));
  }

  /** With nothing pending, one reconcile that reaches every provider is enough. */
  lemma OpenReleases(env: Env, ss: seq<Status>)
    requires UniqueKeys(ss) && Dying(env, ss) && Open(env, ss) && Pending(ss) == {}
    ensures Complaints(Reconciled(env, ss)) == []
  {
    forall key ensures Settled(env, key, ss) {
      PendingByKey(ss, key);
      FindKey(ss, key);
      assert Reachable(env, key, ss);
    }
    ReadyExactlyWhenSettled(env, ss);
  }

  lemma ProperSubsetIsSmaller<T>(a: set<T>, b: set<T>)
    requires a < b
    ensures |a| < |b|
  {
    assert b == a + (b - a);
  }

  lemma SubsetIsNotLarger<T>(a: set<T>, b: set<T>)
    requires a <= b
    ensures |a| <= |b|
  {
    assert b == a + (b - a);
  }

  ghost predicate DyingRun(envs: seq<Env>, ss: seq<Status>) {
    envs != [] ==> Dying(envs[0], ss) && DyingRun(envs[1..], Reconciled(envs[0], ss))
  }

  /** How many reconciles of the run are productive. */
  ghost function Productives(envs: seq<Env>, ss: seq<Status>): nat {
    if envs == [] then 0
    else (if Productive(envs[0], ss) then 1 else 0) + Productives(envs[1..], Reconciled(envs[0], ss))
  }

  /** Some reconcile of the run ends with every status ready, so it removes the finalizer. */
  ghost predicate Released(envs: seq<Env>, ss: seq<Status>) {
    envs != [] && (Complaints(Reconciled(envs[0], ss)) == [] || Released(envs[1..], Reconciled(envs[0], ss)))
  }

  /**
   A deleted record is released once more reconciles than it has pending ids were productive, however many others,
   with failing calls or unreachable providers, came in between.
   */
  lemma {:induction false} DeletionFinishes(envs: seq<Env>, ss: seq<Status>)
    requires UniqueKeys(ss) && DyingRun(envs, ss) && Productives(envs, ss) > |Pending(ss)|
    ensures Released(envs, ss)
  {
    var env, later := envs[0], Reconciled(envs[0], ss);
    DyingStep(env, ss);
    if !Productive(env, ss) {
      SubsetIsNotLarger(Pending(later), Pending(ss));
      DeletionFinishes(envs[1..], later);
    } else if Pending(ss) == {} {
      OpenReleases(env, ss);
    } else {
      var key :| key in Pending(ss) && Cleared(env, key, ss);
      assert key !in Pending(later);
      ProperSubsetIsSmaller(Pending(later), Pending(ss));
      DeletionFinishes(envs[1..], later);
    }
  }

  /** The ledger after the run. */
  function Through(envs: seq<Env>, ss: seq<Status>): seq<Status> {
    if envs == [] then ss else Through(envs[1..], Reconciled(envs[0], ss))
  }

  /** At some reconcile of the run, the Delete at this key returns nil, or its provider turns out to be gone. */
  ghost predicate ClearedSometime(envs: seq<Env>, ss: seq<Status>, key: Name) {
    envs != [] && (Cleared(envs[0], key, ss) || ClearedSometime(envs[1..], Reconciled(envs[0], ss), key))
  }

  ghost predicate OpenSometime(envs: seq<Env>, ss: seq<Status>) {
    envs != [] && (Open(envs[0], ss) || OpenSometime(envs[1..], Reconciled(envs[0], ss)))
  }

  lemma {:induction false} ClearedStays(envs: seq<Env>, ss: seq<Status>, key: Name)
    requires UniqueKeys(ss) && DyingRun(envs, ss)
    requires key !in Pending(ss) || ClearedSometime(envs, ss, key)
    ensures UniqueKeys(Through(envs, ss)) && key !in Pending(Through(envs, ss))
  {
    if envs != [] {
      DyingStep(envs[0], ss);
      ClearedStays(envs[1..], Reconciled(envs[0], ss), key);
    }
  }

  lemma {:induction false} OpenRunReleases(envs: seq<Env>, ss: seq<Status>)
    requires UniqueKeys(ss) && DyingRun(envs, ss) && Pending(ss) == {} && OpenSometime(envs, ss)
    ensures Released(envs, ss)
  {
    DyingStep(envs[0], ss);
    if Open(envs[0], ss) {
      OpenReleases(envs[0], ss);
    } else {
      OpenRunReleases(envs[1..], Reconciled(envs[0], ss));
    }
  }

  lemma {:induction false} ReleasedLater(a: seq<Env>, b: seq<Env>, ss: seq<Status>)
    requires Released(b, Through(a, ss))
    ensures Released(a + b, ss)
  {
    if a == [] {
      assert a + b == b;
    } else {
      ReleasedLater(a[1..], b, Reconciled(a[0], ss));
      assert (a + b)[1..] == a[1..] + b;
    }
  }

  /**
   If the Delete of each pending id returns nil at some reconcile, each in its own time, and a later reconcile
   reaches every provider, the deleted record is released.
   */
  lemma {:induction false} EachDeleteSometimeFinishes(a: seq<Env>, b: seq<Env>, ss: seq<Status>)
    requires UniqueKeys(ss) && DyingRun(a, ss) && DyingRun(b, Through(a, ss))
    requires forall key <- Pending(ss) :: ClearedSometime(a, ss, key)
    requires OpenSometime(b, Through(a, ss))
    ensures Released(a + b, ss)
  {
    forall key ensures key !in Pending(Through(a, ss)) {
      ClearedStays(a, ss, key);
    }
    ClearedStays(a, ss, Name("", ""));
    OpenRunReleases(b, Through(a, ss));
    ReleasedLater(a, b, ss);
  }
}
