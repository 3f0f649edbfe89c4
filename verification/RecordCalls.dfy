/** Which calls one Record reconcile makes, and what it leaves in the ledger, in the terms of what it reads. */
module RecordCalls {
  import opened Api
  import opened Names
  import opened RecordSync
  import Laws = RecordLaws

  /** The ledger holds an id at the provider. */
  ghost predicate Holding(ss: seq<Status>, key: Name) {
    exists s <- ss :: s.key == key && s.id != ""
  }

  /** A backend is cached for the provider object, built at this generation. */
  ghost predicate Built(env: Env, uid: nat, generation: nat) {
    uid in env.cache && env.cache[uid].generation == generation
  }

  ghost predicate Selects(p: ProviderView, key: Name) {
    p.key == key && p.verdict == Selected
  }

  /** Some selected provider of this name can be used, and neither it nor the record is being deleted. */
  ghost predicate Serving(env: Env, key: Name) {
    exists p <- env.providers :: Selects(p, key) && Built(env, p.uid, p.generation) && !env.deleting && !p.deleting
  }

  /** Some selected provider of this name can be used, and it or the record is being deleted. */
  ghost predicate Leaving(env: Env, key: Name) {
    exists p <- env.providers :: Selects(p, key) && Built(env, p.uid, p.generation) && (env.deleting || p.deleting)
  }

  /** No provider of this name is selected any more, but it exists and can be used. */
  ghost predicate Abandoned(env: Env, key: Name) {
    && (forall p <- env.providers :: !Selects(p, key))
    && key in env.fetched && env.fetched[key].Found? && Built(env, env.fetched[key].uid, env.fetched[key].generation)
  }

  ghost predicate CallsFor(env: Env, ss: seq<Status>, key: Name, op: Op) {
    exists c <- AllCalls(env, ss) :: c.key == key && c.op == op
  }

  lemma HoldingIsFound(ss: seq<Status>, key: Name)
    requires UniqueKeys(ss)
    ensures Holding(ss, key) <==> Find(ss, key).Some? && Find(ss, key).value.id != ""
  {
    Laws.FindKey(ss, key);
    if s :| s in ss && s.key == key && s.id != "" {
      Laws.FindMember(ss, s);
    }
  }

  lemma SelectedIsPicked(env: Env, key: Name)
    requires env.Distinct()
    ensures Picked(env.providers, key).Some? ==>
      Picked(env.providers, key).value in env.providers && Selects(Picked(env.providers, key).value, key)
    ensures forall p <- env.providers :: Selects(p, key) ==> Picked(env.providers, key) == Some(p)
  {
    Laws.PickedKey(env.providers, key);
    forall p | p in env.providers && Selects(p, key) ensures Picked(env.providers, key) == Some(p) {
      Laws.PickedMember(env.providers, p);
    }
  }

  lemma CallsForIsCallAt(env: Env, ss: seq<Status>, key: Name, op: Op)
    requires UniqueKeys(ss) && env.Distinct()
    ensures CallsFor(env, ss, key, op) <==> Laws.CallAt(env, key, ss).Some? && Laws.CallAt(env, key, ss).value.op == op
  {
    var at := Laws.CallAt(env, key, ss);
    Laws.FindKey(ss, key);
    if at.Some? {
      assert at.value.key == key;
      Laws.CallsByKey(env, ss, at.value);
    }
    if c :| c in AllCalls(env, ss) && c.key == key && c.op == op {
      Laws.CallsByKey(env, ss, c);
    }
  }

  /**
   A Create is made exactly at a serving provider without an id, an Update exactly at one with an id, and a Delete
   exactly for an id that a deleted record or provider is to give up, or that an unselected provider still has.
   */
  lemma CallsExactly(env: Env, ss: seq<Status>, key: Name)
    requires UniqueKeys(ss) && env.Distinct()
    ensures CallsFor(env, ss, key, Create) <==> Serving(env, key) && !Holding(ss, key)
    ensures CallsFor(env, ss, key, Update) <==> Serving(env, key) && Holding(ss, key)
    ensures CallsFor(env, ss, key, Delete) <==> Holding(ss, key) && (Leaving(env, key) || Abandoned(env, key))
  {
    CallsForIsCallAt(env, ss, key, Create);
    CallsForIsCallAt(env, ss, key, Update);
    CallsForIsCallAt(env, ss, key, Delete);
    HoldingIsFound(ss, key);
    SelectedIsPicked(env, key);
    Laws.FindKey(ss, key);
  }

  /** At a serving provider there is exactly one call; it carries what the ledger holds. */
  lemma ServingGetsOneCall(env: Env, ss: seq<Status>, key: Name) returns (c: Call)
    requires UniqueKeys(ss) && env.Distinct() && Serving(env, key)
    ensures c in AllCalls(env, ss) && c.key == key && forall d <- AllCalls(env, ss) :: d.key == key ==> d == c
    ensures c.op == if Holding(ss, key) then Update else Create
    ensures forall s <- ss :: s.key == key ==> c.id == s.id && c.data == s.data
    ensures (forall s <- ss :: s.key != key) ==> c.id == "" && c.data == ""
  {
    CallsExactly(env, ss, key);
    c :| c in AllCalls(env, ss) && c.key == key;
    Laws.CallsByKey(env, ss, c);
    forall d | d in AllCalls(env, ss) && d.key == key ensures d == c {
      Laws.CallsByKey(env, ss, d);
    }
    SelectedIsPicked(env, key);
    Laws.FindKey(ss, key);
    forall s | s in ss && s.key == key ensures c.id == s.id && c.data == s.data {
      Laws.FindMember(ss, s);
    }
  }

  /** What a call leaves in the ledger: its answer, with a message exactly if it failed. */
  ghost predicate Booked(after: seq<Status>, key: Name, a: Answer) {
    Status(key, a.id, a.data, if a.ok then "" else a.error) in after
  }

  ghost predicate Absent(after: seq<Status>, key: Name) {
    forall s <- after :: s.key != key
  }

  /** The id and data that the ledger held, with this message. */
  ghost predicate Kept(ss: seq<Status>, after: seq<Status>, key: Name, message: string) {
    if Absent(ss, key) then Status(key, "", "", message) in after
    else exists s <- ss :: s.key == key && Status(key, s.id, s.data, message) in after
  }

  ghost predicate Called(env: Env, ss: seq<Status>, key: Name) {
    exists c <- AllCalls(env, ss) :: c.key == key
  }

  ghost predicate SomeSelects(env: Env, key: Name) {
    exists p <- env.providers :: Selects(p, key)
  }

  /** The reconcile at one key, as far as the proofs need it. */
  lemma AfterAtKey(env: Env, ss: seq<Status>, key: Name)
    requires UniqueKeys(ss) && env.Distinct()
    ensures var after := Reconciled(env, ss);
      && UniqueKeys(after) && Find(after, key) == Laws.After(env, key, Find(ss, key))
      && (Find(after, key) == None <==> Absent(after, key))
      && (Find(ss, key) == None <==> Absent(ss, key))
      && (Find(after, key).Some? ==> Find(after, key).value in after && Find(after, key).value.key == key)
      && (Find(ss, key).Some? ==> Find(ss, key).value in ss && Find(ss, key).value.key == key)
      && (Called(env, ss, key) <==> Laws.CallAt(env, key, ss).Some?)
  {
    Laws.ReconciledByKey(env, ss, key);
    Laws.FindKey(Reconciled(env, ss), key);
    Laws.FindKey(ss, key);
    if Laws.CallAt(env, key, ss).Some? {
      Laws.CallsByKey(env, ss, Laws.CallAt(env, key, ss).value);
    }
    if c :| c in AllCalls(env, ss) && c.key == key {
      Laws.CallsByKey(env, ss, c);
    }
  }

  /** A call's answer is booked, except that a nil Delete at an unselected provider drops the line. */
  lemma CalledIsBooked(env: Env, ss: seq<Status>, key: Name)
    requires UniqueKeys(ss) && env.Distinct() && Called(env, ss, key) && key in env.answers
    ensures var a, after := env.answers[key], Reconciled(env, ss);
      if !SomeSelects(env, key) && a.ok then Absent(after, key) else Booked(after, key, a)
  {
    AfterAtKey(env, ss, key);
    SelectedIsPicked(env, key);
  }

  /**
   Without a call, a selected provider that is not ready says so and keeps what it had; one that is ready and has
   nothing to give up is settled; an unselected one is dropped when it has no id or is gone, and otherwise says why not.
   */
  lemma UncalledIsKept(env: Env, ss: seq<Status>, key: Name)
    requires UniqueKeys(ss) && env.Distinct() && !Called(env, ss, key)
    ensures var after := Reconciled(env, ss);
      && (forall p <- env.providers :: Selects(p, key) ==>
            Kept(ss, after, key, if Built(env, p.uid, p.generation) then "" else "provider not ready"))
      && (!SomeSelects(env, key) && !Absent(ss, key) ==>
            if key in env.fetched && env.fetched[key].Failed? then Kept(ss, after, key, env.fetched[key].error)
            else if !Holding(ss, key) || key !in env.fetched || env.fetched[key].Missing? then Absent(after, key)
            else Kept(ss, after, key, "provider not ready"))
      && (!SomeSelects(env, key) && Absent(ss, key) ==> Absent(after, key))
  {
    AfterAtKey(env, ss, key);
    SelectedIsPicked(env, key);
    HoldingIsFound(ss, key);
  }

  /** The old statuses that stay, in order, and then the new ones, in the order of the providers. */
  lemma {:induction false} SettledInOrder(env: Env, ss: seq<Status>) returns (idx: seq<nat>)
    ensures var rs := Somes(SettleAll(env, ss));
      && |idx| == |rs|
      && (forall i :: 0 <= i < |idx| ==> idx[i] < |ss| && rs[i].key == ss[idx[i]].key)
      && (forall i, j :: 0 <= i < j < |idx| ==> idx[i] < idx[j])
  {
    idx := [];
    if ss != [] {
      var n := |ss| - 1;
      idx := SettledInOrder(env, ss[..n]);
      Laws.SettleFront(env, ss);
      Laws.SweepKeepsKey(env, ss[n]);
      assert Somes([Settle(env, ss[n])]) == match Settle(env, ss[n]) case None => [] case Some(v) => [v] by {
        assert [Settle(env, ss[n])][..0] == [];
      }
      if Settle(env, ss[n]).Some? {
        idx := idx + [n];
      }
    }
  }

  lemma {:induction false} AddedInOrder(env: Env, ps: seq<ProviderView>, ss: seq<Status>) returns (idx: seq<nat>)
    ensures var rs := Added(env, ps, ss);
      && |idx| == |rs|
      && (forall i :: 0 <= i < |idx| ==> idx[i] < |ps| && rs[i].key == ps[idx[i]].key)
      && (forall i, j :: 0 <= i < j < |idx| ==> idx[i] < idx[j])
  {
    idx := [];
    if ps != [] {
      var n := |ps| - 1;
      idx := AddedInOrder(env, ps[..n], ss);
      if ps[n].verdict == Selected && Find(ss, ps[n].key) == None {
        idx := idx + [n];
      }
    }
  }

  /**
   The ledger keeps its order: the old lines that stay, as they stood, and behind them those of new providers, as
   listed.
   */
  lemma LedgerKeepsOrder(env: Env, ss: seq<Status>) returns (stayed: seq<nat>, joined: seq<nat>)
    ensures var after := Reconciled(env, ss);
      && |after| == |stayed| + |joined|
      && (forall i :: 0 <= i < |stayed| ==> stayed[i] < |ss| && after[i].key == ss[stayed[i]].key)
      && (forall i :: 0 <= i < |joined| ==>
            joined[i] < |env.providers| && after[|stayed| + i].key == env.providers[joined[i]].key)
      && (forall i, j :: 0 <= i < j < |stayed| ==> stayed[i] < stayed[j])
      && (forall i, j :: 0 <= i < j < |joined| ==> joined[i] < joined[j])
  {
    stayed := SettledInOrder(env, ss);
    joined := AddedInOrder(env, env.providers, ss);
  }

  /** The complaints are the non-empty messages of the ledger, all of them and in order. */
  lemma {:induction false} ComplaintsAreMessages(ss: seq<Status>) returns (idx: seq<nat>)
    ensures |idx| == |Complaints(ss)|
    ensures forall i :: 0 <= i < |idx| ==> idx[i] < |ss| && Complaints(ss)[i] == ss[idx[i]].message
    ensures forall i, j :: 0 <= i < j < |idx| ==> idx[i] < idx[j]
    ensures forall k :: 0 <= k < |ss| ==> (k in idx <==> ss[k].message != "")
  {
    idx := [];
    if ss != [] {
      var n := |ss| - 1;
      idx := ComplaintsAreMessages(ss[..n]);
      assert n !in idx;
      if ss[n].message != "" {
        idx := idx + [n];
      }
      forall k | 0 <= k < n ensures ss[k] == ss[..n][k] {
      }
    }
  }
}
