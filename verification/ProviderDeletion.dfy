/** What happens to a Provider that is being deleted: who still holds ids there, and when it is let go. */
module ProviderDeletion {
  import opened Api
  import opened Names
  import opened RecordSync
  import opened Protocol
  import opened ProtocolSafety
  import Laws = RecordLaws

  /** The records that hold an id at the provider. */
  ghost function Holders(w: World, k: Name): set<Name> {
    set rk | rk in w.records && IdAt(w, rk, k) != ""
  }

  ghost predicate Dying(w: World, k: Name) {
    k in w.providers && w.providers[k].meta.deleting
  }

  /** A reconcile whose Delete at the provider returns nil. */
  ghost predicate Clears(w: World, s: Step, rk: Name, k: Name) {
    && Offered(w, s) && s.key == rk && CallIn(w, s, k).Some?
    && k in s.replies && s.replies[k].answer.ok
  }

  /** At a provider that is being deleted, only a Delete is called, and only for an id. */
  lemma DyingCallIsDelete(w: World, s: Step, k: Name)
    requires Inv(w) && Dying(w, k) && Offered(w, s) && CallIn(w, s, k).Some?
    ensures CallIn(w, s, k).value.op == Delete && IdAt(w, s.key, k) != ""
  {
    EnvFacts(w, s, k);
    CallReachesZone(w, s, k);
    Laws.DyingOnlyDeletes(EnvOf(w, s), w.records[s.key].statuses, k);
  }

  lemma ReconcileIdAt(w: World, s: Step, w': World, rk: Name, k: Name)
    requires Inv(w) && Dying(w, k) && s.ReconcileRecord? && Takes(w, s, w')
    ensures IdAt(w', rk, k) != "" ==> IdAt(w, rk, k) != "" && !Clears(w, s, rk, k)
  {
    if FINALIZER in w.records[s.key].meta.finalizers {
      ReconcileIds(w, s, w', rk, k);
      if CallIn(w, s, k).Some? {
        DyingCallIsDelete(w, s, k);
        CallReachesZone(w, s, k);
      }
    } else {
      assert IdAt(w, s.key, k) != "" ==> Backed(w, s.key, k);
      if Offered(w, s) && CallIn(w, s, k).Some? {
        DyingCallIsDelete(w, s, k);
      }
    }
  }

  lemma OtherIdAt(w: World, s: Step, w': World, rk: Name, k: Name)
    requires Inv(w) && !s.ReconcileRecord? && Takes(w, s, w')
    ensures IdAt(w', rk, k) != "" ==> IdAt(w, rk, k) != ""
  {
  }

  lemma IdShrinks(w: World, s: Step, w': World, rk: Name, k: Name)
    requires Inv(w) && Dying(w, k) && Takes(w, s, w')
    ensures IdAt(w', rk, k) != "" ==> IdAt(w, rk, k) != "" && !Clears(w, s, rk, k)
  {
    if s.ReconcileRecord? {
      ReconcileIdAt(w, s, w', rk, k);
    } else {
      OtherIdAt(w, s, w', rk, k);
    }
  }

  /** No step gives a record an id at a provider that is being deleted, and a Delete that returns nil takes it away. */
  lemma HoldersShrink(w: World, s: Step, w': World, k: Name)
    requires Inv(w) && Dying(w, k) && Takes(w, s, w')
    ensures Holders(w', k) <= Holders(w, k)
    ensures forall rk :: Clears(w, s, rk, k) ==> rk !in Holders(w', k)
  {
    forall rk ensures IdAt(w', rk, k) != "" ==> IdAt(w, rk, k) != "" && !Clears(w, s, rk, k) {
      IdShrinks(w, s, w', rk, k);
    }
  }

  lemma BusyHasHolders(w: World, k: Name)
    requires Inv(w)
    ensures Busy(w, k) <==> Holders(w, k) != {}
  {
    BusyExactly(w, k);
    if rk :| IdAt(w, rk, k) != "" {
      assert rk in Holders(w, k);
    }
    if rk :| rk in Holders(w, k) {
      assert IdAt(w, rk, k) != "";
    }
  }

  /** The provider is being deleted, with its finalizer on. */
  ghost predicate Held(w: World, k: Name) {
    Dying(w, k) && FINALIZER in w.providers[k].meta.finalizers
  }

  lemma OwnReconcile(w: World, s: Step, w': World, k: Name)
    requires Inv(w) && Held(w, k) && Takes(w, s, w') && s.ReconcileProvider? && s.key == k
    ensures if s.written && Holders(w, k) == {} then Removed(w, w', k) else Held(w', k)
  {
    BusyHasHolders(w, k);
  }

  lemma OtherStepsHold(w: World, s: Step, w': World, k: Name)
    requires Held(w, k) && Takes(w, s, w') && !(s.ReconcileProvider? && s.key == k)
    ensures Held(w', k)
  {
    if s.ReconcileRecord? {
      RecordReconcileKeepsProviders(w, s, w');
    }
  }

  /**
   A provider that is being deleted keeps its finalizer in every step but its own reconcile when nobody holds an id
   there.
   */
  lemma OnlyReconcileReleases(w: World, s: Step, w': World, k: Name)
    requires Inv(w) && Held(w, k) && Takes(w, s, w')
    ensures if s.ReconcileProvider? && s.key == k && s.written && Holders(w, k) == {} then Removed(w, w', k)
      else Held(w', k)
  {
    if s.ReconcileProvider? && s.key == k {
      OwnReconcile(w, s, w', k);
    } else {
      OtherStepsHold(w, s, w', k);
    }
  }

  lemma RecordReconcileKeepsProviders(w: World, s: Step, w': World)
    requires s.ReconcileRecord? && Takes(w, s, w')
    ensures w'.providers == w.providers
  {
  }

  /** The finalizer is taken off once; with it, the provider goes if nothing else holds it. */
  ghost predicate Removed(w: World, w': World, k: Name)
    requires k in w.providers
  {
    var fs := RemoveFinalizer(w.providers[k].meta.finalizers);
    if fs == [] then k !in w'.providers else k in w'.providers && w'.providers[k].meta.finalizers == fs
  }

  /** The provider is being deleted, with its finalizer on, in all these worlds. */
  ghost predicate HeldThroughout(ws: seq<World>, i: nat, n: nat, k: Name) {
    forall m | i <= m <= n :: m < |ws| && Held(ws[m], k)
  }

  /**
   Over every run, as long as the provider is being deleted, the records that hold an id there never grow in number.
   */
  lemma {:induction false} HoldersNeverGrow(ws: seq<World>, steps: seq<Step>, i: nat, n: nat, k: Name)
    requires Run(ws, steps) && i <= n <= |steps| && forall m | i <= m < n :: Dying(ws[m], k)
    ensures Holders(ws[n], k) <= Holders(ws[i], k)
    decreases n
  {
    if i < n {
      HoldersNeverGrow(ws, steps, i, n - 1, k);
      RunKeepsInv(ws, steps, n - 1);
      HoldersShrink(ws[n - 1], steps[n - 1], ws[n - 1 + 1], k);
    }
  }

  /** Some step of the run is the reconcile that took the finalizer off, at a time when nobody held an id. */
  ghost predicate ReleasedWithin(ws: seq<World>, steps: seq<Step>, i: nat, n: nat, k: Name) {
    exists m | i <= m < n :: ReleasedAt(ws, steps, m, k)
  }

  ghost predicate ReleasedAt(ws: seq<World>, steps: seq<Step>, m: nat, k: Name) {
    && m < |steps| && m + 1 < |ws| && steps[m].ReconcileProvider? && steps[m].key == k
    && Held(ws[m], k) && Holders(ws[m], k) == {} && Removed(ws[m], ws[m + 1], k)
  }

  lemma HeldStep(ws: seq<World>, steps: seq<Step>, m: nat, k: Name)
    requires Run(ws, steps) && m < |steps| && Held(ws[m], k)
    ensures Held(ws[m + 1], k) || ReleasedAt(ws, steps, m, k)
    ensures steps[m].ReconcileProvider? && steps[m].key == k && steps[m].written && Holders(ws[m], k) == {} ==>
      ReleasedAt(ws, steps, m, k)
  {
    RunKeepsInv(ws, steps, m);
    OnlyReconcileReleases(ws[m], steps[m], ws[m + 1], k);
  }

  /** Until it is released, and only by that, a provider under deletion stays held: nothing else ends it. */
  lemma {:induction false} HeldOrReleased(ws: seq<World>, steps: seq<Step>, i: nat, n: nat, k: Name)
    requires Run(ws, steps) && i <= n <= |steps| && Held(ws[i], k)
    ensures HeldThroughout(ws, i, n, k) || ReleasedWithin(ws, steps, i, n, k)
    decreases n
  {
    if i < n {
      var m := n - 1;
      HeldOrReleased(ws, steps, i, m, k);
      if HeldThroughout(ws, i, m, k) {
        HeldStep(ws, steps, m, k);
        if !Held(ws[n], k) {
          assert ReleasedAt(ws, steps, m, k);
        }
      } else {
        var j :| i <= j < m && ReleasedAt(ws, steps, j, k);
      }
    }
  }

  /**
   A record whose Delete returned nil at some step of a stretch in which the provider was held holds no id
   afterwards.
   */
  lemma ClearedStaysOut(ws: seq<World>, steps: seq<Step>, i: nat, j: nat, n: nat, rk: Name, k: Name)
    requires Run(ws, steps) && i <= j < n <= |steps| && HeldThroughout(ws, i, n, k)
    requires Clears(ws[j], steps[j], rk, k)
    ensures rk !in Holders(ws[n], k)
  {
    RunKeepsInv(ws, steps, j);
    HoldersShrink(ws[j], steps[j], ws[j + 1], k);
    HoldersNeverGrow(ws, steps, j + 1, n, k);
  }

  /**
   Over every run, if the Delete of each record that held an id at a deleted provider returns nil at some step, in any
   order and with anything else in between, and the provider is reconciled later, its finalizer is taken off, and
   nobody holds an id there when it is.
   */
  lemma {:induction false} ProviderIsReleased(ws: seq<World>, steps: seq<Step>, i: nat, n: nat, k: Name)
    requires Run(ws, steps) && i <= n < |steps| && Held(ws[i], k)
    requires forall rk <- Holders(ws[i], k) :: exists j :: i <= j < n && Clears(ws[j], steps[j], rk, k)
    requires steps[n].ReconcileProvider? && steps[n].key == k && steps[n].written
    ensures ReleasedWithin(ws, steps, i, n + 1, k)
  {
    HeldOrReleased(ws, steps, i, n, k);
    if HeldThroughout(ws, i, n, k) {
      HoldersNeverGrow(ws, steps, i, n, k);
      forall rk ensures rk !in Holders(ws[n], k) {
        if rk in Holders(ws[n], k) {
          var j :| i <= j < n && Clears(ws[j], steps[j], rk, k);
          ClearedStaysOut(ws, steps, i, j, n, rk, k);
        }
      }
      assert Holders(ws[n], k) == {};
      HeldStep(ws, steps, n, k);
    } else {
      var m :| i <= m < n && ReleasedAt(ws, steps, m, k);
    }
  }
}
