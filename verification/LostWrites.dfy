/** Reconciles whose calls were made and whose new ledger was not saved. */
module LostWrites {
  import opened Api
  import opened Names
  import opened RecordSync
  import opened Protocol
  import opened ProtocolSafety
  import Laws = RecordLaws

  /**
   The objects after a reconcile whose status write was lost: the old ledger stays, but a deleted record that ended
   up ready in memory still gets its finalizer removed, if that second write goes through.
   */
  ghost function LostWrite(w: World, s: Step): World
    requires Offered(w, s)
  {
    var r := w.records[s.key];
    if r.meta.deleting && s.written && Complaints(LedgerAfter(w, s)) == [] then
      PutRecord(w, s.key, r.(meta := r.meta.(finalizers := RemoveFinalizer(r.meta.finalizers))))
    else w
  }

  /** Every entry that the calls at these providers added and that is live is named in the old ledgers. */
  ghost predicate GainsNamed(w: World, s: Step, zones: map<string, set<string>>, seen: set<Name>)
    requires Offered(w, s)
  {
    forall k, target, id
      | k in seen && CallIn(w, s, k).Some? && CallTarget(w, k) == target && id in s.replies[k].gained
        && target in zones && id in zones[target]
      :: exists rk, k2 :: NamesEntry(w, rk, k2, target, id)
  }

  /** Of the calls of a reconcile, only those at these providers were made. */
  ghost predicate FollowsOnly(w: World, s: Step, zones: map<string, set<string>>, seen: set<Name>)
    requires Offered(w, s)
  {
    forall target <- zones, id <- zones[target] :: id in w.ZoneOf(target) || GainedAt(w, s, seen, target, id)
  }

  ghost predicate GainedAt(w: World, s: Step, seen: set<Name>, target: string, id: string)
    requires Offered(w, s)
  {
    exists k <- seen :: CallIn(w, s, k).Some? && CallTarget(w, k) == target && id in s.replies[k].gained
  }

  /**
   A reconcile that ended after some of its calls with nothing saved, as a malformed selector makes it: the ledger
   covers the zones exactly when every entry the calls added was named already.
   */
  lemma CutShortExactly(w: World, s: Step, w': World, seen: set<Name>)
    requires Inv(w) && Offered(w, s) && w' == w.(zones := w'.zones) && FollowsOnly(w, s, w'.zones, seen)
    ensures NoOrphans(w') <==> GainsNamed(w, s, w'.zones, seen)
  {
    forall rk, k, target, id ensures NamesEntry(w', rk, k, target, id) <==> NamesEntry(w, rk, k, target, id) {
      assert IdAt(w', rk, k) == IdAt(w, rk, k);
    }
    if NoOrphans(w') {
      forall k, target, id
        | k in seen && CallIn(w, s, k).Some? && CallTarget(w, k) == target && id in s.replies[k].gained
          && target in w'.zones && id in w'.zones[target]
        ensures exists rk, k2 :: NamesEntry(w, rk, k2, target, id)
      {
        var rk, k2 :| NamesEntry(w', rk, k2, target, id);
        assert NamesEntry(w, rk, k2, target, id);
      }
    } else {
      var target, id :| target in w'.zones && id in w'.zones[target] &&
        !(id != "" && exists rk, k :: NamesEntry(w', rk, k, target, id));
      assert id !in w.ZoneOf(target);
      var k :| k in seen && CallIn(w, s, k).Some? && CallTarget(w, k) == target && id in s.replies[k].gained;
      CallReachesZone(w, s, k);
    }
  }

  /** The calls of a reconcile that runs to its end are all at existing providers. */
  lemma EndedFollows(w: World, s: Step, zones: map<string, set<string>>)
    requires Inv(w) && Offered(w, s) && ZonesFollow(w, EnvOf(w, s), w.records[s.key].statuses, s.replies, zones)
    ensures FollowsOnly(w, s, zones, w.providers.Keys)
  {
    var env, ss := EnvOf(w, s), w.records[s.key].statuses;
    forall target <- zones, id <- zones[target] ensures id in w.ZoneOf(target)
      || GainedAt(w, s, w.providers.Keys, target, id) {
      if id !in w.ZoneOf(target) {
        var k :| Calls(w, env, ss, k, target) && k in s.replies && id in s.replies[k].gained;
        assert CallIn(w, s, k).Some?;
        CallReachesZone(w, s, k);
      }
    }
  }

  /** A deleted record that ended up ready made only Deletes that returned nil, so nothing was gained. */
  lemma ReadyGainsNothing(w: World, s: Step, k: Name)
    requires Inv(w) && Offered(w, s) && w.records[s.key].meta.deleting && Complaints(LedgerAfter(w, s)) == []
    requires CallIn(w, s, k).Some?
    ensures s.replies[k].gained == {} && s.replies[k].answer.id == ""
  {
    ReleasedHoldsNothing(w, s, k);
    LedgerIdAfter(w, s, k);
    assert CallSafe(CallIn(w, s, k).value, s.replies[k]);
  }

  /** What the released record named has been deleted, or somebody else names it as well. */
  lemma ReleaseLeavesOthers(w: World, s: Step, w': World, target: string, id: string)
    requires Inv(w) && Offered(w, s) && w.records[s.key].meta.deleting && Complaints(LedgerAfter(w, s)) == []
    requires ZonesFollow(w, EnvOf(w, s), w.records[s.key].statuses, s.replies, w'.zones)
    requires target in w'.zones && id in w'.zones[target]
    ensures id != "" && exists rk, k :: rk != s.key && NamesEntry(w, rk, k, target, id)
  {
    var env, ss := EnvOf(w, s), w.records[s.key].statuses;
    forall k | Calls(w, env, ss, k, target) ensures k in s.replies && s.replies[k].gained == {} {
      assert CallIn(w, s, k).Some? && CallSafe(CallAt(env, k, ss).value, s.replies[k]);
      ReadyGainsNothing(w, s, k);
    }
    assert id in w.ZoneOf(target) && id != "";
    var rk, k :| NamesEntry(w, rk, k, target, id);
    if rk == s.key {
      assert Backed(w, rk, k);
      ReleasedHoldsNothing(w, s, k);
      LedgerIdAfter(w, s, k);
      CallReachesZone(w, s, k);
      assert Calls(w, env, ss, k, target);
    }
  }

  lemma LostWithRelease(w: World, s: Step, w': World)
    requires Inv(w) && Offered(w, s) && w.records[s.key].meta.deleting && Complaints(LedgerAfter(w, s)) == []
    requires forall rk, k :: rk != s.key ==> IdAt(w', rk, k) == IdAt(w, rk, k)
    requires w'.providers == w.providers
    requires ZonesFollow(w, EnvOf(w, s), w.records[s.key].statuses, s.replies, w'.zones)
    ensures NoOrphans(w')
  {
    forall target <- w'.zones, id <- w'.zones[target] ensures id != "" && exists rk, k ::
      NamesEntry(w', rk, k, target, id) {
      ReleaseLeavesOthers(w, s, w', target, id);
      var rk, k :| rk != s.key && NamesEntry(w, rk, k, target, id);
      assert NamesEntry(w', rk, k, target, id);
    }
  }

  lemma PutRecordTouchesOne(w: World, key: Name, r: RecordObj, zones: map<string, set<string>>)
    ensures var w' := PutRecord(w, key, r).(zones := zones);
      w'.providers == w.providers && forall rk, k :: rk != key ==> IdAt(w', rk, k) == IdAt(w, rk, k)
  {
  }

  lemma ReadyNamesItsGains(w: World, s: Step, zones: map<string, set<string>>)
    requires Inv(w) && Offered(w, s) && w.records[s.key].meta.deleting && Complaints(LedgerAfter(w, s)) == []
    ensures GainsNamed(w, s, zones, w.providers.Keys)
  {
    forall k | CallIn(w, s, k).Some? ensures s.replies[k].gained == {} {
      ReadyGainsNothing(w, s, k);
    }
  }

  /**
   A reconcile whose calls were made but whose status write was lost: whether or not the finalizer was released all
   the same, the ledger still covers the zones exactly when every entry the calls added was named already.
   */
  lemma LostWriteExactly(w: World, s: Step, w': World)
    requires Inv(w) && Offered(w, s) && w' == LostWrite(w, s).(zones := w'.zones)
    requires ZonesFollow(w, EnvOf(w, s), w.records[s.key].statuses, s.replies, w'.zones)
    ensures NoOrphans(w') <==> GainsNamed(w, s, w'.zones, w.providers.Keys)
  {
    var r := w.records[s.key];
    if r.meta.deleting && s.written && Complaints(LedgerAfter(w, s)) == [] {
      PutRecordTouchesOne(w, s.key, r.(meta := r.meta.(finalizers := RemoveFinalizer(r.meta.finalizers))), w'.zones);
      LostWithRelease(w, s, w');
      ReadyNamesItsGains(w, s, w'.zones);
    } else {
      EndedFollows(w, s, w'.zones);
      CutShortExactly(w, s, w', w.providers.Keys);
    }
  }

  /** All ids that the records hold. */
  ghost function HeldIds(w: World): set<string> {
    set rk, s | rk in w.records && s in w.records[rk].statuses :: s.id
  }

  lemma {:induction false} IdsAreBounded(ids: set<string>) returns (n: nat)
    ensures forall id <- ids :: |id| < n
  {
    if ids == {} {
      n := 0;
    } else {
      var id :| id in ids;
      n := IdsAreBounded(ids - {id});
      n := if n <= |id| then |id| + 1 else n;
    }
  }

  lemma FreshId(w: World) returns (id: string)
    requires Ledgers(w)
    ensures id != "" && forall rk, k :: IdAt(w, rk, k) != id
  {
    var n := IdsAreBounded(HeldIds(w));
    id := seq(n + 1, _ => 'x');
    forall rk, k ensures IdAt(w, rk, k) != id {
      if rk in w.records && Find(w.records[rk].statuses, k).Some? {
        Laws.FindKey(w.records[rk].statuses, k);
        assert Find(w.records[rk].statuses, k).value.id in HeldIds(w);
      }
    }
  }

  /** Replies with which one call fails after making an entry `id`, and the others fail without any effect. */
  function Failing(w: World, s: Step, k: Name, id: string): map<Name, Reply>
    requires s.ReconcileRecord? && s.key in w.records
  {
    var ss := w.records[s.key].statuses;
    map q | q in w.providers ::
      if q == k then Reply(Answer(false, id, "", "failed"), {id}, {IdOf(ss, q)})
        else Reply(Answer(false, IdOf(ss, q), "", "failed"), {}, {})
  }

  /** Whether there is a call does not depend on the replies. */
  ghost predicate CallsAt(w: World, s: Step, k: Name)
    requires Planned(w, s)
  {
    CallAt(EnvOf(w, s), k, w.records[s.key].statuses).Some?
  }

  lemma CallsStay(w: World, s: Step, k: Name, replies: map<Name, Reply>)
    requires Planned(w, s)
    ensures CallAt(EnvOf(w, s.(replies := replies)), k, w.records[s.key].statuses)
      == CallAt(EnvOf(w, s), k, w.records[s.key].statuses)
  {
    assert EnvOf(w, s.(replies := replies)) == EnvOf(w, s).(answers := map q | q in replies :: replies[q].answer);
  }

  lemma CallShape(w: World, s: Step, k: Name)
    requires Inv(w) && Planned(w, s) && CallsAt(w, s, k)
    ensures k in w.providers
    ensures var c := CallAt(EnvOf(w, s), k, w.records[s.key].statuses).value;
      c.key == k && c.id == IdOf(w.records[s.key].statuses, k)
  {
    PickedInOrder(w, w.records[s.key], s.order, k);
    Laws.FindKey(w.records[s.key].statuses, k);
    assert IdAt(w, s.key, k) != "" ==> Backed(w, s.key, k);
  }

  lemma FailingIsOffered(w: World, s: Step, k: Name, id: string)
    requires Inv(w) && Planned(w, s) && id != ""
    ensures Offered(w, s.(replies := Failing(w, s, k, id)))
  {
    var replies, ss := Failing(w, s, k, id), w.records[s.key].statuses;
    var t := s.(replies := replies);
    forall q | CallAt(EnvOf(w, t), q, ss).Some? ensures q in replies
      && CallSafe(CallAt(EnvOf(w, t), q, ss).value, replies[q]) {
      CallsStay(w, s, q, replies);
      CallShape(w, s, q);
    }
    assert Enabled(w, t);
  }

  /** The reconcile happened with these replies, its status write was lost, and `w'` is what is left. */
  ghost predicate Lost(w: World, s: Step, replies: map<Name, Reply>, w': World)
    requires Planned(w, s)
  {
    var t := s.(replies := replies);
    && Offered(w, t) && w' == LostWrite(w, t).(zones := w'.zones)
    && ZonesFollow(w, EnvOf(w, t), w.records[s.key].statuses, replies, w'.zones)
  }

  /** A lost write does no harm, however the calls may be answered. */
  ghost predicate HarmlessWhenLost(w: World, s: Step)
    requires Planned(w, s)
  {
    forall replies, w' :: Lost(w, s, replies, w') ==> NoOrphans(w')
  }

  lemma FailingIsNotReleased(w: World, s: Step, k: Name, id: string)
    requires Inv(w) && Planned(w, s) && CallsAt(w, s, k) && id != ""
    ensures var t := s.(replies := Failing(w, s, k, id)); Offered(w, t) && CallIn(w, t, k).Some? && LostWrite(w, t) == w
  {
    var t := s.(replies := Failing(w, s, k, id));
    FailingIsOffered(w, s, k, id);
    CallsStay(w, s, k, t.replies);
    CallShape(w, s, k);
    if w.records[s.key].meta.deleting && Complaints(LedgerAfter(w, t)) == [] {
      ReadyGainsNothing(w, t, k);
    }
  }

  lemma HarmfulReply(w: World, s: Step, k: Name)
    requires Inv(w) && Planned(w, s) && CallsAt(w, s, k)
    ensures !HarmlessWhenLost(w, s)
  {
    var id := FreshId(w);
    var replies, ss, target := Failing(w, s, k, id), w.records[s.key].statuses, CallTarget(w, k);
    var t := s.(replies := replies);
    FailingIsNotReleased(w, s, k, id);
    CallShape(w, s, k);
    var w' := w.(zones := map[target := {id}]);
    assert Calls(w, EnvOf(w, t), ss, k, target) && id in replies[k].gained;
    assert Lost(w, s, replies, w');
    UnnamedIsOrphan(w, w', target, id);
  }

  lemma UnnamedIsOrphan(w: World, w': World, target: string, id: string)
    requires w' == w.(zones := w'.zones) && target in w'.zones && id in w'.zones[target]
    requires forall rk, k :: IdAt(w, rk, k) != id
    ensures !NoOrphans(w')
  {
    forall rk, k ensures !NamesEntry(w', rk, k, target, id) {
      assert IdAt(w', rk, k) == IdAt(w, rk, k);
    }
  }

  lemma NoCallsNoHarm(w: World, s: Step)
    requires Inv(w) && Planned(w, s) && forall k :: !CallsAt(w, s, k)
    ensures HarmlessWhenLost(w, s)
  {
    forall replies, w' | Lost(w, s, replies, w') ensures NoOrphans(w') {
      var t := s.(replies := replies);
      forall k ensures CallIn(w, t, k) == None {
        CallsStay(w, s, k, replies);
        assert !CallsAt(w, s, k);
      }
      LostWriteExactly(w, t, w');
    }
  }

  /**
   What can be checked before the calls: losing the write is harmless, however they are answered, exactly when there
   are none.
   */
  lemma LostWriteHarmlessExactly(w: World, s: Step)
    requires Inv(w) && Planned(w, s)
    ensures HarmlessWhenLost(w, s) <==> forall k :: !CallsAt(w, s, k)
  {
    if k :| CallsAt(w, s, k) {
      HarmfulReply(w, s, k);
    } else {
      NoCallsNoHarm(w, s);
    }
  }
}
