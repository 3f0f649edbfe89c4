/** The AdGuard backend: rewrites have no ids of their own, so the payload's id is the rewrite itself, as JSON. */
module AdGuard {
  import opened Api
  import opened Names
  import opened RecordSync
  import opened Contract
  import opened Protocol
  import opened Json

  datatype Server = Server(addFails: bool, deleteFails: bool)

  datatype State = State(id: string, data: string, zone: set<Rewrite>)

  function Wanted(spec: RecordSpec): Rewrite {
    Rewrite(spec.name, spec.value)
  }

  function Created(s: State, w: Rewrite, server: Server): (State, Result) {
    if server.addFails then (s, Fault("add")) else (State(Encode(w), s.data, s.zone + {w}), Nil)
  }

  function Updated(s: State, w: Rewrite, server: Server): (State, Result) {
    if s.id == "" then Created(s, w, server)
    else
      match Decode(s.id)
      case None => (s, Fault("json"))
      case Some(was) =>
        if was == w then (s, Nil)
        else if server.deleteFails then (s, Fault("delete"))
        else Created(s.(zone := s.zone - {was}), w, server)
  }

  /** Removes the rewrite of the current spec, whatever the id says. */
  function Deleted(s: State, w: Rewrite, server: Server): (State, Result) {
    if server.deleteFails then (s, Fault("delete")) else (State("", "", s.zone - {w}), Nil)
  }

  function Called(s: State, op: Op, w: Rewrite, server: Server): (State, Result) {
    match op
    case Create => Created(s, w, server)
    case Update => Updated(s, w, server)
    case Delete => Deleted(s, w, server)
  }

  class Zone {
    var rewrites: set<Rewrite>

    constructor (rewrites: set<Rewrite>)
      ensures this.rewrites == rewrites
    {
      this.rewrites := rewrites;
    }
  }

  class AdguardProvider {
    const zone: Zone

    constructor (zone: Zone)
      ensures this.zone == zone
    {
      this.zone := zone;
    }

    ghost function View(payload: Payload): State
      reads payload, zone
    {
      State(payload.id, payload.data, zone.rewrites)
    }

    method Add(w: Rewrite, server: Server) returns (r: Result)
      modifies zone
      ensures r == if server.addFails then Fault("add") else Nil
      ensures zone.rewrites == if server.addFails then old(zone.rewrites) else old(zone.rewrites) + {w}
    {
      if server.addFails {
        return Fault("add");
      }
      zone.rewrites := zone.rewrites + {w};
      return Nil;
    }

    /** Removing a rewrite that is not there succeeds. */
    method Drop(w: Rewrite, server: Server) returns (r: Result)
      modifies zone
      ensures r == if server.deleteFails then Fault("delete") else Nil
      ensures zone.rewrites == if server.deleteFails then old(zone.rewrites) else old(zone.rewrites) - {w}
    {
      if server.deleteFails {
        return Fault("delete");
      }
      zone.rewrites := zone.rewrites - {w};
      return Nil;
    }

    method Create(payload: Payload, spec: RecordSpec, server: Server) returns (r: Result)
      modifies payload, zone
      ensures (View(payload), r) == Created(old(View(payload)), Wanted(spec), server)
      ensures r == Nil ==>
        && zone.rewrites == old(zone.rewrites) + {Rewrite(spec.name, spec.value)}
        && payload.id == Encode(Rewrite(spec.name, spec.value))
      ensures old(payload.id) == "" ==> ZoneSafe(LiveIds(old(zone.rewrites)), LiveIds(zone.rewrites), old(payload.id),
        payload.id)
    {
      ghost var s := View(payload);
      var w := Wanted(spec);
      if s.id == "" {
        AdGuardZoneExactly(s, Op.Create, w, server);
      }
      r := Add(w, server);
      if r.Fault? {
        return r;
      }
      payload.id := Encode(w);
    }

    method Update(payload: Payload, spec: RecordSpec, server: Server) returns (r: Result)
      modifies payload, zone
      ensures (View(payload), r) == Updated(old(View(payload)), Wanted(spec), server)
      ensures r == Nil ==>
        if Decode(old(payload.id)) == Some(Rewrite(spec.name, spec.value)) then View(payload) == old(View(payload))
        else
          && Rewrite(spec.name, spec.value) in zone.rewrites
          && payload.id == Encode(Rewrite(spec.name, spec.value))
      ensures ZoneSafe(LiveIds(old(zone.rewrites)), LiveIds(zone.rewrites), old(payload.id), payload.id)
    {
      AdGuardZoneExactly(View(payload), Op.Update, Wanted(spec), server);
      if payload.id != "" {
        var parsed := Decode(payload.id);
        if parsed == None {
          return Fault("json");
        }
        var was := parsed.value;
        if was.domain == spec.name && was.answer == spec.value {
          return Nil;
        }
        r := Drop(was, server);
        if r.Fault? {
          return r;
        }
      }
      r := Create(payload, spec, server);
    }

    method Delete(payload: Payload, spec: RecordSpec, server: Server) returns (r: Result)
      modifies payload, zone
      ensures (View(payload), r) == Deleted(old(View(payload)), Wanted(spec), server)
      ensures r == Nil ==>
        payload.id == "" && zone.rewrites == old(zone.rewrites) - {Rewrite(spec.name, spec.value)}
      ensures ZoneSafe(LiveIds(old(zone.rewrites)), LiveIds(zone.rewrites), old(payload.id), payload.id)
         <==> !old(LetsGo(View(payload), Op.Delete, Wanted(spec), server))
    {
      AdGuardZoneExactly(View(payload), Op.Delete, Wanted(spec), server);
      r := Drop(Wanted(spec), server);
      if r.Fault? {
        return r;
      }
      payload.id, payload.data := "", "";
    }
  }

  /** The id as this backend writes it: empty, or some rewrite. */
  ghost predicate Written(id: string) {
    id == "" || (Decode(id).Some? && id == Encode(Decode(id).value))
  }

  ghost function LiveIds(zone: set<Rewrite>): set<string> {
    set w | w in zone :: Encode(w)
  }

  lemma LiveIdDecodes(zone: set<Rewrite>, id: string)
    ensures id in LiveIds(zone) <==> Decode(id).Some? && Decode(id).value in zone && id == Encode(Decode(id).value)
    ensures "" !in LiveIds(zone)
  {
    if id in LiveIds(zone) {
      var w :| w in zone && Encode(w) == id;
      DecodeEncode(w);
    }
  }

  /** A Delete that returns nil under another spec than the one in the id, while the rewrite in the id is live. */
  ghost predicate LetsGo(s: State, op: Op, w: Rewrite, server: Server) {
    op == Delete && !server.deleteFails && s.id != Encode(w) && s.id in LiveIds(s.zone)
  }

  lemma AdGuardZoneExactly(s: State, op: Op, w: Rewrite, server: Server)
    requires op == Create ==> s.id == ""
    ensures var (s', r) := Called(s, op, w, server);
      && (ZoneSafe(LiveIds(s.zone), LiveIds(s'.zone), s.id, s'.id) <==> !LetsGo(s, op, w, server))
      && (op == Delete && r.Nil? ==> s'.id == "") && (r.Fault? ==> r.error != "")
  {
    var s' := Called(s, op, w, server).0;
    LiveIdDecodes(s.zone, s.id);
    LiveIdDecodes(s'.zone, s.id);
    DecodeEncode(w);
    forall id | id in LiveIds(s'.zone) ensures id in LiveIds(s.zone) + {Encode(w)}
      && (id !in LiveIds(s.zone) ==> w in s'.zone && w !in s.zone) {
      LiveIdDecodes(s'.zone, id);
      LiveIdDecodes(s.zone, id);
    }
  }

  lemma EveryCallWritesIds(s: State, op: Op, w: Rewrite, server: Server)
    requires Written(s.id)
    ensures Written(Called(s, op, w, server).0.id)
  {
    DecodeEncode(w);
  }

  /**
   A successful Update to another rewrite swaps exactly that one; a failed one keeps the id, so the old rewrite
   stays known.
   */
  lemma UpdateSwaps(s: State, was: Rewrite, w: Rewrite, server: Server)
    requires s.id == Encode(was) && was != w
    ensures var (s', r) := Updated(s, w, server);
      && (r == Nil <==> !server.deleteFails && !server.addFails)
      && (r == Nil ==> s'.id == Encode(w) && s'.zone == s.zone - {was} + {w})
      && (r.Fault? ==> s'.id == Encode(was) && s.zone - {was} <= s'.zone <= s.zone)
  {
    DecodeEncode(was);
    EncodeInjective(was, w);
  }

  /** The state after one failed Update for each pair of a spec and an outcome. */
  ghost predicate Fails(s: State, tries: seq<(Rewrite, Server)>, s': State)
    decreases tries
  {
    if tries == [] then s' == s
    else
      var (t, r) := Updated(s, tries[0].0, tries[0].1);
      r.Fault? && Fails(t, tries[1..], s')
  }

  /**
   However many Updates fail before, and whatever they were for, the one that succeeds ends where a single
   successful one would have.
   */
  lemma {:induction false} RetryReachesSameZone(s: State, was: Rewrite, tries: seq<(Rewrite, Server)>, s': State,
        w: Rewrite)
    requires s.id == Encode(was) && was != w
    requires Fails(s, tries, s')
    ensures Updated(s', w, Server(false, false)) == Updated(s, w, Server(false, false))
    decreases tries
  {
    DecodeEncode(was);
    EncodeInjective(was, was);
    if tries != [] {
      var t := Updated(s, tries[0].0, tries[0].1).0;
      assert t.zone - {was} == s.zone - {was};
      RetryReachesSameZone(t, was, tries[1..], s', w);
    }
  }

  /**
   A nil Create or Update leaves the wanted rewrite in the zone, except when the id already spells it and the zone
   has lost it.
   */
  lemma SuccessIsLiveExactly(s: State, op: Op, w: Rewrite, server: Server)
    requires Written(s.id) && Invited(op, s.id) && op != Delete && Called(s, op, w, server).1 == Nil
    ensures var s' := Called(s, op, w, server).0;
      s'.id == Encode(w) && (w in s'.zone <==> s.id != Encode(w) || w in s.zone)
  {
    DecodeEncode(w);
  }

  /**
   So going back to the old value after the add of a new one failed reports success and leaves nothing in the zone.
   */
  lemma RevertAfterFailedAdd(was: Rewrite, w: Rewrite, zone: set<Rewrite>)
    requires was != w && was in zone
    ensures var s := State(Encode(was), "", zone);
      var (broken, r) := Updated(s, w, Server(true, false));
      var (reverted, r') := Updated(broken, was, Server(false, false));
      r.Fault? && r' == Nil && was !in reverted.zone && reverted.id == Encode(was)
  {
    DecodeEncode(was);
    EncodeInjective(was, was);
  }

  /**
   A call is acceptable to the lifecycle, whichever entries are the controller's, exactly when it is not a
   successful Delete made with a spec other than the one in the id, while the rewrite in the id is live.
   */
  lemma AdGuardIsSafeExactly(s: State, key: Name, op: Op, w: Rewrite, server: Server)
    requires Invited(op, s.id)
    ensures var (s', r) := Called(s, op, w, server);
      (forall mine: set<string> ::
         CallSafe(Call(key, op, s.id, s.data),
                  ReplyOf(mine, Tracked(mine, LiveIds(s.zone), LiveIds(s'.zone), s'.id), s.id,
                    r.Answered(s'.id, s'.data))))
      <==> !LetsGo(s, op, w, server)
  {
    var (s', r) := Called(s, op, w, server);
    AdGuardZoneExactly(s, op, w, server);
    LiveIdDecodes(s'.zone, s.id);
    SafeExactlyWhenZoneSafe(Call(key, op, s.id, s.data), LiveIds(s.zone), LiveIds(s'.zone), r.Answered(s'.id, s'.data));
  }

  /**
   The failing input: a record that is renamed and then deleted before the new name was published leaves its old
   rewrite behind.
   */
  lemma RenameThenDeleteOrphans(was: Rewrite, w: Rewrite, zone: set<Rewrite>)
    requires was != w && was in zone
    ensures var s, server := State(Encode(was), "", zone), Server(false, false);
      var (s', r) := Called(s, Delete, w, server);
      LetsGo(s, Delete, w, server) && r == Nil && s'.id == "" && was in s'.zone
  {
    EncodeInjective(was, w);
    LiveIdDecodes(zone, Encode(was));
    DecodeEncode(was);
  }

  /** A call for the record, or other hands changing the zone. */
  datatype Event = Invoke(op: Op, w: Rewrite, server: Server) | Outside(zone: set<Rewrite>)

  /** `mine` are the live rewrites that calls for the record created, or that its id names. */
  datatype Ledger = Ledger(s: State, mine: set<Rewrite>)

  function Named(id: string): set<Rewrite> {
    if Decode(id).Some? then {Decode(id).value} else {}
  }

  predicate Legal(s: State, e: Event) {
    e.Invoke? ==> Invited(e.op, s.id)
  }

  function Next(l: Ledger, e: Event): Ledger {
    match e
    case Invoke(op, w, server) =>
      var s' := Called(l.s, op, w, server).0;
      Ledger(s', (l.mine + (s'.zone - l.s.zone) + Named(s'.id)) * s'.zone)
    case Outside(zone) => Ledger(l.s.(zone := zone), (l.mine + Named(l.s.id)) * zone)
  }

  ghost predicate LegalRun(l: Ledger, es: seq<Event>)
    decreases es
  {
    es != [] ==> Legal(l.s, es[0]) && LegalRun(Next(l, es[0]), es[1..])
  }

  /** Somewhere along the run a live rewrite of the record is one its id does not name. */
  ghost predicate Orphans(l: Ledger, es: seq<Event>)
    decreases es
  {
    !(l.mine <= Named(l.s.id)) || (es != [] && Orphans(Next(l, es[0]), es[1..]))
  }

  /** Somewhere along the run a live rewrite is let go. */
  ghost predicate SomeLetsGo(l: Ledger, es: seq<Event>)
    decreases es
  {
    es != [] && ((es[0].Invoke? && LetsGo(l.s, es[0].op, es[0].w, es[0].server)) || SomeLetsGo(Next(l, es[0]), es[1..]))
  }

  ghost predicate AllWritten(l: Ledger, es: seq<Event>)
    decreases es
  {
    Written(l.s.id) && (es != [] ==> AllWritten(Next(l, es[0]), es[1..]))
  }

  ghost predicate Kept(l: Ledger) {
    Written(l.s.id) && l.mine == Named(l.s.id) * l.s.zone
  }

  lemma EventKeeps(l: Ledger, e: Event)
    requires Kept(l) && Legal(l.s, e)
    ensures if e.Invoke? && LetsGo(l.s, e.op, e.w, e.server) then !(Next(l, e).mine <= Named(Next(l, e).s.id))
      else Kept(Next(l, e))
  {
    if e.Invoke? {
      EveryCallWritesIds(l.s, e.op, e.w, e.server);
      LiveIdDecodes(l.s.zone, l.s.id);
      DecodeEncode(e.w);
    }
  }

  lemma {:induction false} RunWrites(l: Ledger, es: seq<Event>)
    requires Written(l.s.id)
    ensures AllWritten(l, es)
    decreases es
  {
    if es != [] {
      if es[0].Invoke? {
        EveryCallWritesIds(l.s, es[0].op, es[0].w, es[0].server);
      }
      RunWrites(Next(l, es[0]), es[1..]);
    }
  }

  lemma {:induction false} KeptRunOrphansExactly(l: Ledger, es: seq<Event>)
    requires Kept(l) && LegalRun(l, es)
    ensures Orphans(l, es) <==> SomeLetsGo(l, es)
    decreases es
  {
    if es != [] {
      EventKeeps(l, es[0]);
      if Kept(Next(l, es[0])) {
        KeptRunOrphansExactly(Next(l, es[0]), es[1..]);
      }
    }
  }

  /**
   Over every run from a record without an id, with any zone and other hands in it, every id is one this
   backend wrote, and a rewrite is orphaned exactly when some Delete returns nil under another spec than the
   live one in the id.
   */
  lemma {:induction false} OrphansOverRunsExactly(zone: set<Rewrite>, data: string, es: seq<Event>)
    requires LegalRun(Ledger(State("", data, zone), {}), es)
    ensures AllWritten(Ledger(State("", data, zone), {}), es)
    ensures Orphans(Ledger(State("", data, zone), {}), es) <==> SomeLetsGo(Ledger(State("", data, zone), {}), es)
  {
    RunWrites(Ledger(State("", data, zone), {}), es);
    KeptRunOrphansExactly(Ledger(State("", data, zone), {}), es);
  }

  /**
   In the fields of the spec, with `was` the rewrite that the id spells: a nil Create adds the name and value and the id
   spells them; a nil Update swaps the old rewrite for them, and does nothing when they are the same, even if the zone
   has lost it; a nil Delete takes them from the zone and clears the payload. A failed Update may have taken the old
   rewrite; no other failure changes anything.
   */
  lemma CallsBySpecExactly(s: State, op: Op, spec: RecordSpec, server: Server, was: Rewrite)
    requires if op == Create then s.id == "" else s.id == Encode(was)
    ensures var (s', r) := Called(s, op, Wanted(spec), server);
      var w := Rewrite(spec.name, spec.value);
      match op
      case Create =>
        && (r == Nil <==> !server.addFails)
        && s' == if r == Nil then State(Encode(w), s.data, s.zone + {w}) else s
      case Update =>
        && (r == Nil <==> was == w || (!server.deleteFails && !server.addFails))
        && s' == if was == w then s
                 else if r == Nil then State(Encode(w), s.data, s.zone - {was} + {w})
                 else if server.deleteFails then s
                 else State(s.id, s.data, s.zone - {was})
      case Delete =>
        && (r == Nil <==> !server.deleteFails)
        && s' == if r == Nil then State("", "", s.zone - {w}) else s
  {
    DecodeEncode(was);
    EncodeInjective(was, was);
  }
}
