/** The Cloudflare backend, against a zone of entries with server-assigned ids. */
module Cloudflare {
  import opened Api
  import opened Names
  import opened RecordSync
  import opened Contract
  import opened Protocol

  datatype Entry = Entry(name: string, rtype: string, value: string, ttl: int, extra: map<string, string>) {
    /** What the server compares when it calls a record a duplicate, and what the list query matches on. */
    predicate Same(e: Entry) {
      name == e.name && rtype == e.rtype && value == e.value
    }
  }

  function Wanted(spec: RecordSpec): Entry {
    Entry(spec.name, spec.rtype, spec.value, spec.ttl, spec.extra)
  }

  predicate Taken(zone: map<string, Entry>, e: Entry, except: string) {
    exists id <- zone :: id != except && zone[id].Same(e)
  }

  /**
   API failures of one call, the id the server would assign, and the first hit of its list query. The list is a
   second call: it may find nothing although the add was refused, when the duplicate has gone in between.
   */
  datatype Server = Server(addFails: bool, listFails: bool, updateFails: bool, deleteFails: bool, issued: string,
        hit: Option<string>)

  ghost predicate Plausible(zone: map<string, Entry>, e: Entry, server: Server) {
    && "" !in zone && server.issued != "" && server.issued !in zone
    && (server.hit.Some? ==> server.hit.value in zone && zone[server.hit.value].Same(e))
  }

  /** What find returns when the list call is answered. */
  function Hit(server: Server): string {
    if server.hit == None then "" else server.hit.value
  }

  datatype State = State(id: string, data: string, zone: map<string, Entry>)

  function Created(adopt: bool, s: State, e: Entry, server: Server): (State, Result) {
    if server.addFails then (s, Fault("add"))
    else if !Taken(s.zone, e, "") then (State(server.issued, s.data, s.zone[server.issued := e]), Nil)
    else if !adopt then (s, Fault("duplicate"))
    else if server.listFails then (s.(id := ""), Fault("list"))
    else (s.(id := Hit(server)), Nil)
  }

  function Updated(adopt: bool, s: State, e: Entry, server: Server): (State, Result) {
    if server.updateFails then (s, Fault("update"))
    else if s.id !in s.zone then Created(adopt, s, e, server)
    else if Taken(s.zone, e, s.id) then (s, Fault("duplicate"))
    else (s.(zone := s.zone[s.id := e]), Nil)
  }

  function Deleted(s: State, server: Server): (State, Result) {
    if server.deleteFails then (s, Fault("delete")) else (State("", s.data, s.zone - {s.id}), Nil)
  }

  function Called(adopt: bool, s: State, op: Op, e: Entry, server: Server): (State, Result) {
    match op
    case Create => Created(adopt, s, e, server)
    case Update => Updated(adopt, s, e, server)
    case Delete => Deleted(s, server)
  }

  class Zone {
    var entries: map<string, Entry>

    constructor (entries: map<string, Entry>)
      ensures this.entries == entries
    {
      this.entries := entries;
    }
  }

  class CloudflareProvider {
    const matchExistsRecord: bool
    const zone: Zone

    constructor (matchExistsRecord: bool, zone: Zone)
      ensures this.matchExistsRecord == matchExistsRecord && this.zone == zone
    {
      this.matchExistsRecord, this.zone := matchExistsRecord, zone;
    }

    ghost function View(payload: Payload): State
      reads payload, zone
    {
      State(payload.id, payload.data, zone.entries)
    }

    /** The first exact match, if the list call finds one. */
    method Find(e: Entry, server: Server) returns (id: string, r: Result)
      ensures r == if server.listFails then Fault("list") else Nil
      ensures id == if server.listFails then "" else Hit(server)
      ensures Plausible(zone.entries, e, server) ==> id == "" || (id in zone.entries && zone.entries[id].Same(e))
    {
      if server.listFails {
        return "", Fault("list");
      }
      if server.hit == None {
        return "", Nil;
      }
      return server.hit.value, Nil;
    }

    method Create(payload: Payload, spec: RecordSpec, server: Server) returns (r: Result)
      modifies payload, zone
      ensures (View(payload), r) == Created(matchExistsRecord, old(View(payload)), Wanted(spec), server)
      ensures old(payload.id) !in old(zone.entries) && old(Plausible(zone.entries, Wanted(spec), server)) ==>
        ZoneSafe(old(zone.entries).Keys, zone.entries.Keys, old(payload.id), payload.id)
    {
      var e := Wanted(spec);
      if server.addFails {
        return Fault("add");
      }
      if Taken(zone.entries, e, "") {
        if matchExistsRecord {
          payload.id, r := Find(e, server);
          return r;
        }
        return Fault("duplicate");
      }
      zone.entries := zone.entries[server.issued := e];
      payload.id := server.issued;
      return Nil;
    }

    method Update(payload: Payload, spec: RecordSpec, server: Server) returns (r: Result)
      modifies payload, zone
      ensures (View(payload), r) == Updated(matchExistsRecord, old(View(payload)), Wanted(spec), server)
      ensures old(Plausible(zone.entries, Wanted(spec), server)) ==>
        ZoneSafe(old(zone.entries).Keys, zone.entries.Keys, old(payload.id), payload.id)
    {
      var e := Wanted(spec);
      if server.updateFails {
        return Fault("update");
      }
      if payload.id !in zone.entries {
        r := Create(payload, spec, server);
        return r;
      }
      if Taken(zone.entries, e, payload.id) {
        return Fault("duplicate");
      }
      zone.entries := zone.entries[payload.id := e];
      return Nil;
    }

    method Delete(payload: Payload, server: Server) returns (r: Result)
      modifies payload, zone
      ensures (View(payload), r) == Deleted(old(View(payload)), server)
      ensures "" !in old(zone.entries) ==> ZoneSafe(old(zone.entries).Keys, zone.entries.Keys, old(payload.id),
        payload.id)
    {
      if server.deleteFails {
        return Fault("delete");
      }
      // An entry that is not found counts as deleted.
      zone.entries := zone.entries - {payload.id};
      payload.id := "";
      return Nil;
    }
  }

  lemma CloudflareKeepsZone(adopt: bool, s: State, op: Op, e: Entry, server: Server)
    requires Plausible(s.zone, e, server) && Invited(op, s.id)
    ensures var (s', r) := Called(adopt, s, op, e, server);
      && ZoneSafe(s.zone.Keys, s'.zone.Keys, s.id, s'.id)
      && (op == Delete && r.Nil? ==> s'.id == "") && (r.Fault? ==> r.error != "")
  {
  }

  /**
   Every call the reconciler makes is one the lifecycle accepts, whichever entries of the zone are the controller's.
   */
  lemma CloudflareIsSafe(adopt: bool, s: State, key: Name, op: Op, e: Entry, server: Server, mine: set<string>)
    requires Plausible(s.zone, e, server) && Invited(op, s.id)
    ensures var (s', r) := Called(adopt, s, op, e, server);
      CallSafe(Call(key, op, s.id, s.data),
               ReplyOf(mine, Tracked(mine, s.zone.Keys, s'.zone.Keys, s'.id), s.id, r.Answered(s'.id, s'.data)))
  {
    var (s', r) := Called(adopt, s, op, e, server);
    CloudflareKeepsZone(adopt, s, op, e, server);
    SafeExactlyWhenZoneSafe(Call(key, op, s.id, s.data), s.zone.Keys, s'.zone.Keys, r.Answered(s'.id, s'.data));
  }

  /** The call comes to adopting a duplicate, and the list query has nothing to adopt. */
  predicate ComesUpEmpty(adopt: bool, s: State, op: Op, e: Entry, server: Server) {
    && op != Delete && adopt && Taken(s.zone, e, "") && server.hit == None
    && (op == Update ==> s.id !in s.zone)
  }

  /**
   A nil Create or Update names a live entry for the record exactly unless an adoption came up empty; then it leaves
   no id at all.
   */
  lemma SuccessNamesLiveEntry(adopt: bool, s: State, op: Op, e: Entry, server: Server)
    requires Plausible(s.zone, e, server) && Invited(op, s.id) && op != Delete
    requires Called(adopt, s, op, e, server).1 == Nil
    ensures var s' := Called(adopt, s, op, e, server).0;
      && (s'.id in s'.zone && s'.zone[s'.id].Same(e) <==> !ComesUpEmpty(adopt, s, op, e, server))
      && (s'.id == "" <==> ComesUpEmpty(adopt, s, op, e, server))
  {
  }

  /** A nil call touches the one entry it names (Delete: the one it named) and no other. */
  lemma SuccessTouchesOne(adopt: bool, s: State, op: Op, e: Entry, server: Server)
    requires Plausible(s.zone, e, server) && Invited(op, s.id) && Called(adopt, s, op, e, server).1 == Nil
    ensures var s' := Called(adopt, s, op, e, server).0;
      && (op == Delete ==> s'.id == "" && s'.zone == s.zone - {s.id})
      && (op != Delete ==> s'.zone.Keys == s.zone.Keys + ({s'.id} - {""}))
      && forall id :: id in s.zone && id != s.id && id != s'.id ==> id in s'.zone && s'.zone[id] == s.zone[id]
  {
  }

  /** A Create that reports success and names nothing: the duplicate went away between the refusal and the list call. */
  lemma AdoptionComesUpEmpty(e: Entry, other: string)
    requires other != ""
    ensures var s := State("", "", map[other := e]);
      var server := Server(false, false, false, false, "new" + other, None);
      && Plausible(s.zone, e, server) && Invited(Create, s.id)
      && Called(true, s, Create, e, server) == (s, Nil) && s.id == ""
  {
    var s := State("", "", map[other := e]);
    assert s.zone[other].Same(e) && Taken(s.zone, e, "");
    assert |"new" + other| == 3 + |other|;
  }

  /** On an error the zone is untouched, and an id is given up only when its entry was already gone. */
  lemma FailureLosesNothing(adopt: bool, s: State, op: Op, e: Entry, server: Server)
    requires Invited(op, s.id) && Called(adopt, s, op, e, server).1.Fault?
    ensures var s' := Called(adopt, s, op, e, server).0;
      s'.zone == s.zone && (s'.id == s.id || (op == Update && s'.id == "" && s.id !in s.zone))
  {
  }

  /**
   A nil Create or Update leaves exactly the wanted entry, unless it adopted one whose other settings differ, or
   none.
   */
  lemma SettingsMatchExactly(adopt: bool, s: State, op: Op, e: Entry, server: Server)
    requires Plausible(s.zone, e, server) && Invited(op, s.id) && op != Delete
    requires Called(adopt, s, op, e, server).1 == Nil
    ensures var s' := Called(adopt, s, op, e, server).0;
      s'.id in s'.zone && s'.zone[s'.id] == e <==>
        s.id in s.zone || !Taken(s.zone, e, "") || (server.hit.Some? && s.zone[server.hit.value] == e)
  {
  }

  /** No two entries of the zone are duplicates of each other. */
  ghost predicate NoTwins(zone: map<string, Entry>) {
    forall a <- zone, b <- zone :: a != b ==> !zone[a].Same(zone[b])
  }

  lemma CallsKeepNoTwins(adopt: bool, s: State, op: Op, e: Entry, server: Server)
    requires NoTwins(s.zone) && Plausible(s.zone, e, server)
    ensures NoTwins(Called(adopt, s, op, e, server).0.zone)
  {
  }

  /**
   After an adoption, the next successful call leaves exactly the wanted entry: an Update brings the settings of
   the adopted entry in line, and where nothing was adopted the next call is a Create again.
   */
  lemma AdoptionIsMadeGood(s: State, e: Entry, server: Server, later: Server)
    requires Plausible(s.zone, e, server) && Invited(Create, s.id) && NoTwins(s.zone)
      && Called(true, s, Create, e, server).1 == Nil
    ensures var s' := Called(true, s, Create, e, server).0;
      if s'.id == "" then s' == s && Taken(s.zone, e, "")
      else
        var (s'', r) := Called(true, s', Update, e, later);
        if later.updateFails then r.Fault? && s'' == s' else r == Nil && s'' == s'.(zone := s'.zone[s'.id := e])
  {
    var s' := Called(true, s, Create, e, server).0;
    if s'.id != "" {
      assert s'.id in s'.zone && s'.zone[s'.id].Same(e);
      CallsKeepNoTwins(true, s, Create, e, server);
      assert !Taken(s'.zone, e, s'.id);
    }
  }

  /** Another entry with the name, type and value of the spec. */
  ghost predicate Clashes(zone: map<string, Entry>, spec: RecordSpec, except: string) {
    exists id <- zone ::
      id != except && zone[id].name == spec.name && zone[id].rtype == spec.rtype && zone[id].value == spec.value
  }

  /** The zone has everything the spec says under this id, and is otherwise as before. */
  ghost predicate PutsSpec(zone: map<string, Entry>, zone': map<string, Entry>, id: string, spec: RecordSpec) {
    && zone'.Keys == zone.Keys + {id} && (forall q <- zone :: q != id ==> zone'[q] == zone[q])
    && var e := zone'[id];
       && e.name == spec.name && e.rtype == spec.rtype && e.value == spec.value
       && e.ttl == spec.ttl && e.extra == spec.extra
  }

  /**
   In the fields of the spec: a Create adds it under the issued id unless another entry has its name, type and value,
   which is refused or adopted; an Update puts it in place of the entry of its id, or creates it; a Delete takes the
   entry of its id and clears the id; an error changes no entry.
   */
  lemma CallsBySpecExactly(adopt: bool, s: State, op: Op, spec: RecordSpec, server: Server)
    requires "" !in s.zone && Invited(op, s.id)
    ensures Called(adopt, s, op, Wanted(spec), server).0.data == s.data
    ensures var (s', r) := Called(adopt, s, op, Wanted(spec), server);
      if op == Delete then
        if server.deleteFails then r.Fault? && s' == s
        else r == Nil && s'.id == "" && s'.zone == s.zone - {s.id}
      else if op == Update && server.updateFails then r.Fault? && s' == s
      else if s.id in s.zone then
        && (r == Nil <==> !Clashes(s.zone, spec, s.id))
        && s'.id == s.id && (if r == Nil then PutsSpec(s.zone, s'.zone, s.id, spec) else s'.zone == s.zone)
      else if server.addFails || !Clashes(s.zone, spec, "") then
        && (r == Nil <==> !server.addFails)
        && if r == Nil then s'.id == server.issued && PutsSpec(s.zone, s'.zone, server.issued, spec) else s' == s
      else
        && (r == Nil <==> adopt && !server.listFails)
        && s'.zone == s.zone
        && s'.id == if !adopt then s.id else if r == Nil && server.hit.Some? then server.hit.value else ""
  {
    forall except ensures Clashes(s.zone, spec, except) <==> Taken(s.zone, Wanted(spec), except) {
      if Taken(s.zone, Wanted(spec), except) {
        var id :| id in s.zone && id != except && s.zone[id].Same(Wanted(spec));
        assert s.zone[id].name == spec.name;
      }
      if Clashes(s.zone, spec, except) {
        var id :| id in s.zone && id != except && s.zone[id].name == spec.name && s.zone[id].rtype == spec.rtype
          && s.zone[id].value == spec.value;
        assert s.zone[id].Same(Wanted(spec));
      }
    }
  }
}
