/** The AliDNS backend, against a zone of entries filed under relative names. */
module AliDns {
  import opened Api
  import opened Domains
  import opened Names
  import opened RecordSync
  import opened Contract
  import opened Protocol

  const LINE := "dns.xzzpig.com/alidns/line"

  /** A ttl of 0 and an absent line leave the choice to the server. */
  datatype Entry = Entry(rr: string, rtype: string, value: string, line: string, ttl: int) {
    predicate Same(e: Entry) {
      rr == e.rr && rtype == e.rtype && value == e.value && line == e.line
    }
  }

  function Wanted(domain: string, spec: RecordSpec): Entry {
    Entry(RelativeName(domain, spec.name), spec.rtype, spec.value, LineOf(spec), spec.ttl)
  }

  function LineOf(spec: RecordSpec): string {
    if LINE in spec.extra then spec.extra[LINE] else ""
  }

  predicate Taken(zone: map<string, Entry>, e: Entry, except: string) {
    exists id <- zone :: id != except && zone[id].Same(e)
  }

  /** API failures of one call, the id the server would assign, and the first hit of its keyword search, if any. */
  datatype Server = Server(addFails: bool, searchFails: bool, updateFails: bool, deleteFails: bool, issued: string,
        hit: Option<string>)

  /** The search matches by keyword, so its hit may be any entry, or none. */
  ghost predicate Plausible(zone: map<string, Entry>, server: Server) {
    && "" !in zone && server.issued != "" && server.issued !in zone
    && (server.hit.Some? ==> server.hit.value in zone)
  }

  datatype State = State(id: string, data: string, zone: map<string, Entry>)

  function Created(s: State, e: Entry, server: Server): (State, Result) {
    if server.addFails then (s, Fault("add"))
    else if !Taken(s.zone, e, "") then (State(server.issued, s.data, s.zone[server.issued := e]), Nil)
    else if server.searchFails then (s, Fault("search"))
    else if server.hit.Some? && server.hit.value != "" then (s.(id := server.hit.value), Nil)
    else (s, Fault("duplicate"))
  }

  function Updated(s: State, e: Entry, server: Server): (State, Result) {
    if server.updateFails then (s, Fault("update"))
    else if s.id !in s.zone then Created(s, e, server)
    else if Taken(s.zone, e, s.id) then (s, Nil)
    else (s.(zone := s.zone[s.id := e]), Nil)
  }

  /** Here an entry that is not found is an error like any other. */
  function Deleted(s: State, server: Server): (State, Result) {
    if server.deleteFails || s.id !in s.zone then (s, Fault("delete")) else (State("", s.data, s.zone - {s.id}), Nil)
  }

  function Called(s: State, op: Op, e: Entry, server: Server): (State, Result) {
    match op
    case Create => Created(s, e, server)
    case Update => Updated(s, e, server)
    case Delete => Deleted(s, server)
  }

  class Zone {
    var entries: map<string, Entry>

    constructor (entries: map<string, Entry>)
      ensures this.entries == entries
    {
      this.entries := entries;
    }
  }

  class AliyunDNSProvider {
    const domainName: string
    const zone: Zone

    constructor (domainName: string, zone: Zone)
      ensures this.domainName == domainName && this.zone == zone
    {
      this.domainName, this.zone := domainName, zone;
    }

    ghost function View(payload: Payload): State
      reads payload, zone
    {
      State(payload.id, payload.data, zone.entries)
    }

    method Create(payload: Payload, spec: RecordSpec, server: Server) returns (r: Result)
      modifies payload, zone
      ensures (View(payload), r) == Created(old(View(payload)), Wanted(domainName, spec), server)
      ensures old(payload.id) !in old(zone.entries) && old(Plausible(zone.entries, server)) ==>
        ZoneSafe(old(zone.entries).Keys, zone.entries.Keys, old(payload.id), payload.id)
    {
      var e := Wanted(domainName, spec);
      if server.addFails {
        return Fault("add");
      }
      if Taken(zone.entries, e, "") {
        if server.searchFails {
          return Fault("search");
        }
        var id := if server.hit.Some? then server.hit.value else "";
        if id != "" {
          payload.id := id;
          return Nil;
        }
        return Fault("duplicate");
      }
      zone.entries := zone.entries[server.issued := e];
      payload.id := server.issued;
      return Nil;
    }

    method Update(payload: Payload, spec: RecordSpec, server: Server) returns (r: Result)
      modifies payload, zone
      ensures (View(payload), r) == Updated(old(View(payload)), Wanted(domainName, spec), server)
      ensures old(Plausible(zone.entries, server)) ==>
        ZoneSafe(old(zone.entries).Keys, zone.entries.Keys, old(payload.id), payload.id)
    {
      var e := Wanted(domainName, spec);
      if server.updateFails {
        return Fault("update");
      }
      if payload.id !in zone.entries {
        r := Create(payload, spec, server);
        return r;
      }
      if Taken(zone.entries, e, payload.id) {
        return Nil;
      }
      zone.entries := zone.entries[payload.id := e];
      return Nil;
    }

    method Delete(payload: Payload, server: Server) returns (r: Result)
      modifies payload, zone
      ensures (View(payload), r) == Deleted(old(View(payload)), server)
      ensures "" !in old(zone.entries) ==> ZoneSafe(old(zone.entries).Keys, zone.entries.Keys, old(payload.id),
        payload.id)
    {
      if server.deleteFails || payload.id !in zone.entries {
        return Fault("delete");
      }
      zone.entries := zone.entries - {payload.id};
      payload.id := "";
      return Nil;
    }
  }

  lemma AliDnsKeepsZone(s: State, op: Op, e: Entry, server: Server)
    requires Plausible(s.zone, server) && Invited(op, s.id)
    ensures var (s', r) := Called(s, op, e, server);
      && ZoneSafe(s.zone.Keys, s'.zone.Keys, s.id, s'.id)
      && (op == Delete && r.Nil? ==> s'.id == "") && (r.Fault? ==> r.error != "")
  {
  }

  /** Every call the reconciler makes is one the lifecycle accepts, even though the search may adopt a stranger. */
  lemma AliDnsIsSafe(s: State, key: Name, op: Op, e: Entry, server: Server, mine: set<string>)
    requires Plausible(s.zone, server) && Invited(op, s.id)
    ensures var (s', r) := Called(s, op, e, server);
      CallSafe(Call(key, op, s.id, s.data),
               ReplyOf(mine, Tracked(mine, s.zone.Keys, s'.zone.Keys, s'.id), s.id, r.Answered(s'.id, s'.data)))
  {
    var (s', r) := Called(s, op, e, server);
    AliDnsKeepsZone(s, op, e, server);
    SafeExactlyWhenZoneSafe(Call(key, op, s.id, s.data), s.zone.Keys, s'.zone.Keys, r.Answered(s'.id, s'.data));
  }

  /**
   On success the id names a live entry (Delete: no entry, and the id is empty), and no other entry changes; on an
   error nothing changes.
   */
  lemma OutcomeIsExact(s: State, op: Op, e: Entry, server: Server)
    requires Plausible(s.zone, server) && Invited(op, s.id)
    ensures var (s', r) := Called(s, op, e, server);
      && (r.Fault? ==> s' == s)
      && (r == Nil && op == Delete ==> s.id in s.zone && s'.id == "" && s'.zone == s.zone - {s.id})
      && (r == Nil && op != Delete ==> s'.id in s'.zone && s'.zone.Keys == s.zone.Keys + {s'.id})
      && forall id :: id in s.zone && id != s.id ==> id in s'.zone && s'.zone[id] == s.zone[id]
  {
  }

  /**
   The entry named after a nil Create or Update is the wanted one up to its ttl, except when another entry blocks
   the update or the search adopted a stranger.
   */
  lemma SuccessIsWantedExactly(s: State, op: Op, e: Entry, server: Server)
    requires Plausible(s.zone, server) && Invited(op, s.id) && op != Delete && Called(s, op, e, server).1 == Nil
    ensures var s' := Called(s, op, e, server).0;
      s'.zone[s'.id].Same(e) <==>
        if s.id in s.zone then !Taken(s.zone, e, s.id) || s.zone[s.id].Same(e)
        else
          || !Taken(s.zone, e, "")
          || (server.hit.Some? && server.hit.value in s.zone && s.zone[server.hit.value].Same(e))
  {
  }

  /**
   Two selected records ask for the same entry exactly when they agree on everything but the ttl, up to the two
   spellings of the apex.
   */
  lemma CollisionsExactly(domain: string, a: RecordSpec, b: RecordSpec)
    requires domain != "" && SelectsDomain(domain, a.name) && SelectsDomain(domain, b.name)
    ensures Wanted(domain, a).Same(Wanted(domain, b))
       <==>
         && a.rtype == b.rtype && a.value == b.value && LineOf(a) == LineOf(b)
         && (a.name == b.name || {a.name, b.name} == {domain, "." + domain})
  {
    RelativeNameInjective(domain, a.name, b.name);
  }

  /**
   A nil Update of a live entry with nothing in its way publishes the record's own name, except for the dotted apex.
   */
  lemma UpdatePublishesName(domain: string, s: State, spec: RecordSpec, server: Server)
    requires domain != "" && SelectsDomain(domain, spec.name) && s.id in s.zone && !server.updateFails
    requires !Taken(s.zone, Wanted(domain, spec), s.id)
    ensures var (s', r) := Updated(s, Wanted(domain, spec), server);
      r == Nil && (Qualified(domain, s'.zone[s.id].rr) == spec.name <==> spec.name != "." + domain)
  {
    RelativeNameRoundTrip(domain, spec.name);
  }

  /** Some Delete of the series returns nil. */
  predicate SomeDeleteEnds(s: State, servers: seq<Server>)
    decreases servers
  {
    servers != [] &&
      var (t, r) := Deleted(s, servers[0]);
      r == Nil || SomeDeleteEnds(t, servers[1..])
  }

  /**
   However often Delete is called, one of the calls returns nil exactly when the entry is there and one of them is
   answered.
   */
  lemma {:induction false} DeletionEndsExactly(s: State, servers: seq<Server>)
    ensures SomeDeleteEnds(s, servers) <==> s.id in s.zone && exists i :: 0 <= i < |servers| && !servers[i].deleteFails
    decreases servers
  {
    if servers != [] && servers[0].deleteFails {
      DeletionEndsExactly(s, servers[1..]);
      if i :| 0 <= i < |servers| && !servers[i].deleteFails {
        assert !servers[1..][i - 1].deleteFails;
      }
    } else if servers != [] && s.id !in s.zone {
      DeletionEndsExactly(s, servers[1..]);
    }
  }

  ghost predicate Deletes(s: State, servers: seq<Server>, s': State)
    decreases servers
  {
    if servers == [] then s' == s
    else
      var (t, r) := Deleted(s, servers[0]);
      r.Fault? && Deletes(t, servers[1..], s')
  }

  /** Once the entry is gone, no number of Deletes returns nil or changes anything: the Record keeps its finalizer. */
  lemma {:induction false} DeleteStuck(s: State, servers: seq<Server>)
    requires s.id !in s.zone
    ensures Deletes(s, servers, s)
    decreases servers
  {
    if servers != [] {
      DeleteStuck(s, servers[1..]);
    }
  }

  /** Another entry with the relative name, type, value and line of the spec. */
  ghost predicate Clashes(domain: string, zone: map<string, Entry>, spec: RecordSpec, except: string) {
    exists id <- zone ::
      && id != except && zone[id].rr == RelativeName(domain, spec.name) && zone[id].rtype == spec.rtype
      && zone[id].value == spec.value && Lines(zone[id].line, spec)
  }

  predicate Lines(line: string, spec: RecordSpec) {
    if "dns.xzzpig.com/alidns/line" in spec.extra then line == spec.extra["dns.xzzpig.com/alidns/line"] else line == ""
  }

  /** The zone has what the spec says under this id, filed under the relative name, and is otherwise as before. */
  ghost predicate PutsSpec(domain: string, zone: map<string, Entry>, zone': map<string, Entry>, id: string,
        spec: RecordSpec) {
    && zone'.Keys == zone.Keys + {id} && (forall q <- zone :: q != id ==> zone'[q] == zone[q])
    && var e := zone'[id];
       && e.rr == RelativeName(domain, spec.name) && e.rtype == spec.rtype && e.value == spec.value
       && e.ttl == spec.ttl && Lines(e.line, spec)
  }

  /**
   In the fields of the spec: a Create adds it under the issued id unless another entry has its name, type, value and
   line, and then adopts what the search hits, if anything; an Update puts it in place of the entry of its id, unless
   such an entry is in its way, or creates it; a Delete takes the entry of its id and clears the id, and fails when
   there is none; an error changes nothing.
   */
  lemma CallsBySpecExactly(domain: string, s: State, op: Op, spec: RecordSpec, server: Server)
    requires Plausible(s.zone, server) && Invited(op, s.id)
    ensures Called(s, op, Wanted(domain, spec), server).0.data == s.data
    ensures var (s', r) := Called(s, op, Wanted(domain, spec), server);
      if op == Delete then
        if server.deleteFails || s.id !in s.zone then r.Fault? && s' == s
        else r == Nil && s'.id == "" && s'.zone == s.zone - {s.id}
      else if op == Update && server.updateFails then r.Fault? && s' == s
      else if s.id in s.zone then
        && r == Nil && s'.id == s.id
        && if Clashes(domain, s.zone, spec, s.id) then s'.zone == s.zone
           else PutsSpec(domain, s.zone, s'.zone, s.id, spec)
      else if server.addFails then r.Fault? && s' == s
      else if !Clashes(domain, s.zone, spec, "") then
        r == Nil && s'.id == server.issued && PutsSpec(domain, s.zone, s'.zone, server.issued, spec)
      else
        && (r == Nil <==> !server.searchFails && server.hit.Some?)
        && s'.zone == s.zone && s'.id == if r == Nil then server.hit.value else s.id
  {
    ClashIsTaken(domain, s.zone, spec, "");
    ClashIsTaken(domain, s.zone, spec, s.id);
  }

  lemma ClashIsTaken(domain: string, zone: map<string, Entry>, spec: RecordSpec, except: string)
    ensures Clashes(domain, zone, spec, except) <==> Taken(zone, Wanted(domain, spec), except)
  {
    if Taken(zone, Wanted(domain, spec), except) {
      var id :| id in zone && id != except && zone[id].Same(Wanted(domain, spec));
      assert Lines(zone[id].line, spec);
    }
    if Clashes(domain, zone, spec, except) {
      var id :| id in zone && id != except && zone[id].rr == RelativeName(domain, spec.name)
        && zone[id].rtype == spec.rtype && zone[id].value == spec.value && Lines(zone[id].line, spec);
      assert zone[id].Same(Wanted(domain, spec));
    }
  }
}
