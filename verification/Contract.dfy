/** The payload a backend works on, and the promise about its zone that the lifecycle relies on. */
module Contract {
  import opened RecordSync
  import opened Protocol

  class Payload {
    var id: string
    var data: string

    constructor (id: string, data: string)
      ensures this.id == id && this.data == data
    {
      this.id, this.data := id, data;
    }
  }

  /**
   Over one call that found the id `id` in the payload and the live entries `before` in the zone: an entry
   appears only under the id left in the payload, and a live entry the old id named is not let go.
   */
  ghost predicate ZoneSafe(before: set<string>, after: set<string>, id: string, id': string) {
    && after <= before + {id'} && "" !in after
    && (id in after ==> id' == id)
  }

  /** The reply the lifecycle sees for a call with this effect on the zone. */
  ghost function ReplyOf(before: set<string>, after: set<string>, id: string, a: Answer): Reply {
    Reply(a, after - before, (before - after) + if id in after then {} else {id})
  }

  /** The outcome of a backend call; an error always has a text. */
  datatype Result = Nil | Fault(error: string) {
    function Answered(id: string, data: string): Answer {
      Answer(Nil?, id, data, if Nil? then "" else error)
    }
  }

  /**
   The controller's entries after a call that took the live entries of the zone from `before` to `after`: those
   it had, those the call created, and the one the payload now names, as far as they are live.
   */
  ghost function Tracked(mine: set<string>, before: set<string>, after: set<string>, id: string): set<string> {
    (mine + (after - before) + {id}) * after - {""}
  }

  /** The Record reconciler calls Create exactly when the status holds no id. */
  predicate Invited(op: Op, id: string) {
    id == "" <==> op == Create
  }

  /**
   A backend call that is zone-safe, clears the id when a Delete succeeds, and explains failures is one the
   lifecycle accepts.
   */
  lemma ZoneSafeIsCallSafe(c: Call, before: set<string>, after: set<string>, a: Answer)
    requires ZoneSafe(before, after, c.id, a.id)
    requires (c.op == Delete && a.ok ==> a.id == "") && (!a.ok ==> a.error != "")
    ensures CallSafe(c, ReplyOf(before, after, c.id, a))
  {
  }

  /** A call that lets go of a live entry is not acceptable, whatever the reply claims was gained. */
  lemma LettingGoIsUnsafe(c: Call, before: set<string>, after: set<string>, a: Answer)
    requires c.id in before && c.id in after && c.id != "" && a.id != c.id
    ensures !CallSafe(c, ReplyOf(before, after, c.id, a))
  {
  }

  /** What the controller tracks is as safe as the zone itself. */
  lemma TrackedIsZoneSafe(mine: set<string>, before: set<string>, after: set<string>, id: string, id': string)
    requires ZoneSafe(before, after, id, id')
    ensures ZoneSafe(mine, Tracked(mine, before, after, id'), id, id')
  {
  }

  /**
   A call is acceptable to the lifecycle, whichever entries of the zone are the controller's, exactly when every
   entry it created is named by the id it left, and the id it found is kept while its entry is live.
   */
  lemma SafeExactlyWhenZoneSafe(c: Call, before: set<string>, after: set<string>, a: Answer)
    requires "" !in after && (c.op == Delete && a.ok ==> a.id == "") && (!a.ok ==> a.error != "")
    ensures ZoneSafe(before, after, c.id, a.id)
       <==> forall mine: set<string> :: CallSafe(c, ReplyOf(mine, Tracked(mine, before, after, a.id), c.id, a))
  {
    if ZoneSafe(before, after, c.id, a.id) {
      forall mine: set<string> ensures CallSafe(c, ReplyOf(mine, Tracked(mine, before, after, a.id), c.id, a)) {
        TrackedIsZoneSafe(mine, before, after, c.id, a.id);
        ZoneSafeIsCallSafe(c, mine, Tracked(mine, before, after, a.id), a);
      }
    } else if c.id in after && a.id != c.id {
      LettingGoIsUnsafe(c, {c.id}, Tracked({c.id}, before, after, a.id), a);
    } else {
      var id :| id in after && id !in before && id != a.id;
      assert id in ReplyOf({}, Tracked({}, before, after, a.id), c.id, a).gained;
    }
  }
}
