/** The objects the reconcilers read and write, and the finalizers that hold them. */
module Api {
  import opened Names

  const FINALIZER := "dns.xzzpig.com/finalizer"

  datatype RecordSpec = RecordSpec(name: string, rtype: string, value: string, ttl: int, extra: map<string, string>)

  /** `target` stands for what locates the external zone; `config` for the rest of the provider's settings. */
  datatype ProviderSpec = ProviderSpec(domain: string, selector: map<string, string>, target: string, config: string)

  /** One entry of a Record's ledger: what it knows about its external entry at one provider. */
  datatype Status = Status(key: Name, id: string, data: string, message: string)

  /** A built backend, with the generation of the Provider it was built from. */
  datatype Cached = Cached(generation: nat, spec: ProviderSpec)

  datatype Meta = Meta(uid: nat, generation: nat, deleting: bool, finalizers: seq<string>)

  function AddFinalizer(finalizers: seq<string>): seq<string> {
    if FINALIZER in finalizers then finalizers else finalizers + [FINALIZER]
  }

  /** removeFinalizer drops the first occurrence only. */
  function RemoveFinalizer(finalizers: seq<string>): seq<string> {
    if finalizers == [] then []
    else if finalizers[0] == FINALIZER then finalizers[1..]
    else [finalizers[0]] + RemoveFinalizer(finalizers[1..])
  }

  /** Exactly one occurrence goes, and no other finalizer. */
  lemma {:induction false} RemoveFinalizerTakesOne(finalizers: seq<string>)
    ensures multiset(RemoveFinalizer(finalizers)) == multiset(finalizers) - multiset{FINALIZER}
  {
    if finalizers != [] {
      assert finalizers == [finalizers[0]] + finalizers[1..];
      RemoveFinalizerTakesOne(finalizers[1..]);
    }
  }

  lemma {:induction false} RemoveFinalizerSkips(s: seq<string>, i: nat)
    requires i <= |s| && FINALIZER !in s[..i]
    ensures RemoveFinalizer(s) == s[..i] + RemoveFinalizer(s[i..])
  {
    if i == 0 {
      assert s[0..] == s;
    } else {
      assert s[0] == s[..i][0];
      assert s[1..][..i - 1] == s[..i][1..] && s[1..][i - 1..] == s[i..];
      RemoveFinalizerSkips(s[1..], i - 1);
    }
  }

  /** The one that goes is the first, and the others keep their order. */
  lemma RemoveFinalizerCutsFirst(s: seq<string>, i: nat)
    requires i < |s| && s[i] == FINALIZER && FINALIZER !in s[..i]
    ensures RemoveFinalizer(s) == s[..i] + s[i + 1..]
  {
    RemoveFinalizerSkips(s, i);
    assert s[i..][1..] == s[i + 1..];
  }

  /** The object-side loops of addFinalizer and removeFinalizer. */
  class Finalizers {
    var items: seq<string>

    constructor (items: seq<string>)
      ensures this.items == items
    {
      this.items := items;
    }

    method Add() returns (changed: bool)
      modifies this
      ensures items == AddFinalizer(old(items))
      ensures items == if FINALIZER in old(items) then old(items) else old(items) + ["dns.xzzpig.com/finalizer"]
      ensures changed <==> FINALIZER !in old(items)
    {
      for i := 0 to |items|
        invariant FINALIZER !in items[..i] && items == old(items)
      {
        if items[i] == FINALIZER {
          return false;
        }
      }
      items := items + [FINALIZER];
      return true;
    }

    method Remove()
      modifies this
      ensures items == RemoveFinalizer(old(items))
    {
      for i := 0 to |items|
        invariant items == old(items) && FINALIZER !in items[..i]
      {
        RemoveFinalizerSkips(items, i);
        if items[i] == FINALIZER {
          items := items[..i] + items[i + 1..];
          return;
        }
      }
      RemoveFinalizerSkips(items, |items|);
    }
  }

  predicate SelectorMatches(selector: map<string, string>, labels: map<string, string>) {
    forall k <- selector.Keys :: k in labels && labels[k] == selector[k]
  }
}
