/**
 Object names, the slash-joined keys made from them, and the field indexes looked up by those keys.
 */
module Names {
  import opened Strings

  /** NamespacedName; cluster-scoped objects have the empty namespace. */
  datatype Name = Name(namespace: string, name: string) {
    function Key(): string {
      Join([namespace, name], '/')
    }

    /** Kubernetes forbids '/' in names and namespaces. */
    predicate SlashFree() {
      '/' !in namespace && '/' !in name
    }
  }

  datatype WatchResource = WatchResource(kind: string, name: Name) {
    function Key(): string {
      Join([kind, name.namespace, name.name], '/')
    }

    predicate SlashFree() {
      '/' !in kind && name.SlashFree()
    }
  }

  lemma {:induction false} KeyText(n: Name)
    ensures n.Key() == n.namespace + "/" + n.name
  {
    var parts := [n.namespace, n.name];
    assert parts[1..] == [n.name] && Join(parts[1..], '/') == n.name;
    assert n.Key() == Join(parts, '/');
  }

  lemma {:induction false} WatchKeyText(r: WatchResource)
    ensures r.Key() == r.kind + "/" + r.name.namespace + "/" + r.name.name
  {
    var parts := [r.kind, r.name.namespace, r.name.name];
    assert parts[1..] == [r.name.namespace, r.name.name];
    KeyText(r.name);
    assert r.Key() == Join(parts, '/');
  }

  lemma NameKeyInjective(a: Name, b: Name)
    requires a.SlashFree() && b.SlashFree()
    ensures a.Key() == b.Key() <==> a == b
  {
    if a.Key() == b.Key() {
      JoinInjective([a.namespace, a.name], [b.namespace, b.name], '/');
      assert [a.namespace, a.name] == [b.namespace, b.name];
      assert a.namespace == [a.namespace, a.name][0] && a.name == [a.namespace, a.name][1];
      assert b.namespace == [b.namespace, b.name][0] && b.name == [b.namespace, b.name][1];
    }
  }

  lemma WatchKeyInjective(a: WatchResource, b: WatchResource)
    requires a.SlashFree() && b.SlashFree()
    ensures a.Key() == b.Key() <==> a == b
  {
    if a.Key() == b.Key() {
      var p, q := [a.kind, a.name.namespace, a.name.name], [b.kind, b.name.namespace, b.name.name];
      JoinInjective(p, q, '/');
      assert p[0] == q[0] && p[1] == q[1] && p[2] == q[2];
    }
  }

  /** The first two parts of an identifier, or None where indexing the second part would panic. */
  function ParseId(id: string): (parsed: Option<Name>) {
    var parts := Split(id, '/');
    if |parts| < 2 then None else Some(Name(parts[0], parts[1]))
  }

  datatype Option<+T> = None | Some(value: T)

  /** A job identifier written as Key() is read back as the same name. */
  lemma ParseIdKey(n: Name)
    requires n.SlashFree()
    ensures ParseId(n.Key()) == Some(n)
  {
    SplitJoin([n.namespace, n.name], '/');
  }

  /** What follows a second separator is not looked at. */
  lemma ParseIdIgnoresRest(n: Name, rest: string)
    requires n.SlashFree()
    ensures ParseId(n.namespace + "/" + n.name + "/" + rest) == Some(n)
  {
    SplitAt(n.namespace + "/" + n.name, '/', rest);
    KeyText(n);
    SplitJoin([n.namespace, n.name], '/');
  }

  /** Reading an identifier panics exactly when it holds no separator. */
  lemma {:induction false} ParseIdFails(id: string)
    ensures ParseId(id) == None <==> '/' !in id
  {
    if '/' !in id {
      SplitFree(id, '/');
    } else {
      var i :| 0 <= i < |id| && id[i] == '/';
      assert id == id[..i] + ['/'] + id[i + 1..];
      SplitAt(id[..i], '/', id[i + 1..]);
    }
  }

  /** The keys an object is filed under by a field index. */
  function NameKeys(names: seq<Name>): seq<string> {
    seq(|names|, i requires 0 <= i < |names| => names[i].Key())
  }

  function WatchKeys(resources: seq<WatchResource>): seq<string> {
    seq(|resources|, i requires 0 <= i < |resources| => resources[i].Key())
  }

  /** Looking a name up in the providers index is the same as scanning the statuses for it. */
  lemma NameIndexIsScan(names: seq<Name>, wanted: Name)
    requires wanted.SlashFree() && forall n :: n in names ==> n.SlashFree()
    ensures wanted.Key() in NameKeys(names) <==> wanted in names
  {
    var keys := NameKeys(names);
    if wanted.Key() in keys {
      var i :| 0 <= i < |keys| && keys[i] == wanted.Key();
      NameKeyInjective(names[i], wanted);
    }
    if wanted in names {
      var i :| 0 <= i < |names| && names[i] == wanted;
      assert keys[i] == wanted.Key();
    }
  }

  /** Looking an object up in the resources index finds exactly the watchers that recorded it. */
  lemma WatchIndexIsScan(resources: seq<WatchResource>, wanted: WatchResource)
    requires wanted.SlashFree() && forall r :: r in resources ==> r.SlashFree()
    ensures wanted.Key() in WatchKeys(resources) <==> wanted in resources
  {
    var keys := WatchKeys(resources);
    if wanted.Key() in keys {
      var i :| 0 <= i < |keys| && keys[i] == wanted.Key();
      WatchKeyInjective(resources[i], wanted);
    }
    if wanted in resources {
      var i :| 0 <= i < |resources| && resources[i] == wanted;
      assert keys[i] == wanted.Key();
    }
  }
}
