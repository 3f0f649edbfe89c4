/** The cache of parsed templates, keyed by the name of the object that holds the text and by its generation. */
module TemplateCache {
  import opened Names

  /** How text is parsed: `tree` may fail, and a blank text does not replace a tree that is already there. */
  datatype Parser<!T> = Parser(tree: string -> Option<T>, blank: string -> bool)

  datatype Cache<T> = Cache(trees: map<string, T>, generations: map<string, nat>) {
    /** A key that was never parsed has Go's zero value. */
    function GenerationOf(key: string): nat {
      if key in generations then generations[key] else 0
    }
  }

  datatype Lookup = Lookup(key: string, generation: nat, text: string)

  /** getTemplate; None is an error, or a template without a tree, which cannot be executed. */
  function Got<T>(parser: Parser<T>, c: Cache<T>, l: Lookup): (Cache<T>, Option<T>) {
    if c.GenerationOf(l.key) == l.generation then
      (c, if l.key in c.trees then Some(c.trees[l.key]) else None)
    else
      match parser.tree(l.text)
      case None => (c, None)
      case Some(t) =>
        var kept := if parser.blank(l.text) && l.key in c.trees then c.trees[l.key] else t;
        (Cache(c.trees[l.key := kept], c.generations[l.key := l.generation]), Some(kept))
  }

  class ResourceWatcherReconciler<T> {
    const parser: Parser<T>
    var cache: Cache<T>

    constructor (parser: Parser<T>)
      ensures this.parser == parser && cache == Cache(map[], map[])
    {
      this.parser, cache := parser, Cache(map[], map[]);
    }

    method GetTemplate(key: string, generation: nat, text: string) returns (t: Option<T>)
      modifies this
      ensures (cache, t) == Got(parser, old(cache), Lookup(key, generation, text))
    {
      t := if key in cache.trees then Some(cache.trees[key]) else None;
      var known := if key in cache.generations then cache.generations[key] else 0;
      if known != generation {
        var parsed := parser.tree(text);
        if parsed == None {
          return None;
        }
        if t == None || !parser.blank(text) {
          t := parsed;
        }
        cache := Cache(cache.trees[key := t.value], cache.generations[key := generation]);
      }
    }
  }

  function After<T>(parser: Parser<T>, lookups: seq<Lookup>): Cache<T> {
    if lookups == [] then Cache(map[], map[])
    else Got(parser, After(parser, lookups[..|lookups| - 1]), lookups[|lookups| - 1]).0
  }

  /** Generations start at 1, and an object's generation determines its text. */
  ghost predicate Versioned(lookups: seq<Lookup>) {
    && (forall i | 0 <= i < |lookups| :: lookups[i].generation >= 1)
    && forall i, j | 0 <= i < |lookups| && 0 <= j < |lookups| ::
         lookups[i].key == lookups[j].key && lookups[i].generation == lookups[j].generation ==>
           lookups[i].text == lookups[j].text
  }

  /** Lookup `i` recorded the generation held under `key`, and its tree is the one held unless its text was blank. */
  ghost predicate From<T(!new)>(parser: Parser<T>, lookups: seq<Lookup>, c: Cache<T>, key: string, i: int) {
    && 0 <= i < |lookups| && lookups[i].key == key && key in c.generations
      && lookups[i].generation == c.generations[key]
    && key in c.trees && parser.tree(lookups[i].text).Some?
    && (parser.blank(lookups[i].text) || Some(c.trees[key]) == parser.tree(lookups[i].text))
  }

  lemma {:induction false} CacheIsFaithful<T(!new)>(parser: Parser<T>, lookups: seq<Lookup>, key: string)
    requires forall i | 0 <= i < |lookups| :: lookups[i].generation >= 1
    ensures var c := After(parser, lookups);
      && (key in c.trees <==> key in c.generations)
      && (key in c.generations ==> c.generations[key] >= 1 && exists i :: From(parser, lookups, c, key, i))
  {
    if lookups != [] {
      var n := |lookups| - 1;
      var l := lookups[n];
      CacheIsFaithful(parser, lookups[..n], key);
      CacheIsFaithful(parser, lookups[..n], l.key);
      var b, c := After(parser, lookups[..n]), After(parser, lookups);
      if key in c.generations {
        if key in b.generations && c.generations[key] == b.generations[key] {
          var i :| From(parser, lookups[..n], b, key, i);
          assert From(parser, lookups, c, key, i);
        } else {
          assert From(parser, lookups, c, key, n);
        }
      }
    }
  }

  /**
   Over any run of lookups in which the generation determines the text, a lookup returns what parsing its own text
   returns, whatever was parsed or failed to parse before, exactly unless that text is blank and another tree is held.
   */
  lemma {:induction false} LookupsAgreeWithParsing<T(!new)>(parser: Parser<T>, lookups: seq<Lookup>, n: nat)
    requires n < |lookups| && Versioned(lookups)
    ensures var c, l := After(parser, lookups[..n]), lookups[n];
      Got(parser, c, l).1 == parser.tree(l.text) <==>
        !parser.blank(l.text) || parser.tree(l.text) == None || l.key !in c.trees
          || Some(c.trees[l.key]) == parser.tree(l.text)
  {
    var c, l := After(parser, lookups[..n]), lookups[n];
    CacheIsFaithful(parser, lookups[..n], l.key);
    if c.GenerationOf(l.key) == l.generation {
      var i :| From(parser, lookups[..n], c, l.key, i);
      assert lookups[i].text == l.text;
    }
  }

  /**
   A hit returns the tree of the cached text, so it is right exactly when the two texts parse alike: not when an
   object was deleted and made again.
   */
  lemma RecreatedObjectIsStale<T(!new)>(parser: Parser<T>, was: Lookup, now: Lookup)
    requires was.key == now.key && was.generation == now.generation >= 1 && parser.tree(was.text).Some?
    ensures Got(parser, After(parser, [was]), now).1 == parser.tree(now.text)
      <==> parser.tree(was.text) == parser.tree(now.text)
  {
    assert [was][..0] == [];
  }

  /** A text that turns blank is recorded as parsed, but what is executed stays the old tree. */
  lemma BlankTextKeepsOldTree<T(!new)>(parser: Parser<T>, was: Lookup, now: Lookup)
    requires was.key == now.key && was.generation != now.generation && was.generation >= 1 && now.generation >= 1
    requires parser.tree(was.text).Some? && parser.tree(now.text).Some? && parser.blank(now.text)
    ensures Got(parser, After(parser, [was]), now).1 == parser.tree(was.text)
    ensures Got(parser, After(parser, [was]), now).1 == parser.tree(now.text)
      <==> parser.tree(was.text) == parser.tree(now.text)
  {
    assert [was][..0] == [];
  }
}
