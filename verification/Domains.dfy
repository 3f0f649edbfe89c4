/**
 Which records a provider selects by domain, and the relative name sent to AliDNS.
 */
module Domains {
  import opened Strings

  /** The domain half of ProviderSelector.Matches. */
  predicate SelectsDomain(domain: string, name: string) {
    domain == "" || name == domain || HasSuffix(name, "." + domain)
  }

  function Labels(name: string): seq<string> {
    Split(name, '.')
  }

  ghost predicate IsTail<T>(tail: seq<T>, whole: seq<T>) {
    |tail| <= |whole| && whole[|whole| - |tail|..] == tail
  }

  /** `zone` is `name` or an ancestor of it: section 3.1 of RFC 1034, taken case-sensitively. */
  ghost predicate Subdomain(name: string, zone: string) {
    IsTail(Labels(zone), Labels(name))
  }

  /** getRR: the name relative to the zone. */
  function RelativeName(zone: string, name: string): string {
    if name == zone then "" else TrimSuffix(name, "." + zone)
  }

  function Qualified(zone: string, rr: string): string {
    if rr == "" then zone else rr + "." + zone
  }

  lemma SuffixIsSubdomain(domain: string, name: string)
    requires HasSuffix(name, "." + domain)
    ensures Subdomain(name, domain)
  {
    var prefix := name[..|name| - |domain| - 1];
    assert name == prefix + ("." + domain);
    assert name == prefix + ['.'] + domain;
    SplitAt(prefix, '.', domain);
  }

  lemma AppendHasSuffix(head: string, tail: string)
    ensures HasSuffix(head + tail, tail)
  {
  }

  lemma SubdomainIsSuffix(domain: string, name: string)
    requires Subdomain(name, domain) && name != domain
    ensures HasSuffix(name, "." + domain)
  {
    var n, z := Labels(name), Labels(domain);
    var rest := n[..|n| - |z|];
    assert n == rest + z;
    JoinSplit(name, '.');
    JoinSplit(domain, '.');
    if rest != [] {
      JoinAppend(rest, z, '.');
      var head := Join(rest, '.');
      assert name == head + ("." + domain);
      AppendHasSuffix(head, "." + domain);
    }
  }

  /** The string test agrees with the label-wise subdomain relation; an empty domain selects every name. */
  lemma SelectsIsSubdomain(domain: string, name: string)
    ensures SelectsDomain(domain, name) <==> domain == "" || Subdomain(name, domain)
  {
    if name != domain {
      if HasSuffix(name, "." + domain) {
        SuffixIsSubdomain(domain, name);
      } else if Subdomain(name, domain) {
        SubdomainIsSuffix(domain, name);
      }
    }
  }

  lemma TailTransitive<T>(a: seq<T>, b: seq<T>, c: seq<T>)
    requires IsTail(a, b) && IsTail(b, c)
    ensures IsTail(a, c)
  {
    assert c[|c| - |a|..] == c[|c| - |b|..][|b| - |a|..];
  }

  lemma TailsNest<T>(a: seq<T>, b: seq<T>, c: seq<T>)
    requires IsTail(a, c) && IsTail(b, c) && |a| <= |b|
    ensures IsTail(a, b)
  {
    assert c[|c| - |a|..] == c[|c| - |b|..][|b| - |a|..];
  }

  /** Anything selected under a selected zone is selected by the outer zone. */
  lemma SelectionTransitive(outer: string, zone: string, name: string)
    requires outer != "" && zone != ""
    requires SelectsDomain(outer, zone) && SelectsDomain(zone, name)
    ensures SelectsDomain(outer, name)
  {
    SelectsIsSubdomain(outer, zone);
    SelectsIsSubdomain(zone, name);
    SelectsIsSubdomain(outer, name);
    TailTransitive(Labels(outer), Labels(zone), Labels(name));
  }

  /** Two domains that select the same name are nested. */
  lemma SelectingZonesNest(a: string, b: string, name: string)
    requires a != "" && b != ""
    requires SelectsDomain(a, name) && SelectsDomain(b, name)
    ensures SelectsDomain(a, b) || SelectsDomain(b, a)
  {
    SelectsIsSubdomain(a, name);
    SelectsIsSubdomain(b, name);
    if |Labels(a)| <= |Labels(b)| {
      TailsNest(Labels(a), Labels(b), Labels(name));
      SelectsIsSubdomain(a, b);
    } else {
      TailsNest(Labels(b), Labels(a), Labels(name));
      SelectsIsSubdomain(b, a);
    }
  }

  /** Qualifying the relative name gives the name back, except for the apex written with a leading dot. */
  lemma RelativeNameRoundTrip(zone: string, name: string)
    requires zone != "" && SelectsDomain(zone, name)
    ensures Qualified(zone, RelativeName(zone, name)) == name <==> name != "." + zone
  {
    if name != zone {
      var rr := RelativeName(zone, name);
      assert name == rr + ("." + zone);
      assert name == rr + "." + zone;
    }
  }

  /** The relative name is what stands before the zone and its dot, and nothing for the zone itself. */
  lemma RelativeNameCuts(zone: string, name: string)
    ensures RelativeName(zone, zone) == "" && RelativeName(zone, name + "." + zone) == name
    ensures name != zone && (forall front: string :: name != front + "." + zone) ==> RelativeName(zone, name) == name
  {
    var full := name + "." + zone;
    assert |full| == |name| + 1 + |zone| && full == name + ("." + zone);
    if HasSuffix(name, "." + zone) {
      var front := name[..|name| - |"." + zone|];
      assert name == front + ("." + zone) == front + "." + zone;
    }
  }

  /** Two selected names share a relative name exactly when they are equal or the two spellings of the apex. */
  lemma RelativeNameInjective(zone: string, a: string, b: string)
    requires zone != "" && SelectsDomain(zone, a) && SelectsDomain(zone, b)
    ensures RelativeName(zone, a) == RelativeName(zone, b)
       <==> a == b || {a, b} == {zone, "." + zone}
  {
    RelativeNameRoundTrip(zone, a);
    RelativeNameRoundTrip(zone, b);
    var dotted := "." + zone;
    assert |dotted| == |zone| + 1;
    assert RelativeName(zone, dotted) == "";
    if RelativeName(zone, a) == "" {
      assert a == zone || a == dotted;
    }
    if RelativeName(zone, b) == "" {
      assert b == zone || b == dotted;
    }
    if {a, b} == {zone, dotted} {
      assert a in {zone, dotted} && b in {zone, dotted};
    }
  }
}
