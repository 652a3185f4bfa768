/** Rewriting a tunnel's ingress list when domain access to a hostname is switched on or off. */
module Ingress {
  import opened Common

  /** A rule without a hostname is a catch-all. */
  datatype Rule = Rule(hostname: Option<string>, service: string)

  const TUNNEL_SERVICE := "http://traefik:80"
  const CATCH_ALL_SERVICE := "http_status:404"

  predicate Names(rule: Rule, hostname: string)
  {
    rule.hostname.Some? && Lower(rule.hostname.value) == hostname
  }

  function Retained(rules: seq<Rule>, hostname: string): seq<Rule>
  {
    if rules == [] then []
    else if Names(rules[0], hostname) then Retained(rules[1..], hostname)
    else [rules[0]] + Retained(rules[1..], hostname)
  }

  function NamedRules(rules: seq<Rule>): seq<Rule>
  {
    if rules == [] then []
    else if rules[0].hostname.None? then NamedRules(rules[1..])
    else [rules[0]] + NamedRules(rules[1..])
  }

  function CatchAllRules(rules: seq<Rule>): seq<Rule>
  {
    if rules == [] then []
    else if rules[0].hostname.Some? then CatchAllRules(rules[1..])
    else [rules[0]] + CatchAllRules(rules[1..])
  }

  function CatchAllsOrDefault(rules: seq<Rule>): seq<Rule>
  {
    var found := CatchAllRules(rules);
    if found != [] then found else [Rule(None, CATCH_ALL_SERVICE)]
  }

  function EnabledIngress(rules: seq<Rule>, hostname: string): seq<Rule>
  {
    var retained := Retained(rules, hostname);
    NamedRules(retained) + [Rule(Some(hostname), TUNNEL_SERVICE)] + CatchAllsOrDefault(retained)
  }

  function DisabledIngress(rules: seq<Rule>, hostname: string): seq<Rule>
  {
    var retained := Retained(rules, hostname);
    NamedRules(retained) + CatchAllsOrDefault(retained)
  }

  // ---------------------------------------------------------------- what a list means

  predicate Serves(rule: Rule, host: string) { rule.hostname.None? || Names(rule, host) }

  /** The service of the first rule that serves the host; a host no rule serves gets the 404 service. */
  function Route(rules: seq<Rule>, host: string): string
  {
    if rules == [] then CATCH_ALL_SERVICE
    else if Serves(rules[0], host) then rules[0].service
    else Route(rules[1..], host)
  }

  /** The service of the first rule that names the host. */
  function NamedRoute(rules: seq<Rule>, host: string): Option<string>
  {
    if rules == [] then None
    else if Names(rules[0], host) then Some(rules[0].service)
    else NamedRoute(rules[1..], host)
  }

  /** A catch-all stands before the first rule that names the host, and hides it. */
  predicate Shadowed(rules: seq<Rule>, host: string)
  {
    rules != [] && !Names(rules[0], host)
    && if rules[0].hostname.None? then NamedRoute(rules[1..], host).Some? else Shadowed(rules[1..], host)
  }

  predicate CatchAllsLast(rules: seq<Rule>)
  {
    forall i, j :: 0 <= i < j < |rules| && rules[i].hostname.None? ==> rules[j].hostname.None?
  }

  // ---------------------------------------------------------------- lemmas about the parts

  lemma {:induction false} RouteByParts(rules: seq<Rule>, host: string)
    ensures Route(rules, host) ==
      if NamedRoute(rules, host).Some? && !Shadowed(rules, host) then NamedRoute(rules, host).value
      else Route(CatchAllRules(rules), host)
  {
    if rules != [] {
      if rules[0].hostname.None? {
        assert CatchAllRules(rules)[0] == rules[0];
      } else if !Names(rules[0], host) {
        RouteByParts(rules[1..], host);
        assert CatchAllRules(rules) == CatchAllRules(rules[1..]);
      }
    }
  }

  lemma {:induction false} RetainedParts(rules: seq<Rule>, hostname: string, host: string)
    ensures CatchAllRules(Retained(rules, hostname)) == CatchAllRules(rules)
    ensures host != hostname ==> NamedRoute(Retained(rules, hostname), host) == NamedRoute(rules, host)
    ensures host == hostname ==> NamedRoute(Retained(rules, hostname), host) == None
  {
    if rules != [] {
      RetainedParts(rules[1..], hostname, host);
      var rest := Retained(rules[1..], hostname);
      if !Names(rules[0], hostname) {
        assert Retained(rules, hostname)[1..] == rest;
      } else {
        assert Retained(rules, hostname) == rest;
      }
    }
  }

  lemma {:induction false} RetainedOnly(rules: seq<Rule>, hostname: string)
    ensures forall r :: r in Retained(rules, hostname) ==> !Names(r, hostname)
  {
    if rules != [] { RetainedOnly(rules[1..], hostname); }
  }

  lemma {:induction false} RetainedAll(rules: seq<Rule>, hostname: string)
    requires forall r :: r in rules ==> !Names(r, hostname)
    ensures Retained(rules, hostname) == rules
  {
    if rules != [] { RetainedAll(rules[1..], hostname); }
  }

  lemma {:induction false} PartsOf(rules: seq<Rule>)
    ensures forall r :: r in NamedRules(rules) <==> r in rules && r.hostname.Some?
    ensures forall r :: r in CatchAllRules(rules) <==> r in rules && r.hostname.None?
  {
    if rules != [] { PartsOf(rules[1..]); }
  }

  lemma {:induction false} AllNamed(rules: seq<Rule>)
    requires forall r :: r in rules ==> r.hostname.Some?
    ensures NamedRules(rules) == rules && CatchAllRules(rules) == []
  {
    if rules != [] { AllNamed(rules[1..]); }
  }

  lemma {:induction false} AllCatchAll(rules: seq<Rule>)
    requires forall r :: r in rules ==> r.hostname.None?
    ensures NamedRules(rules) == [] && CatchAllRules(rules) == rules
  {
    if rules != [] { AllCatchAll(rules[1..]); }
  }

  lemma {:induction false} NamedConcat(a: seq<Rule>, b: seq<Rule>)
    ensures NamedRules(a + b) == NamedRules(a) + NamedRules(b)
  {
    if a == [] {
      assert a + b == b;
    } else {
      assert (a + b)[1..] == a[1..] + b;
      NamedConcat(a[1..], b);
    }
  }

  lemma {:induction false} CatchAllConcat(a: seq<Rule>, b: seq<Rule>)
    ensures CatchAllRules(a + b) == CatchAllRules(a) + CatchAllRules(b)
  {
    if a == [] {
      assert a + b == b;
    } else {
      assert (a + b)[1..] == a[1..] + b;
      CatchAllConcat(a[1..], b);
    }
  }

  lemma {:induction false} RetainedConcat(a: seq<Rule>, b: seq<Rule>, hostname: string)
    ensures Retained(a + b, hostname) == Retained(a, hostname) + Retained(b, hostname)
  {
    if a == [] {
      assert a + b == b;
    } else {
      assert (a + b)[1..] == a[1..] + b;
      RetainedConcat(a[1..], b, hostname);
    }
  }

  lemma {:induction false} NamedRouteConcat(a: seq<Rule>, b: seq<Rule>, host: string)
    ensures NamedRoute(a + b, host) == if NamedRoute(a, host).Some? then NamedRoute(a, host) else NamedRoute(b, host)
  {
    if a == [] {
      assert a + b == b;
    } else {
      assert (a + b)[1..] == a[1..] + b;
      NamedRouteConcat(a[1..], b, host);
    }
  }

  lemma PartsConcat(a: seq<Rule>, b: seq<Rule>, hostname: string)
    ensures NamedRules(a + b) == NamedRules(a) + NamedRules(b)
    ensures CatchAllRules(a + b) == CatchAllRules(a) + CatchAllRules(b)
    ensures Retained(a + b, hostname) == Retained(a, hostname) + Retained(b, hostname)
    ensures NamedRoute(a + b, hostname) == if NamedRoute(a, hostname).Some? then NamedRoute(a, hostname)
      else NamedRoute(b, hostname)
  {
    NamedConcat(a, b);
    CatchAllConcat(a, b);
    RetainedConcat(a, b, hostname);
    NamedRouteConcat(a, b, hostname);
  }

  lemma {:induction false} NamedOfParts(rules: seq<Rule>, host: string)
    ensures NamedRoute(NamedRules(rules), host) == NamedRoute(rules, host)
    ensures NamedRoute(CatchAllRules(rules), host) == None
  {
    if rules != [] {
      NamedOfParts(rules[1..], host);
      if rules[0].hostname.Some? {
        assert NamedRules(rules)[1..] == NamedRules(rules[1..]);
        assert CatchAllRules(rules) == CatchAllRules(rules[1..]);
      } else {
        assert NamedRules(rules) == NamedRules(rules[1..]);
        assert CatchAllRules(rules)[1..] == CatchAllRules(rules[1..]);
      }
    }
  }

  lemma {:induction false} NotShadowed(named: seq<Rule>, rest: seq<Rule>, host: string)
    requires forall r :: r in named ==> r.hostname.Some?
    requires forall r :: r in rest ==> r.hostname.None?
    ensures !Shadowed(named + rest, host)
  {
    if named == [] {
      assert named + rest == rest;
      NoneNamed(rest, host);
      if rest != [] { NoneNamed(rest[1..], host); }
    } else {
      assert (named + rest)[1..] == named[1..] + rest;
      NotShadowed(named[1..], rest, host);
    }
  }

  lemma {:induction false} NoneNamed(rest: seq<Rule>, host: string)
    requires forall r :: r in rest ==> r.hostname.None?
    ensures NamedRoute(rest, host) == None
  {
    if rest != [] { NoneNamed(rest[1..], host); }
  }

  /** What a list of named rules followed by catch-alls means. */
  lemma SortedRoute(named: seq<Rule>, rest: seq<Rule>, host: string)
    requires forall r :: r in named ==> r.hostname.Some?
    requires rest != [] && forall r :: r in rest ==> r.hostname.None?
    ensures Route(named + rest, host) == if NamedRoute(named, host).Some? then NamedRoute(named, host).value
      else rest[0].service
  {
    RouteByParts(named + rest, host);
    NotShadowed(named, rest, host);
    PartsConcat(named, rest, host);
    NoneNamed(rest, host);
    AllNamed(named);
    AllCatchAll(rest);
  }

  lemma FirstCatchAll(rules: seq<Rule>, host: string)
    ensures CatchAllsOrDefault(rules)[0].service == Route(CatchAllRules(rules), host)
    ensures forall r :: r in CatchAllsOrDefault(rules) ==> r.hostname.None?
  {
    PartsOf(rules);
    if CatchAllRules(rules) != [] { assert CatchAllRules(rules)[0] in CatchAllRules(rules); }
  }

  // ---------------------------------------------------------------- routing

  /** The hostname goes to the tunnel once enabled, and where the catch-alls go once disabled. */
  lemma OwnRoute(rules: seq<Rule>, hostname: string)
    requires hostname == Lower(hostname)
    ensures Route(EnabledIngress(rules, hostname), hostname) == TUNNEL_SERVICE
    ensures Route(DisabledIngress(rules, hostname), hostname) == Route(CatchAllRules(rules), hostname)
  {
    var retained := Retained(rules, hostname);
    var named, rest := NamedRules(retained), CatchAllsOrDefault(retained);
    var rule := Rule(Some(hostname), TUNNEL_SERVICE);
    PartsOf(retained);
    FirstCatchAll(retained, hostname);
    RetainedParts(rules, hostname, hostname);
    NamedOfParts(retained, hostname);
    PartsConcat(named, [rule], hostname);
    SortedRoute(named + [rule], rest, hostname);
    SortedRoute(named, rest, hostname);
  }

  lemma OtherNewRoute(rules: seq<Rule>, hostname: string, host: string)
    requires host != Lower(hostname) && host != hostname
    ensures var route := if NamedRoute(rules, host).Some? then NamedRoute(rules, host).value
      else Route(CatchAllRules(rules), host);
      Route(EnabledIngress(rules, hostname), host) == route && Route(DisabledIngress(rules, hostname), host) == route
  {
    var retained := Retained(rules, hostname);
    var named, rest := NamedRules(retained), CatchAllsOrDefault(retained);
    var rule := Rule(Some(hostname), TUNNEL_SERVICE);
    PartsOf(retained);
    FirstCatchAll(retained, host);
    RetainedParts(rules, hostname, host);
    NamedOfParts(retained, host);
    PartsConcat(named, [rule], host);
    SortedRoute(named + [rule], rest, host);
    SortedRoute(named, rest, host);
  }

  /**
   * Every other host keeps its target through both rewrites exactly when no catch-all with another target hides
   * the first rule that names it; the rewrites put catch-alls last and so bring a hidden rule into effect.
   */
  lemma OtherRouteIff(rules: seq<Rule>, hostname: string, host: string)
    requires host != Lower(hostname) && host != hostname
    ensures var kept := Shadowed(rules, host) ==> NamedRoute(rules, host) == Some(Route(CatchAllRules(rules), host));
      && (Route(EnabledIngress(rules, hostname), host) == Route(rules, host) <==> kept)
      && (Route(DisabledIngress(rules, hostname), host) == Route(rules, host) <==> kept)
  {
    OtherNewRoute(rules, hostname, host);
    RouteByParts(rules, host);
    if Shadowed(rules, host) { ShadowedNamed(rules, host); }
  }

  lemma {:induction false} ShadowedNamed(rules: seq<Rule>, host: string)
    requires Shadowed(rules, host)
    ensures NamedRoute(rules, host).Some?
  {
    if rules[0].hostname.Some? { ShadowedNamed(rules[1..], host); }
  }

  lemma {:induction false} LastNeverShadows(rules: seq<Rule>, host: string)
    requires CatchAllsLast(rules)
    ensures !Shadowed(rules, host)
  {
    if rules != [] {
      if rules[0].hostname.None? {
        NoneNamed(rules[1..], host);
      } else {
        LastNeverShadows(rules[1..], host);
      }
    }
  }

  /** With catch-alls last, as Cloudflare demands, both rewrites change the target of their hostname only. */
  lemma OnlyOwnRouteChanges(rules: seq<Rule>, hostname: string, host: string)
    requires hostname == Lower(hostname) && host != hostname && CatchAllsLast(rules)
    ensures Route(EnabledIngress(rules, hostname), host) == Route(rules, host)
    ensures Route(DisabledIngress(rules, hostname), host) == Route(rules, host)
  {
    OtherRouteIff(rules, hostname, host);
    LastNeverShadows(rules, host);
  }

  // ---------------------------------------------------------------- the lists themselves

  /** Both rewrites keep unrelated named rules and existing catch-alls, in order, and put catch-alls last. */
  lemma OrderKept(rules: seq<Rule>, hostname: string)
    requires hostname == Lower(hostname)
    ensures var on, off := EnabledIngress(rules, hostname), DisabledIngress(rules, hostname);
      && NamedRules(Retained(on, hostname)) == NamedRules(Retained(rules, hostname))
         == NamedRules(Retained(off, hostname))
      && CatchAllRules(on) == CatchAllsOrDefault(rules) == CatchAllRules(off)
      && CatchAllsLast(on) && CatchAllsLast(off)
  {
    Shape(rules, hostname);
    Reshape(rules, hostname);
    var named, rest := NamedRules(Retained(rules, hostname)), CatchAllsOrDefault(rules);
    var rule := Rule(Some(hostname), TUNNEL_SERVICE);
    Parts(named, rest, hostname);
    Parts(named + [rule], rest, hostname);
  }

  /** What the parts of a rewritten list are. */
  lemma Shape(rules: seq<Rule>, hostname: string)
    ensures var named, rest := NamedRules(Retained(rules, hostname)), CatchAllsOrDefault(rules);
      && EnabledIngress(rules, hostname) == named + [Rule(Some(hostname), TUNNEL_SERVICE)] + rest
      && DisabledIngress(rules, hostname) == named + rest
      && rest != [] && (forall r :: r in named ==> r.hostname.Some? && !Names(r, hostname))
      && (forall r :: r in rest ==> r.hostname.None?)
  {
    RetainedParts(rules, hostname, hostname);
    FirstCatchAll(rules, hostname);
    PartsOf(Retained(rules, hostname));
    RetainedOnly(rules, hostname);
  }

  /** Filtering a rewritten list again leaves its unrelated rules. */
  lemma Reshape(rules: seq<Rule>, hostname: string)
    requires hostname == Lower(hostname)
    ensures var named, rest := NamedRules(Retained(rules, hostname)), CatchAllsOrDefault(rules);
      && Retained(EnabledIngress(rules, hostname), hostname) == named + rest
      && Retained(DisabledIngress(rules, hostname), hostname) == named + rest
  {
    var named, rest := NamedRules(Retained(rules, hostname)), CatchAllsOrDefault(rules);
    var rule := Rule(Some(hostname), TUNNEL_SERVICE);
    Shape(rules, hostname);
    RetainedAll(named, hostname);
    RetainedAll(rest, hostname);
    PartsConcat(named, [rule], hostname);
    assert Retained([rule], hostname) == [] && named + [] == named;
    PartsConcat(named + [rule], rest, hostname);
    PartsConcat(named, rest, hostname);
  }

  lemma Parts(named: seq<Rule>, rest: seq<Rule>, hostname: string)
    requires rest != [] && (forall r :: r in named ==> r.hostname.Some?) && (forall r :: r in rest ==> r.hostname.None?)
    ensures NamedRules(named + rest) == named && CatchAllRules(named + rest) == rest
      && CatchAllsOrDefault(named + rest) == rest
  {
    PartsConcat(named, rest, hostname);
    AllNamed(named);
    AllCatchAll(rest);
    assert named + [] == named && [] + rest == rest;
  }

  lemma RewriteAgain(rules: seq<Rule>, again: seq<Rule>, hostname: string)
    requires Retained(again, hostname) == NamedRules(Retained(rules, hostname)) + CatchAllsOrDefault(rules)
    ensures EnabledIngress(again, hostname) == EnabledIngress(rules, hostname)
    ensures DisabledIngress(again, hostname) == DisabledIngress(rules, hostname)
  {
    Shape(rules, hostname);
    Parts(NamedRules(Retained(rules, hostname)), CatchAllsOrDefault(rules), hostname);
  }

  /** Each rewrite twice is that rewrite once, and after either, the other gives what it gives alone. */
  lemma RewritesCompose(rules: seq<Rule>, hostname: string)
    requires hostname == Lower(hostname)
    ensures var on, off := EnabledIngress(rules, hostname), DisabledIngress(rules, hostname);
      && EnabledIngress(on, hostname) == on && DisabledIngress(off, hostname) == off
      && DisabledIngress(on, hostname) == off && EnabledIngress(off, hostname) == on
  {
    Reshape(rules, hostname);
    RewriteAgain(rules, EnabledIngress(rules, hostname), hostname);
    RewriteAgain(rules, DisabledIngress(rules, hostname), hostname);
  }

  /** Enabling is idempotent exactly for lower-case hostnames, the form hostname validation returns. */
  lemma EnableIdempotentIff(rules: seq<Rule>, hostname: string)
    ensures EnabledIngress(EnabledIngress(rules, hostname), hostname) == EnabledIngress(rules, hostname)
      <==> hostname == Lower(hostname)
  {
    if hostname == Lower(hostname) {
      RewritesCompose(rules, hostname);
    } else {
      var retained := Retained(rules, hostname);
      var named, rest := NamedRules(retained), CatchAllsOrDefault(retained);
      var on := EnabledIngress(rules, hostname);
      PartsOf(retained);
      FirstCatchAll(retained, hostname);
      RetainedOnly(rules, hostname);
      RetainedAll(on, hostname);
      PartsConcat(named + [Rule(Some(hostname), TUNNEL_SERVICE)], rest, hostname);
      AllNamed(named + [Rule(Some(hostname), TUNNEL_SERVICE)]);
      AllCatchAll(rest);
    }
  }
}
