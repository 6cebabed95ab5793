/** Endpoint resolution for ingresses: which endpoints are exposed through
    the ingress, and how they are grouped into one routing rule per host. */
module Endpoints {
  import opened NetworkingTypes
  import opened MapIteration

  /** The endpoints that carry a domain, in their original order. */
  function WithDomains(es: seq<Endpoint>): (r: seq<Endpoint>)
    ensures |r| <= |es|
  {
    if es == [] then []
    else
      var last := es[|es| - 1];
      WithDomains(es[..|es| - 1]) + (if last.domain != "" then [last] else [])
  }

  /** Exactly the endpoints with a domain are kept; the result is empty
      exactly when no endpoint has a domain. */
  lemma {:induction false} WithDomainsMembers(es: seq<Endpoint>)
    ensures forall e :: e in WithDomains(es) <==> e in es && e.domain != ""
    ensures WithDomains(es) == [] <==> forall e :: e in es ==> e.domain == ""
    decreases |es|
  {
    if es != [] {
      var es' := es[..|es| - 1];
      WithDomainsMembers(es');
      assert es == es' + [es[|es| - 1]];
    }
  }

  /** Keeps, in order, the endpoints whose domain is not empty. */
  method EndpointsWithDomains(endpoints: seq<Endpoint>) returns (result: seq<Endpoint>)
    ensures result == WithDomains(endpoints)
  {
    result := [];
    for i := 0 to |endpoints|
      invariant result == WithDomains(endpoints[..i])
    {
      var endpoint := endpoints[i];
      assert endpoints[..i + 1] == endpoints[..i] + [endpoint];
      WithDomainsSnoc(endpoints[..i], endpoint);
      if endpoint.domain != "" {
        result := result + [endpoint];
      }
    }
    assert endpoints[..|endpoints|] == endpoints;
  }

  /** Filtering distributes over concatenation, so the relative order of
      the kept endpoints is the input order. */
  lemma {:induction false} WithDomainsAppend(a: seq<Endpoint>, b: seq<Endpoint>)
    ensures WithDomains(a + b) == WithDomains(a) + WithDomains(b)
    decreases |b|
  {
    if b == [] {
      assert a + b == a;
    } else {
      var b', last := b[..|b| - 1], b[|b| - 1];
      var tail := if last.domain != "" then [last] else [];
      calc {
        WithDomains(a + b);
        { assert a + b == (a + b') + [last]; }
        WithDomains((a + b') + [last]);
        { WithDomainsSnoc(a + b', last); }
        WithDomains(a + b') + tail;
        { WithDomainsAppend(a, b'); }
        (WithDomains(a) + WithDomains(b')) + tail;
        WithDomains(a) + (WithDomains(b') + tail);
        { WithDomainsSnoc(b', last); assert b' + [last] == b; }
        WithDomains(a) + WithDomains(b);
      }
    }
  }

  lemma WithDomainsSnoc(es: seq<Endpoint>, e: Endpoint)
    ensures WithDomains(es + [e]) == WithDomains(es) + (if e.domain != "" then [e] else [])
  {
    assert (es + [e])[..|es|] == es;
  }

  /** Filtering twice is filtering once. */
  lemma {:induction false} WithDomainsIdempotent(es: seq<Endpoint>)
    ensures WithDomains(WithDomains(es)) == WithDomains(es)
    decreases |es|
  {
    if es != [] {
      var es' := es[..|es| - 1];
      var last := es[|es| - 1];
      WithDomainsIdempotent(es');
      var tail := if last.domain != "" then [last] else [];
      WithDomainsAppend(WithDomains(es'), tail);
      assert WithDomains(tail) == tail by {
        if tail != [] {
          assert tail[..0] == [];
        }
      }
    }
  }

  /** An endpoint list whose every entry has a domain is left as it is. */
  lemma {:induction false} WithDomainsKeepsDomained(es: seq<Endpoint>)
    requires forall e :: e in es ==> e.domain != ""
    ensures WithDomains(es) == es
    decreases |es|
  {
    if es != [] {
      var es', last := es[..|es| - 1], es[|es| - 1];
      assert last in es;
      forall e | e in es'
        ensures e.domain != ""
      {
        assert e in es;
      }
      WithDomainsKeepsDomained(es');
      assert es' + [last] == es;
    }
  }

  // ---------------------------------------------------------------------
  // Ingress rules

  datatype PathType = Prefix

  /** One path of an HTTP ingress rule, routed to a port of a service. */
  datatype HTTPIngressPath = HTTPIngressPath(path: string, pathType: PathType, backendService: string, backendPort: int32)

  /** A routing rule for one host. */
  datatype IngressRule = IngressRule(host: string, paths: seq<HTTPIngressPath>)

  /** The path an endpoint contributes: its domain path verbatim, as a
      prefix, routed to the application's service on the endpoint's port. */
  function PathFor(appName: string, e: Endpoint): (p: HTTPIngressPath)
    ensures p.path == e.domainPath && p.pathType == Prefix
    ensures p.backendService == appName && p.backendPort == e.port
  {
    HTTPIngressPath(e.domainPath, Prefix, appName, e.port)
  }

  /** The endpoints whose domain is `d`, in input order. */
  function Group(es: seq<Endpoint>, d: string): (g: seq<Endpoint>)
    ensures |g| <= |es|
  {
    if es == [] then []
    else
      var last := es[|es| - 1];
      Group(es[..|es| - 1], d) + (if last.domain == d then [last] else [])
  }

  /** A group holds exactly the endpoints with its domain. */
  lemma {:induction false} GroupMembers(es: seq<Endpoint>, d: string)
    ensures forall e :: e in Group(es, d) <==> e in es && e.domain == d
    ensures Group(es, d) == [] <==> forall e :: e in es ==> e.domain != d
    decreases |es|
  {
    if es != [] {
      var es' := es[..|es| - 1];
      GroupMembers(es', d);
      assert es == es' + [es[|es| - 1]];
    }
  }

  /** Grouping distributes over concatenation: within a domain, the
      endpoints keep the order they have in the input. */
  lemma {:induction false} GroupAppend(a: seq<Endpoint>, b: seq<Endpoint>, d: string)
    ensures Group(a + b, d) == Group(a, d) + Group(b, d)
    decreases |b|
  {
    if b == [] {
      assert a + b == a;
    } else {
      var b', last := b[..|b| - 1], b[|b| - 1];
      var tail := if last.domain == d then [last] else [];
      calc {
        Group(a + b, d);
        { assert a + b == (a + b') + [last]; }
        Group((a + b') + [last], d);
        { GroupSnoc(a + b', last, d); }
        Group(a + b', d) + tail;
        { GroupAppend(a, b', d); }
        (Group(a, d) + Group(b', d)) + tail;
        Group(a, d) + (Group(b', d) + tail);
        { GroupSnoc(b', last, d); assert b' + [last] == b; }
        Group(a, d) + Group(b, d);
      }
    }
  }

  lemma GroupSnoc(es: seq<Endpoint>, e: Endpoint, d: string)
    ensures Group(es + [e], d) == Group(es, d) + (if e.domain == d then [e] else [])
  {
    assert (es + [e])[..|es|] == es;
  }

  /** The paths of a group of endpoints, one per endpoint, in order. */
  function Paths(appName: string, es: seq<Endpoint>): (ps: seq<HTTPIngressPath>)
    ensures |ps| == |es|
    ensures forall k :: 0 <= k < |es| ==> ps[k] == PathFor(appName, es[k])
  {
    if es == [] then [] else Paths(appName, es[..|es| - 1]) + [PathFor(appName, es[|es| - 1])]
  }

  /** The set of distinct domains of a list of endpoints. */
  function Domains(es: seq<Endpoint>): set<string> {
    set e | e in es :: e.domain
  }

  /** The rule for host `d`: one path per endpoint with that domain. */
  function RuleFor(appName: string, es: seq<Endpoint>, d: string): IngressRule {
    IngressRule(d, Paths(appName, Group(es, d)))
  }

  /** The rules BuildIngressRules produces, as a set: their order follows
      the iteration order of a map and is not determined. */
  function IngressRules(appName: string, es: seq<Endpoint>): set<IngressRule> {
    set d | d in Domains(es) :: RuleFor(appName, es, d)
  }

  /** Number of paths over a list of rules. */
  function TotalPaths(rules: seq<IngressRule>): nat {
    if rules == [] then 0 else |rules[0].paths| + TotalPaths(rules[1..])
  }

  /** Sum of the group sizes over a list of hosts. */
  function GroupSizes(es: seq<Endpoint>, hosts: seq<string>): nat {
    if hosts == [] then 0 else |Group(es, hosts[0])| + GroupSizes(es, hosts[1..])
  }

  /** How often `d` occurs in `hosts`. */
  function Occurrences(hosts: seq<string>, d: string): nat {
    if hosts == [] then 0 else (if hosts[0] == d then 1 else 0) + Occurrences(hosts[1..], d)
  }

  ghost predicate Distinct(hosts: seq<string>) {
    forall i, j :: 0 <= i < j < |hosts| ==> hosts[i] != hosts[j]
  }

  ghost predicate GroupsFor(groups: map<string, seq<Endpoint>>, es: seq<Endpoint>) {
    groups.Keys == Domains(es) && forall d :: d in groups ==> groups[d] == Group(es, d)
  }

  /** Adding one endpoint to the grouping map keeps it the grouping of the
      longer prefix. */
  lemma GroupsStep(groups: map<string, seq<Endpoint>>, es: seq<Endpoint>, e: Endpoint)
    requires GroupsFor(groups, es)
    ensures var old_ := if e.domain in groups then groups[e.domain] else [];
            GroupsFor(groups[e.domain := old_ + [e]], es + [e])
  {
    var es' := es + [e];
    assert es'[..|es'| - 1] == es;
    assert es'[|es'| - 1] == e;
    var old_ := if e.domain in groups then groups[e.domain] else [];
    var g := groups[e.domain := old_ + [e]];
    forall d | d in g
      ensures g[d] == Group(es', d)
    {
      if d != e.domain {
        assert Group(es', d) == Group(es, d);
      } else if e.domain !in groups {
        assert e.domain !in Domains(es);
        GroupMembers(es, d);
        assert forall x :: x in es ==> x.domain != d;
      }
    }
    assert g.Keys == Domains(es') by {
      forall d | d in Domains(es')
        ensures d in g
      {
        var x :| x in es' && x.domain == d;
        if x != e {
          assert x in es;
        }
      }
      forall d | d in g
        ensures d in Domains(es')
      {
        if d != e.domain {
          var x :| x in es && x.domain == d;
          assert x in es';
        } else {
          assert e in es';
        }
      }
    }
  }

  /** Rules built host by host: each listed host's rule is its RuleFor. */
  ghost predicate RulesFor(rules: seq<IngressRule>, appName: string, es: seq<Endpoint>, hosts: seq<string>) {
    |rules| == |hosts| && forall j :: 0 <= j < |hosts| ==> rules[j] == RuleFor(appName, es, hosts[j])
  }

  lemma RulesForStep(rules: seq<IngressRule>, appName: string, es: seq<Endpoint>, hosts: seq<string>, h: string)
    requires RulesFor(rules, appName, es, hosts)
    ensures RulesFor(rules + [RuleFor(appName, es, h)], appName, es, hosts + [h])
  {
  }

  lemma {:induction false} TotalPathsOfRules(rules: seq<IngressRule>, appName: string, es: seq<Endpoint>, hosts: seq<string>)
    requires RulesFor(rules, appName, es, hosts)
    ensures TotalPaths(rules) == GroupSizes(es, hosts)
    decreases |hosts|
  {
    if hosts != [] {
      TotalPathsOfRules(rules[1..], appName, es, hosts[1..]);
    }
  }

  lemma {:induction false} GroupSizesSnoc(es: seq<Endpoint>, e: Endpoint, hosts: seq<string>)
    ensures GroupSizes(es + [e], hosts) == GroupSizes(es, hosts) + Occurrences(hosts, e.domain)
    decreases |hosts|
  {
    var es' := es + [e];
    assert es'[..|es'| - 1] == es;
    if hosts != [] {
      GroupSizesSnoc(es, e, hosts[1..]);
    }
  }

  lemma {:induction false} OccurrencesOfDistinct(hosts: seq<string>, d: string)
    requires Distinct(hosts)
    ensures Occurrences(hosts, d) == (if d in hosts then 1 else 0)
    decreases |hosts|
  {
    if hosts != [] {
      OccurrencesOfDistinct(hosts[1..], d);
      if hosts[0] == d {
        assert d !in hosts[1..] by {
          forall j | 0 <= j < |hosts| - 1
            ensures hosts[1..][j] != d
          {
            assert hosts[1..][j] == hosts[j + 1];
          }
        }
      }
    }
  }

  /** When the hosts are distinct and cover every domain, the groups
      partition the endpoints: their sizes add up to the number of
      endpoints. */
  lemma {:induction false} GroupsPartition(es: seq<Endpoint>, hosts: seq<string>)
    requires Distinct(hosts)
    requires forall d :: d in Domains(es) ==> d in hosts
    ensures GroupSizes(es, hosts) == |es|
    decreases |es|
  {
    if es == [] {
      ZeroGroupSizes(hosts);
    } else {
      var es' := es[..|es| - 1];
      var e := es[|es| - 1];
      assert es' + [e] == es;
      assert forall d :: d in Domains(es') ==> d in Domains(es) by {
        forall d | d in Domains(es')
          ensures d in Domains(es)
        {
          var x :| x in es' && x.domain == d;
          assert x in es;
        }
      }
      GroupsPartition(es', hosts);
      GroupSizesSnoc(es', e, hosts);
      assert e in es;
      OccurrencesOfDistinct(hosts, e.domain);
    }
  }

  lemma {:induction false} ZeroGroupSizes(hosts: seq<string>)
    ensures GroupSizes([], hosts) == 0
    decreases |hosts|
  {
    if hosts != [] {
      ZeroGroupSizes(hosts[1..]);
    }
  }

  /** Groups the endpoints by domain and builds one rule per distinct
      domain; within a rule the paths follow the input order. The order of
      the rules follows the iteration of a map. No endpoint is filtered
      out here: an empty domain gives a rule with an empty host. */
  method BuildIngressRules(appName: string, endpoints: seq<Endpoint>) returns (rules: seq<IngressRule>)
    ensures forall r :: r in rules <==> r in IngressRules(appName, endpoints)
    ensures forall i, j :: 0 <= i < j < |rules| ==> rules[i].host != rules[j].host
    ensures |rules| == |Domains(endpoints)|
    ensures TotalPaths(rules) == |endpoints|
  {
    var groups := GroupByDomain(endpoints);
    var domains, groupList := Range(groups);
    RangeOfGroups(groups, endpoints, domains, groupList);
    rules := BuildRules(appName, endpoints, domains, groupList);
    RulesListed(rules, appName, endpoints, domains);
    TotalPathsOfRules(rules, appName, endpoints, domains);
    GroupsPartition(endpoints, domains);
  }

  /** The second loop of BuildIngressRules: one rule per listed domain,
      with the paths of its group. */
  method BuildRules(appName: string, es: seq<Endpoint>, domains: seq<string>, groupList: seq<seq<Endpoint>>)
    returns (rules: seq<IngressRule>)
    requires |groupList| == |domains|
    requires forall j :: 0 <= j < |domains| ==> groupList[j] == Group(es, domains[j])
    ensures RulesFor(rules, appName, es, domains)
  {
    rules := [];
    for n := 0 to |domains|
      invariant RulesFor(rules, appName, es, domains[..n])
    {
      var paths := BuildPaths(appName, groupList[n]);
      RulesForStep(rules, appName, es, domains[..n], domains[n]);
      assert domains[..n + 1] == domains[..n] + [domains[n]];
      rules := rules + [IngressRule(domains[n], paths)];
    }
    assert domains[..|domains|] == domains;
  }

  /** Ranging over the grouping map lists every domain once, each with its
      group. */
  lemma RangeOfGroups(groups: map<string, seq<Endpoint>>, es: seq<Endpoint>, domains: seq<string>, groupList: seq<seq<Endpoint>>)
    requires GroupsFor(groups, es)
    requires |domains| == |groupList| == |groups.Keys|
    requires forall i :: 0 <= i < |domains| ==> domains[i] in groups && groupList[i] == groups[domains[i]]
    requires forall k :: k in groups ==> k in domains
    requires forall i, j :: 0 <= i < j < |domains| ==> domains[i] != domains[j]
    ensures Distinct(domains)
    ensures forall j :: 0 <= j < |domains| ==> domains[j] in Domains(es) && groupList[j] == Group(es, domains[j])
    ensures forall d :: d in Domains(es) ==> d in domains
  {
  }

  /** The first loop of BuildIngressRules: endpoints grouped by domain,
      each group in input order. */
  method GroupByDomain(endpoints: seq<Endpoint>) returns (groups: map<string, seq<Endpoint>>)
    ensures GroupsFor(groups, endpoints)
  {
    groups := map[];
    for i := 0 to |endpoints|
      invariant GroupsFor(groups, endpoints[..i])
    {
      var endpoint := endpoints[i];
      GroupsStep(groups, endpoints[..i], endpoint);
      assert endpoints[..i + 1] == endpoints[..i] + [endpoint];
      if endpoint.domain !in groups {
        groups := groups[endpoint.domain := []];
      }
      groups := groups[endpoint.domain := groups[endpoint.domain] + [endpoint]];
    }
    assert endpoints[..|endpoints|] == endpoints;
  }

  /** The inner loop of BuildIngressRules: one path per endpoint. */
  method BuildPaths(appName: string, groupEndpoints: seq<Endpoint>) returns (paths: seq<HTTPIngressPath>)
    ensures paths == Paths(appName, groupEndpoints)
  {
    paths := [];
    for k := 0 to |groupEndpoints|
      invariant paths == Paths(appName, groupEndpoints[..k])
    {
      assert groupEndpoints[..k + 1][..k] == groupEndpoints[..k];
      paths := paths + [PathFor(appName, groupEndpoints[k])];
    }
    assert groupEndpoints[..|groupEndpoints|] == groupEndpoints;
  }

  /** The set-level facts about a rule list built over an enumeration of
      the domains. */
  lemma RulesListed(rules: seq<IngressRule>, appName: string, es: seq<Endpoint>, hosts: seq<string>)
    requires RulesFor(rules, appName, es, hosts)
    requires Distinct(hosts)
    requires forall j :: 0 <= j < |hosts| ==> hosts[j] in Domains(es)
    requires forall d :: d in Domains(es) ==> d in hosts
    ensures forall r :: r in rules <==> r in IngressRules(appName, es)
    ensures forall i, j :: 0 <= i < j < |rules| ==> rules[i].host != rules[j].host
    ensures |rules| == |Domains(es)|
  {
    forall r | r in IngressRules(appName, es)
      ensures r in rules
    {
      var d :| d in Domains(es) && r == RuleFor(appName, es, d);
      var j :| 0 <= j < |hosts| && hosts[j] == d;
      assert rules[j] == r;
    }
    var hostSet := set j | 0 <= j < |hosts| :: hosts[j];
    assert hostSet == Domains(es);
    DistinctCard(hosts);
  }

  lemma {:induction false} DistinctCard(hosts: seq<string>)
    requires Distinct(hosts)
    ensures |set j | 0 <= j < |hosts| :: hosts[j]| == |hosts|
    decreases |hosts|
  {
    if hosts != [] {
      var rest := hosts[1..];
      DistinctCard(rest);
      var s := set j | 0 <= j < |hosts| :: hosts[j];
      var s' := set j | 0 <= j < |rest| :: rest[j];
      assert s == s' + {hosts[0]} by {
        forall x | x in s
          ensures x in s' + {hosts[0]}
        {
          var j :| 0 <= j < |hosts| && hosts[j] == x;
          if j > 0 {
            assert rest[j - 1] == x;
          }
        }
      }
      assert hosts[0] !in s' by {
        forall j | 0 <= j < |rest|
          ensures rest[j] != hosts[0]
        {
          assert rest[j] == hosts[j + 1];
        }
      }
    }
  }

  /** Each rule's paths are the endpoints of its host, in input order. */
  lemma RulePaths(appName: string, es: seq<Endpoint>, r: IngressRule, k: int)
    requires r in IngressRules(appName, es)
    requires 0 <= k < |r.paths|
    ensures r.host in Domains(es)
    ensures |r.paths| == |Group(es, r.host)|
    ensures Group(es, r.host)[k] in es && Group(es, r.host)[k].domain == r.host
    ensures r.paths[k] == PathFor(appName, Group(es, r.host)[k])
  {
    GroupMembers(es, r.host);
  }

  /** An endpoint without a domain still gets a rule, for the empty host. */
  lemma EmptyDomainRule(appName: string, es: seq<Endpoint>, e: Endpoint)
    requires e in es && e.domain == ""
    ensures exists r :: r in IngressRules(appName, es) && r.host == "" && PathFor(appName, e) in r.paths
  {
    var r := RuleFor(appName, es, "");
    assert "" in Domains(es);
    GroupMembers(es, "");
    assert e in Group(es, "");
    var k :| 0 <= k < |Group(es, "")| && Group(es, "")[k] == e;
    assert r.paths[k] == PathFor(appName, e);
  }

  /** Two endpoints on one domain give one rule with two paths, in order. */
  lemma SharedDomainExample(appName: string)
    ensures var es := [Endpoint(80, "a.com", "/"), Endpoint(8080, "a.com", "/api")];
            IngressRules(appName, es) == {IngressRule("a.com", [HTTPIngressPath("/", Prefix, appName, 80), HTTPIngressPath("/api", Prefix, appName, 8080)])}
  {
    var es := [Endpoint(80, "a.com", "/"), Endpoint(8080, "a.com", "/api")];
    var rule := IngressRule("a.com", [HTTPIngressPath("/", Prefix, appName, 80), HTTPIngressPath("/api", Prefix, appName, 8080)]);
    SharedDomainRule(appName, es);
    SharedDomainDomains(es);
    forall r | r in IngressRules(appName, es)
      ensures r == rule
    {
      var d :| d in Domains(es) && r == RuleFor(appName, es, d);
    }
    assert rule in IngressRules(appName, es);
  }

  /** The rule of the shared domain in the example above. */
  lemma SharedDomainRule(appName: string, es: seq<Endpoint>)
    requires es == [Endpoint(80, "a.com", "/"), Endpoint(8080, "a.com", "/api")]
    ensures RuleFor(appName, es, "a.com") == IngressRule("a.com", [HTTPIngressPath("/", Prefix, appName, 80), HTTPIngressPath("/api", Prefix, appName, 8080)])
  {
    assert es[..1] == [es[0]];
    assert [es[0]][..0] == [];
    assert Group([es[0]], "a.com") == [es[0]];
    assert Group(es, "a.com") == es;
    assert Paths(appName, es) == [PathFor(appName, es[0]), PathFor(appName, es[1])];
  }

  /** The example above has the one domain. */
  lemma SharedDomainDomains(es: seq<Endpoint>)
    requires es == [Endpoint(80, "a.com", "/"), Endpoint(8080, "a.com", "/api")]
    ensures Domains(es) == {"a.com"}
  {
    assert es[0] in es;
  }
}
