/** The whole VirtualService and DestinationRule of a service, and what Istio makes of them: the HTTP
    routes are an ordered list of which the first match applies. */
module VirtualServices {
  import opened Wrappers
  import opened Durations
  import opened Subsets
  import opened Routes
  import opened Resources

  const HTTP_ROUTE_NAME := "dubbo-http-route"
  const DEFAULT_ROUTE_NAME := "dubbo-default-route"

  /** A missing label reads as the empty string. */
  function LabelOf(s: Subset, k: string): string { if k in s.labels then s.labels[k] else "" }

  function MatchOf(keys: seq<string>, s: Subset): Labels { map k | k in keys :: LabelOf(s, k) }

  method BuildMatch(keys: seq<string>, s: Subset) returns (m: Labels)
    ensures m == MatchOf(keys, s)
    ensures forall k :: k in m <==> k in keys
    ensures forall k :: k in keys ==> if k in s.labels then m[k] == s.labels[k] else m[k] == ""
  {
    m := map[];
    for i := 0 to |keys|
      invariant m == MatchOf(keys[..i], s)
    {
      m := m[keys[i] := LabelOf(s, keys[i])];
      assert keys[..i + 1] == keys[..i] + [keys[i]];
    }
    assert keys[..|keys|] == keys;
  }

  function DefaultRoute(opt: Options, host: string): HttpRoute {
    HttpRoute(DEFAULT_ROUTE_NAME, None, [Destination(host, "", 0)], None,
              Retry(opt.proxyAttempts, Some(Duration(opt.proxyPerTryTimeout, 0))))
  }

  function ServiceConfigRoute(sc: ServiceConfig, mesh: Mesh, s: Subset, actual: seq<Subset>): HttpRoute {
    HttpRoute(HTTP_ROUTE_NAME + "-" + s.name, Some(MatchOf(mesh.matchKeys, s)),
              ServiceConfigRoutes(sc.name, sc.manual, s, actual, mesh.globals),
              TimeoutOf(mesh.policy, sc.policy.timeout, sc.policy.maxRetries),
              RetriesOf(mesh.policy, sc.policy.timeout, sc.policy.maxRetries))
  }

  /** The time a route may take, all in all and per attempt. */
  datatype Budget = Budget(timeout: Option<Duration>, retries: Retry)

  function TimeoutLabel(labels: Labels): string { if "timeout" in labels then labels["timeout"] else "" }

  function RetriesLabel(labels: Labels): int { if "retries" in labels then ParseInt(labels["retries"]).0 else 0 }

  /** What the labels of one instance ask for. */
  function BudgetOf(policy: Policy, labels: Labels): Budget {
    var timeout, retries := TimeoutLabel(labels), RetriesLabel(labels);
    Budget(TimeoutOf(policy, timeout, retries), RetriesOf(policy, timeout, Int32(retries)))
  }

  /** The first instance decides. */
  function BudgetOfFirst(policy: Policy, instances: seq<Instance>): Budget {
    BudgetOf(policy, if instances == [] then map[] else instances[0].labels)
  }

  function ConfiguredServiceRoute(cs: ConfiguredService, mesh: Mesh, s: Subset, actual: seq<Subset>): HttpRoute {
    var budget := BudgetOfFirst(mesh.policy, cs.instances);
    HttpRoute(HTTP_ROUTE_NAME + "-" + s.name, Some(MatchOf(mesh.matchKeys, s)), Reroute(cs.name, s, actual),
              budget.timeout, budget.retries)
  }

  predicate HasDefaultRoute(sc: ServiceConfig) { sc.rerouteOption != Some(Unchangeable) }

  function ServiceConfigHttp(sc: ServiceConfig, mesh: Mesh, opt: Options, actual: seq<Subset>): seq<HttpRoute> {
    seq(|mesh.globals|, i requires 0 <= i < |mesh.globals| => ServiceConfigRoute(sc, mesh, mesh.globals[i], actual))
    + if HasDefaultRoute(sc) then [DefaultRoute(opt, sc.name)] else []
  }

  function ConfiguredServiceHttp(cs: ConfiguredService, mesh: Mesh, opt: Options, actual: seq<Subset>): seq<HttpRoute> {
    (if actual == [] then []
     else
       seq(|mesh.globals|, i requires 0 <= i < |mesh.globals| =>
         ConfiguredServiceRoute(cs, mesh, mesh.globals[i], actual)))
    + [DefaultRoute(opt, cs.name)]
  }

  function RuleSubsets(actual: seq<Subset>): seq<RuleSubset> {
    seq(|actual|, i requires 0 <= i < |actual| =>
      RuleSubset(actual[i].name, actual[i].labels,
                 if actual[i].balancer.Some? then Some(BalancerNamed(actual[i].balancer.value)) else None))
  }

  // ----- the code -----

  method BuildServiceConfigRoute(sc: ServiceConfig, mesh: Mesh, s: Subset, actual: seq<Subset>) returns (r: HttpRoute)
    ensures r == ServiceConfigRoute(sc, mesh, s, actual)
  {
    var routes := BuildServiceConfigRoutes(sc.name, sc.manual, s, actual, mesh.globals);
    var matching := BuildMatch(mesh.matchKeys, s);
    var timeout := GetTimeout(mesh.policy, sc.policy.timeout, sc.policy.maxRetries);
    var retries := GetRetries(mesh.policy, sc.policy.timeout, sc.policy.maxRetries);
    r := HttpRoute(HTTP_ROUTE_NAME + "-" + s.name, Some(matching), routes, timeout, retries);
  }

  method BuildConfiguredServiceRoute(cs: ConfiguredService, mesh: Mesh, s: Subset, actual: seq<Subset>)
    returns (r: HttpRoute)
    ensures r == ConfiguredServiceRoute(cs, mesh, s, actual)
  {
    var routes := BuildConfiguredServiceRoutes(cs.name, s, actual);
    var matching := BuildMatch(mesh.matchKeys, s);
    var timeout, retries := "", 0;
    if |cs.instances| > 0 {   // the loop over the instances breaks after the first
      var labels := cs.instances[0].labels;
      if "timeout" in labels {
        timeout := labels["timeout"];
      }
      if "retries" in labels {
        retries := ParseInt(labels["retries"]).0;
      }
    }
    var total := GetTimeout(mesh.policy, timeout, retries);
    var retry := GetRetries(mesh.policy, timeout, Int32(retries));
    r := HttpRoute(HTTP_ROUTE_NAME + "-" + s.name, Some(matching), routes, total, retry);
  }

  method BuildServiceConfigHttp(sc: ServiceConfig, mesh: Mesh, opt: Options, actual: seq<Subset>)
    returns (http: seq<HttpRoute>)
    ensures http == ServiceConfigHttp(sc, mesh, opt, actual)
  {
    http := [];
    for i := 0 to |mesh.globals|
      invariant |http| == i
      invariant forall j :: 0 <= j < i ==> http[j] == ServiceConfigRoute(sc, mesh, mesh.globals[j], actual)
    {
      var r := BuildServiceConfigRoute(sc, mesh, mesh.globals[i], actual);
      http := http + [r];
    }
    if sc.rerouteOption.None? || sc.rerouteOption.value != Unchangeable {
      http := http + [DefaultRoute(opt, sc.name)];
    }
  }

  method BuildConfiguredServiceHttp(cs: ConfiguredService, mesh: Mesh, opt: Options, actual: seq<Subset>)
    returns (http: seq<HttpRoute>)
    ensures http == ConfiguredServiceHttp(cs, mesh, opt, actual)
  {
    http := [];
    if |actual| > 0 {
      for i := 0 to |mesh.globals|
        invariant |http| == i
        invariant forall j :: 0 <= j < i ==> http[j] == ConfiguredServiceRoute(cs, mesh, mesh.globals[j], actual)
      {
        var r := BuildConfiguredServiceRoute(cs, mesh, mesh.globals[i], actual);
        http := http + [r];
      }
    }
    http := http + [DefaultRoute(opt, cs.name)];
  }

  method BuildRuleSubsets(actual: seq<Subset>) returns (subsets: seq<RuleSubset>)
    ensures subsets == RuleSubsets(actual)
  {
    subsets := [];
    for i := 0 to |actual|
      invariant subsets == RuleSubsets(actual)[..i]
    {
      var subset := RuleSubset(actual[i].name, actual[i].labels, None);
      if actual[i].balancer.Some? {
        subset := subset.(balancer := Some(BalancerNamed(actual[i].balancer.value)));
      }
      subsets := subsets + [subset];
    }
  }

  // ----- what Istio makes of it -----

  /** A consumer: the labels of its workload and the headers of its request. */
  datatype Consumer = Consumer(labels: Labels, headers: Labels)

  predicate Has(m: Labels, want: Labels) { forall k <- want :: k in m && m[k] == want[k] }

  predicate Matches(r: HttpRoute, c: Consumer) {
    r.matching.None? || (Has(c.labels, r.matching.value) && Has(c.headers, r.matching.value))
  }

  /** The first route that matches applies. */
  function FirstMatch(http: seq<HttpRoute>, c: Consumer): Option<nat> {
    if http == [] then None
    else if Matches(http[0], c) then Some(0)
    else match FirstMatch(http[1..], c)
      case None => None
      case Some(i) => Some(i + 1)
  }

  /** The labels give k the value that the subset's labels give it; a subset without it has it empty. */
  predicate AgreesOn(labels: Labels, s: Subset, k: string) {
    k in labels && if k in s.labels then labels[k] == s.labels[k] else labels[k] == ""
  }

  /** A consumer of the subset: its labels and headers are the subset's on every match key. */
  predicate LabelledAs(c: Consumer, s: Subset, keys: seq<string>) {
    forall k <- keys :: AgreesOn(c.labels, s, k) && AgreesOn(c.headers, s, k)
  }

  /** The subsets' labels differ in k, where a missing one is as good as an empty one. */
  predicate DifferIn(a: Subset, b: Subset, k: string) {
    if k in a.labels && k in b.labels then a.labels[k] != b.labels[k]
    else if k in a.labels then a.labels[k] != ""
    else k in b.labels && b.labels[k] != ""
  }

  /** Any two global subsets differ in some match key. */
  ghost predicate Separates(mesh: Mesh) {
    forall i, j :: 0 <= i < j < |mesh.globals| ==>
      exists k :: k in mesh.matchKeys && DifferIn(mesh.globals[i], mesh.globals[j], k)
  }

  lemma {:induction false} MatchesIff(r: HttpRoute, c: Consumer, s: Subset, keys: seq<string>)
    requires r.matching == Some(MatchOf(keys, s))
    ensures Matches(r, c) <==> LabelledAs(c, s, keys)
  {
    var m := MatchOf(keys, s);
    assert forall k :: k in m <==> k in keys;
    assert forall k <- keys :: if k in s.labels then m[k] == s.labels[k] else m[k] == "";
  }

  lemma {:induction false} NotBoth(c: Consumer, a: Subset, b: Subset, keys: seq<string>)
    requires exists k :: k in keys && DifferIn(a, b, k)
    ensures !(LabelledAs(c, a, keys) && LabelledAs(c, b, keys))
  {
  }

  lemma {:induction false} FirstMatchIs(http: seq<HttpRoute>, c: Consumer, j: nat)
    requires j < |http| && Matches(http[j], c)
    requires forall i :: 0 <= i < j ==> !Matches(http[i], c)
    ensures FirstMatch(http, c) == Some(j)
  {
    if j > 0 {
      FirstMatchIs(http[1..], c, j - 1);
    }
  }

  lemma {:induction false} NoMatch(http: seq<HttpRoute>, c: Consumer)
    requires forall i :: 0 <= i < |http| ==> !Matches(http[i], c)
    ensures FirstMatch(http, c).None?
  {
    if http != [] {
      NoMatch(http[1..], c);
    }
  }

  /** With separating keys a consumer labelled as a global subset gets exactly the route built for
      that subset; a consumer of no subset gets the default route, or none under Unchangeable. */
  lemma {:induction false} CompilationPreservesMeaning(sc: ServiceConfig, mesh: Mesh, opt: Options, actual: seq<Subset>,
                                                       c: Consumer)
    requires Separates(mesh)
    ensures var http := ServiceConfigHttp(sc, mesh, opt, actual);
      && (forall j :: 0 <= j < |mesh.globals| && LabelledAs(c, mesh.globals[j], mesh.matchKeys) ==>
          FirstMatch(http, c) == Some(j)
          && http[j].routes == ServiceConfigRoutes(sc.name, sc.manual, mesh.globals[j], actual, mesh.globals))
      && ((forall s <- mesh.globals :: !LabelledAs(c, s, mesh.matchKeys)) ==>
          if sc.rerouteOption == Some(Unchangeable) then FirstMatch(http, c).None?
          else FirstMatch(http, c) == Some(|mesh.globals|) && http[|mesh.globals|] == DefaultRoute(opt, sc.name))
  {
    var http := ServiceConfigHttp(sc, mesh, opt, actual);
    forall i | 0 <= i < |mesh.globals|
      ensures Matches(http[i], c) <==> LabelledAs(c, mesh.globals[i], mesh.matchKeys)
    {
      MatchesIff(http[i], c, mesh.globals[i], mesh.matchKeys);
    }
    forall j | 0 <= j < |mesh.globals| && LabelledAs(c, mesh.globals[j], mesh.matchKeys)
      ensures FirstMatch(http, c) == Some(j)
    {
      forall i | 0 <= i < j
        ensures !Matches(http[i], c)
      {
        NotBoth(c, mesh.globals[i], mesh.globals[j], mesh.matchKeys);
      }
      FirstMatchIs(http, c, j);
    }
    if forall s <- mesh.globals :: !LabelledAs(c, s, mesh.matchKeys) {
      forall i | 0 <= i < |mesh.globals|
        ensures !Matches(http[i], c)
      {
        assert mesh.globals[i] in mesh.globals;
      }
      if HasDefaultRoute(sc) {
        FirstMatchIs(http, c, |mesh.globals|);
      } else {
        NoMatch(http, c);
      }
    }
  }

  /** Separation is necessary: of two subsets that agree on the match keys, the later one's
      consumers are given another subset's route. */
  lemma {:induction false} SeparationIsNeeded(sc: ServiceConfig, mesh: Mesh, opt: Options, actual: seq<Subset>, i: nat,
                                              j: nat)
    returns (c: Consumer)
    requires i < j < |mesh.globals|
    requires forall k :: k in mesh.matchKeys ==> !DifferIn(mesh.globals[i], mesh.globals[j], k)
    ensures LabelledAs(c, mesh.globals[j], mesh.matchKeys)
    ensures FirstMatch(ServiceConfigHttp(sc, mesh, opt, actual), c) != Some(j)
  {
    var m := MatchOf(mesh.matchKeys, mesh.globals[j]);
    c := Consumer(m, m);
    var http := ServiceConfigHttp(sc, mesh, opt, actual);
    assert forall k <- mesh.matchKeys :: k in m;
    MatchesIff(http[i], c, mesh.globals[i], mesh.matchKeys);
    FirstMatchNotAfter(http, c, i);
  }

  lemma {:induction false} FirstMatchNotAfter(http: seq<HttpRoute>, c: Consumer, i: nat)
    requires i < |http| && Matches(http[i], c)
    ensures FirstMatch(http, c).Some? && FirstMatch(http, c).value <= i
  {
    if !Matches(http[0], c) {
      FirstMatchNotAfter(http[1..], c, i - 1);
    }
  }

  /** Both controllers' VirtualServices route the consumers of every global subset alike, when no
      manual route is set. */
  lemma {:induction false} ControllersRouteAlike(sc: ServiceConfig, cs: ConfiguredService, mesh: Mesh, opt: Options,
                                                 c: Consumer, s: Subset)
    requires Separates(mesh) && sc.manual == [] && sc.name == cs.name
    requires s in mesh.globals && LabelledAs(c, s, mesh.matchKeys)
    requires Selected(mesh.globals, LabelsOf(cs.instances), mesh.remap) != []
    ensures var actual := Selected(mesh.globals, LabelsOf(cs.instances), mesh.remap);
      var a, b := ServiceConfigHttp(sc, mesh, opt, actual), ConfiguredServiceHttp(cs, mesh, opt, actual);
      && FirstMatch(a, c).Some? && FirstMatch(b, c) == FirstMatch(a, c)
      && FirstMatch(a, c).value < |a| && FirstMatch(b, c).value < |b|
      && a[FirstMatch(a, c).value].routes == b[FirstMatch(b, c).value].routes == Reroute(cs.name, s, actual)
  {
    var actual := Selected(mesh.globals, LabelsOf(cs.instances), mesh.remap);
    var a, b := ServiceConfigHttp(sc, mesh, opt, actual), ConfiguredServiceHttp(cs, mesh, opt, actual);
    var j :| 0 <= j < |mesh.globals| && mesh.globals[j] == s;
    CompilationPreservesMeaning(sc, mesh, opt, actual, c);
    CompilersAgree(sc.name, sc.manual, mesh, LabelsOf(cs.instances), s);
    ConfiguredFirstMatch(cs, mesh, opt, actual, c, j);
  }

  lemma {:induction false} ConfiguredFirstMatch(cs: ConfiguredService, mesh: Mesh, opt: Options, actual: seq<Subset>,
                                                c: Consumer, j: nat)
    requires Separates(mesh) && j < |mesh.globals| && LabelledAs(c, mesh.globals[j], mesh.matchKeys) && actual != []
    ensures FirstMatch(ConfiguredServiceHttp(cs, mesh, opt, actual), c) == Some(j)
  {
    var http := ConfiguredServiceHttp(cs, mesh, opt, actual);
    forall i | 0 <= i <= j
      ensures Matches(http[i], c) <==> i == j
    {
      MatchesIff(http[i], c, mesh.globals[i], mesh.matchKeys);
      if i < j {
        NotBoth(c, mesh.globals[i], mesh.globals[j], mesh.matchKeys);
      }
    }
    FirstMatchIs(http, c, j);
  }

  predicate IsDefined(d: Destination, rules: seq<RuleSubset>) {
    exists i :: 0 <= i < |rules| && rules[i].name == d.subset
  }

  /** All traffic goes to subsets that the DestinationRule built from the same list defines, if and
      only if the consumer's subset is a canary, or is live, or some non-canary subset is live. */
  lemma {:induction false} TrafficIsDefinedIff(host: string, manual: seq<Manual>, mesh: Mesh, instances: seq<Labels>,
                                               s: Subset)
    requires s in mesh.globals && !IsDynamic(manual, s, Selected(mesh.globals, instances, mesh.remap), mesh.globals)
    ensures var actual := Selected(mesh.globals, instances, mesh.remap);
      (forall d :: d in Shared(ServiceConfigRoutes(host, manual, s, actual, mesh.globals)) && d.weight > 0 ==>
        IsDefined(d, RuleSubsets(actual)))
      <==> s.isCanary || In(s, actual) || HasNormal(actual)
  {
    NoBlackHoles(host, manual, mesh, instances, s);
    var actual := Selected(mesh.globals, instances, mesh.remap);
    forall d: Destination
      ensures IsDefined(d, RuleSubsets(actual)) <==> IsLive(d, actual)
    {
      DefinedIsLive(d, actual);
    }
  }

  lemma {:induction false} DefinedIsLive(d: Destination, actual: seq<Subset>)
    ensures IsDefined(d, RuleSubsets(actual)) <==> IsLive(d, actual)
  {
    if IsLive(d, actual) {
      var i :| 0 <= i < |actual| && actual[i].name == d.subset;
      assert RuleSubsets(actual)[i].name == d.subset;
    }
  }

  // ----- the order of the instances -----

  /** The routes that the ConfiguredService controller compiles for its live subsets. */
  function Compiled(cs: ConfiguredService, mesh: Mesh, opt: Options): seq<HttpRoute> {
    ConfiguredServiceHttp(cs, mesh, opt, Selected(mesh.globals, LabelsOf(cs.instances), mesh.remap))
  }

  ghost predicate IsPermutation(p: seq<Instance>, q: seq<Instance>) { multiset(p) == multiset(q) }

  ghost predicate OrderFree(cs: ConfiguredService, mesh: Mesh, opt: Options) {
    forall p :: IsPermutation(p, cs.instances) ==> Compiled(cs.(instances := p), mesh, opt) == Compiled(cs, mesh, opt)
  }

  ghost predicate OneBudget(policy: Policy, instances: seq<Instance>) {
    forall i, j :: 0 <= i < |instances| && 0 <= j < |instances| ==>
      BudgetOf(policy, instances[i].labels) == BudgetOf(policy, instances[j].labels)
  }

  lemma {:induction false} SameSelection(globals: seq<Subset>, remap: Labels, p: seq<Instance>, q: seq<Instance>)
    requires IsPermutation(p, q)
    ensures Selected(globals, LabelsOf(p), remap) == Selected(globals, LabelsOf(q), remap)
  {
    forall l
      ensures l in LabelsOf(p) <==> l in LabelsOf(q)
    {
      LabelsPermuted(p, q, l);
      LabelsPermuted(q, p, l);
    }
    SelectedIsOrderFree(globals, LabelsOf(p), LabelsOf(q), remap);
  }

  lemma {:induction false} LabelsPermuted(p: seq<Instance>, q: seq<Instance>, l: Labels)
    requires IsPermutation(p, q)
    ensures l in LabelsOf(p) ==> l in LabelsOf(q)
  {
    if l in LabelsOf(p) {
      var i :| 0 <= i < |p| && LabelsOf(p)[i] == l;
      assert p[i] in multiset(p) && p[i] in multiset(q);
      var j :| 0 <= j < |q| && q[j] == p[i];
      assert LabelsOf(q)[j] == l;
    }
  }

  lemma {:induction false} ToFront(instances: seq<Instance>, i: nat) returns (p: seq<Instance>)
    requires i < |instances|
    ensures IsPermutation(p, instances) && p != [] && p[0] == instances[i]
  {
    p := [instances[i]] + instances[..i] + instances[i + 1..];
    assert instances == instances[..i] + [instances[i]] + instances[i + 1..];
  }

  /** The converter enumerates a Go map: for a service with live subsets the compiled VirtualService is
      independent of the order of the instances if and only if they all ask for the same budget. */
  lemma {:induction false} OrderFreeIffOneBudget(cs: ConfiguredService, mesh: Mesh, opt: Options)
    requires Selected(mesh.globals, LabelsOf(cs.instances), mesh.remap) != []
    ensures OrderFree(cs, mesh, opt) <==> OneBudget(mesh.policy, cs.instances)
  {
    if OneBudget(mesh.policy, cs.instances) {
      forall p | IsPermutation(p, cs.instances)
        ensures Compiled(cs.(instances := p), mesh, opt) == Compiled(cs, mesh, opt)
      {
        SameSelection(mesh.globals, mesh.remap, p, cs.instances);
        SameFirstBudget(mesh.policy, p, cs.instances);
      }
    } else {
      var i, j :| 0 <= i < |cs.instances| && 0 <= j < |cs.instances| &&
        BudgetOf(mesh.policy, cs.instances[i].labels) != BudgetOf(mesh.policy, cs.instances[j].labels);
      DifferentOrders(cs, mesh, opt, i, j);
    }
  }

  lemma {:induction false} SameFirstBudget(policy: Policy, p: seq<Instance>, q: seq<Instance>)
    requires IsPermutation(p, q) && OneBudget(policy, q)
    ensures BudgetOfFirst(policy, p) == BudgetOfFirst(policy, q)
  {
    assert |p| == |multiset(p)| == |multiset(q)| == |q|;
    if p != [] {
      assert p[0] in multiset(p) && p[0] in multiset(q);
      var j :| 0 <= j < |q| && q[j] == p[0];
    }
  }

  lemma {:induction false} DifferentOrders(cs: ConfiguredService, mesh: Mesh, opt: Options, i: nat, j: nat)
    requires Selected(mesh.globals, LabelsOf(cs.instances), mesh.remap) != []
    requires i < |cs.instances| && j < |cs.instances|
    requires BudgetOf(mesh.policy, cs.instances[i].labels) != BudgetOf(mesh.policy, cs.instances[j].labels)
    ensures !OrderFree(cs, mesh, opt)
  {
    var p := ToFront(cs.instances, i);
    var q := ToFront(cs.instances, j);
    SameSelection(mesh.globals, mesh.remap, p, cs.instances);
    SameSelection(mesh.globals, mesh.remap, q, cs.instances);
    SelectedShape(mesh.globals, LabelsOf(cs.instances), mesh.remap);
    assert mesh.globals != [];
    FirstBudgetShows(cs.(instances := p), mesh, opt);
    FirstBudgetShows(cs.(instances := q), mesh, opt);
  }

  lemma {:induction false} FirstBudgetShows(cs: ConfiguredService, mesh: Mesh, opt: Options)
    requires mesh.globals != [] && Selected(mesh.globals, LabelsOf(cs.instances), mesh.remap) != []
    ensures var http := Compiled(cs, mesh, opt);
      |http| > 0 && Budget(http[0].timeout, http[0].retries) == BudgetOfFirst(mesh.policy, cs.instances)
  {
  }

  /** Two live instances of one service, with different timeout labels. */
  lemma {:induction false} TimeoutFollowsOrder(opt: Options, name: string)
    returns (mesh: Mesh, a: Instance, b: Instance)
    ensures var first := ConfiguredService("", name, "", [a, b]);
      Compiled(first.(instances := [b, a]), mesh, opt) != Compiled(first, mesh, opt)
  {
    var group := Subset("g", map["group" := "g"], false, None);
    mesh := Mesh([group], [], [], map[], Policy("", 1), "");
    a := Instance("a", "", 0, map["group" := "g", "timeout" := "1"]);
    b := Instance("b", "", 0, map["group" := "g", "timeout" := "2"]);
    var first := ConfiguredService("", name, "", [a, b]);
    GroupIsLive(group, [a, b]);
    GroupIsLive(group, [b, a]);
    FirstBudgetShows(first, mesh, opt);
    FirstBudgetShows(first.(instances := [b, a]), mesh, opt);
    LabelsDiffer(mesh.policy, a.labels, b.labels);
  }

  lemma {:induction false} LabelsDiffer(policy: Policy, a: Labels, b: Labels)
    requires policy.maxRetries == 1 && "retries" !in a && "retries" !in b
    requires "timeout" in a && a["timeout"] == "1" && "timeout" in b && b["timeout"] == "2"
    ensures BudgetOf(policy, a).timeout != BudgetOf(policy, b).timeout
  {
    OneDigit("1", 1);
    OneDigit("2", 2);
  }

  lemma {:induction false} OneDigit(s: string, digit: nat)
    requires |s| == 1 && 0 < digit < 10 && s[0] == ('0' as int + digit) as char
    ensures DurationOf(s, 1).Some? && Nanos(DurationOf(s, 1).value) == NANOS_PER_MILLI * digit
  {
    assert s[..0] == "" && Value(s) == digit;
    assert Count(s) == digit && UnitNanos(s) == NANOS_PER_MILLI;
    DurationMeaning(s, 1);
  }

  lemma {:induction false} GroupIsLive(group: Subset, instances: seq<Instance>)
    requires group.labels == map["group" := "g"] && instances != []
    requires "group" in instances[0].labels && instances[0].labels["group"] == "g"
    ensures Selected([group], LabelsOf(instances), map[]) == [group]
  {
    assert Renamed(map[], "group") == "group";
    assert Shares(LabelsOf(instances)[0], group.labels, map[]);
    assert Live(group, LabelsOf(instances), map[]);
    assert [group][..0] == [];
  }
}
