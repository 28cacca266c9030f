/** What the compiled routes and rules of a service say, field by field. */
module RouteContents {
  import opened Wrappers
  import opened Durations
  import opened Subsets
  import opened Routes
  import opened Resources
  import opened VirtualServices

  // ----- the destinations of one consumer subset -----

  predicate Named(list: seq<Subset>, name: string) { exists i :: 0 <= i < |list| && list[i].name == name }

  ghost function NormalOnes(list: seq<Subset>): set<int> { set i | 0 <= i < |list| && !list[i].isCanary }

  lemma {:induction false} NormalsAre(list: seq<Subset>)
    ensures Normals(list) == |NormalOnes(list)|
  {
    if list != [] {
      var n := |list| - 1;
      NormalsAre(list[..n]);
      assert NormalOnes(list) == NormalOnes(list[..n]) + if list[n].isCanary then {} else {n};
    }
  }

  /** The weight of the live subset i, one of l that share the traffic, when n are live. */
  function Weight(canary: bool, n: nat, l: nat, i: nat): int
    requires l > 0
  {
    if i < n - 1 || n == 1 then 100 / l else if canary then 100 / l + 100 % l else 100 - 100 / l
  }

  ghost predicate IsShareOfNormal(host: string, actual: seq<Subset>, l: nat, d: Destination)
    requires l > 0
  {
    exists i :: i in NormalOnes(actual) && d == Destination(host, actual[i].name, Weight(false, |actual|, l, i))
  }

  /** A live subset's consumers stay with it; those of a missing canary are spread over all live subsets;
      those of any other missing subset are sent to it with weight 0, and to the live normal ones. */
  lemma {:induction false} ReroutedTo(host: string, s: Subset, actual: seq<Subset>)
    ensures var routes, l := Reroute(host, s, actual), |NormalOnes(actual)|;
      if Named(actual, s.name) then routes == [Destination(host, s.name, 100)]
      else if s.isCanary then
        |routes| == |actual| && forall i :: 0 <= i < |actual| ==>
          routes[i] == Destination(host, actual[i].name, Weight(true, |actual|, |actual|, i))
      else
        && |routes| == 1 + l && routes[0] == Destination(host, s.name, 0)
        && (forall i :: i in NormalOnes(actual) ==>
             Destination(host, actual[i].name, Weight(false, |actual|, l, i)) in routes[1..])
        && (forall d :: d in routes[1..] ==> l > 0 && IsShareOfNormal(host, actual, l, d))
  {
    var l := |NormalOnes(actual)|;
    NormalsAre(actual);
    if In(s, actual) {
    } else if s.isCanary {
      if actual != [] {
        EvenRemainder(|actual|);
      }
    } else {
      SharesAre(host, actual, |actual|, Part(actual));
      assert actual[..|actual|] == actual;
      forall i | i in NormalOnes(actual)
        ensures l > 0 && ShareOf(host, actual, i, Part(actual)) ==
          Destination(host, actual[i].name, Weight(false, |actual|, l, i))
      {
        NormalsPositive(actual, i);
      }
    }
  }

  /** A manual route applies if and only if there is one, the subset is no canary, and every global
      subset without a live one of its name is; it then has the configured destinations. Otherwise the
      traffic is rerouted. */
  lemma {:induction false} ManualRouteIff(host: string, manual: seq<Manual>, mesh: Mesh, instances: seq<Labels>,
                                          s: Subset)
    requires s in mesh.globals
    ensures var actual := Selected(mesh.globals, instances, mesh.remap);
      var routes := ServiceConfigRoutes(host, manual, s, actual, mesh.globals);
      if manual != [] && !s.isCanary && (forall g <- mesh.globals :: !Named(actual, g.name) ==> g.isCanary)
      then
        |routes| == |manual| && forall i :: 0 <= i < |manual| ==>
          routes[i].host == host && routes[i].subset == manual[i].subset && routes[i].weight == manual[i].weight
      else routes == Reroute(host, s, actual)
  {
    CompilersAgree(host, manual, mesh, instances, s);
  }

  // ----- whole routes -----

  /** The budget of a ServiceConfig's route: its own policy, or the mesh's where it has none. */
  lemma {:induction false} ConfigBudget(sc: ServiceConfig, mesh: Mesh, opt: Options, actual: seq<Subset>, i: nat)
    requires i < |mesh.globals|
    ensures var r := ServiceConfigHttp(sc, mesh, opt, actual)[i];
      var timeout := if sc.policy.timeout != "" then sc.policy.timeout else mesh.policy.timeout;
      && r.retries.attempts == (if sc.policy.maxRetries != 0 then sc.policy.maxRetries else mesh.policy.maxRetries)
      && r.retries.perTryTimeout == DurationOf(timeout, 1)
      && (r.timeout.None? <==> timeout == "")
      && (timeout != "" ==> (Nanos(r.timeout.value) == r.retries.attempts * Nanos(r.retries.perTryTimeout.value) <==>
           InInt64(Count(timeout) * r.retries.attempts)))
  {
    TimeoutBudget(mesh.policy, sc.policy.timeout, sc.policy.maxRetries);
  }

  /** The times that an instance's labels ask for, or the mesh's policy where they say nothing. */
  lemma {:induction false} LabelledTimes(policy: Policy, labels: Labels)
    ensures var budget := BudgetOf(policy, labels);
      var timeout := if "timeout" in labels && labels["timeout"] != "" then labels["timeout"] else policy.timeout;
      var retries := if "retries" in labels then ParseInt(labels["retries"]).0 else 0;
      && budget.retries.perTryTimeout == DurationOf(timeout, 1)
      && budget.timeout == DurationOf(timeout, if retries != 0 then retries else policy.maxRetries)
  {
  }

  /** The attempts are the low 32 bits of the retries, unless these are 0. */
  lemma {:induction false} LabelledAttempts(policy: Policy, labels: Labels)
    ensures var attempts := BudgetOf(policy, labels).retries.attempts;
      var retries := if "retries" in labels then ParseInt(labels["retries"]).0 else 0;
      if SameLow32(retries, 0) then attempts == policy.maxRetries
      else InInt32(attempts) && SameLow32(retries, attempts)
  {
    var retries := RetriesLabel(labels);
    Int32Is(retries);
    AttemptsOf(policy, TimeoutLabel(labels), Int32(retries));
  }

  lemma {:induction false} AttemptsOf(policy: Policy, timeout: string, retries: int)
    ensures RetriesOf(policy, timeout, retries).attempts == if retries != 0 then retries else policy.maxRetries
  {
  }

  /** The ConfiguredService controller's routes all have the budget of the first instance. */
  lemma {:induction false} FirstInstanceDecides(cs: ConfiguredService, mesh: Mesh, opt: Options, actual: seq<Subset>,
                                                i: nat)
    requires i < |mesh.globals| && actual != [] && cs.instances != []
    ensures var r := ConfiguredServiceHttp(cs, mesh, opt, actual)[i];
      Budget(r.timeout, r.retries) == BudgetOf(mesh.policy, cs.instances[0].labels)
  {
  }

  /** Everybody else's route: to the service as a whole, with the proxy's own retries. */
  lemma {:induction false} DefaultTakesTheRest(opt: Options, host: string, c: Consumer)
    ensures var r := DefaultRoute(opt, host);
      && Matches(r, c) && r.routes == [Destination(host, "", 0)] && Shared(r.routes)[0].weight == 100
      && r.timeout == None && r.retries.attempts == opt.proxyAttempts
      && r.retries.perTryTimeout == Some(Duration(opt.proxyPerTryTimeout, 0))
  {
  }

  /** Consumers of no global subset get the ConfiguredService controller's default route, and so does
      everybody when no subset is live. */
  lemma {:induction false} ConfiguredDefault(cs: ConfiguredService, mesh: Mesh, opt: Options, actual: seq<Subset>,
                                             c: Consumer)
    requires actual == [] || forall s <- mesh.globals :: !LabelledAs(c, s, mesh.matchKeys)
    ensures var http := ConfiguredServiceHttp(cs, mesh, opt, actual);
      FirstMatch(http, c) == Some(|http| - 1) && http[|http| - 1] == DefaultRoute(opt, cs.name)
  {
    var http := ConfiguredServiceHttp(cs, mesh, opt, actual);
    forall i | 0 <= i < |http| - 1
      ensures !Matches(http[i], c)
    {
      MatchesIff(http[i], c, mesh.globals[i], mesh.matchKeys);
      assert mesh.globals[i] in mesh.globals;
    }
    FirstMatchIs(http, c, |http| - 1);
  }

  /** The routes of different subsets have different names, the same from both controllers. */
  lemma {:induction false} RouteNames(sc: ServiceConfig, cs: ConfiguredService, mesh: Mesh, opt: Options,
                                      actual: seq<Subset>, i: nat, j: nat)
    requires i < |mesh.globals| && j < |mesh.globals|
    ensures var http := ServiceConfigHttp(sc, mesh, opt, actual);
      && (http[i].name == http[j].name <==> mesh.globals[i].name == mesh.globals[j].name)
      && (actual != [] ==> ConfiguredServiceHttp(cs, mesh, opt, actual)[i].name == http[i].name)
  {
    var http := ServiceConfigHttp(sc, mesh, opt, actual);
    assert http[i].name[|HTTP_ROUTE_NAME| + 1..] == mesh.globals[i].name;
    assert http[j].name[|HTTP_ROUTE_NAME| + 1..] == mesh.globals[j].name;
  }

  // ----- rules -----

  /** What Istio calls them. */
  function IstioName(b: Balancer): string {
    match b
    case RoundRobin => "ROUND_ROBIN"
    case LeastConn => "LEAST_CONN"
    case Random => "RANDOM"
    case Passthrough => "PASSTHROUGH"
  }

  /** Each balancer is found by its name, and nothing else by any other. */
  lemma {:induction false} BalancersByName(s: string)
    ensures IstioName(BalancerNamed(s)) == s || (BalancerNamed(s) == Random && forall b :: IstioName(b) != s)
  {
  }

  /** The rule defines the live subsets by their names, labels and balancers. */
  lemma {:induction false} RuleDescribes(actual: seq<Subset>)
    ensures |RuleSubsets(actual)| == |actual|
    ensures forall i :: 0 <= i < |actual| ==> var r := RuleSubsets(actual)[i];
      && r.name == actual[i].name && r.labels == actual[i].labels
      && (r.balancer.None? <==> actual[i].balancer.None?)
      && (r.balancer.Some? ==> r.balancer.value == BalancerNamed(actual[i].balancer.value))
  {
  }
}
