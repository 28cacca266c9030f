/** The weighted routes of one consumer subset, as the two controllers compile them:
    controllers/configuredservice/virtualservice.go:135-176 and
    controllers/serviceconfig/virtualservice.go:134-159, 194-278, 350-364. */
module Routes {
  import opened Wrappers
  import opened Subsets

  datatype Destination = Destination(host: string, subset: string, weight: int)

  /** An entry of ServiceConfig.Spec.Route. */
  datatype Manual = Manual(subset: string, weight: int)

  function Normals(list: seq<Subset>): nat {
    if list == [] then 0
    else Normals(list[..|list| - 1]) + if list[|list| - 1].isCanary then 0 else 1
  }

  function To(host: string, s: Subset): seq<Destination> { [Destination(host, s.name, 100)] }

  function EvenWeight(n: nat, i: nat): int
    requires n > 0
  {
    if i == n - 1 && n > 1 then 100 - (100 / n) * (n - 1) else 100 / n
  }

  function EvenSplit(host: string, actual: seq<Subset>): seq<Destination> {
    seq(|actual|, i requires 0 <= i < |actual| => Destination(host, actual[i].name, EvenWeight(|actual|, i)))
  }

  /** One part of 100 for each of the non-canary subsets. */
  function Part(actual: seq<Subset>): int { if Normals(actual) > 0 then 100 / Normals(actual) else 0 }

  function ShareWeight(n: nat, i: nat, part: int): int { if i == n - 1 && n > 1 then 100 - part else part }

  /** The shares of the non-canary ones among the first k subsets. */
  function Parts(host: string, actual: seq<Subset>, k: nat, part: int): seq<Destination>
    requires k <= |actual|
  {
    if k == 0 then []
    else if actual[k - 1].isCanary then Parts(host, actual, k - 1, part)
    else
      Parts(host, actual, k - 1, part) + [Destination(host, actual[k - 1].name, ShareWeight(|actual|, k - 1, part))]
  }

  lemma {:induction false} NormalsPositive(list: seq<Subset>, i: nat)
    requires i < |list| && !list[i].isCanary
    ensures Normals(list) > 0
  {
    if i < |list| - 1 {
      NormalsPositive(list[..|list| - 1], i);
    }
  }

  function Reroute(host: string, s: Subset, actual: seq<Subset>): seq<Destination> {
    if In(s, actual) then To(host, s)
    else if s.isCanary then EvenSplit(host, actual)
    else [Destination(host, s.name, 0)] + Parts(host, actual, |actual|, Part(actual))
  }

  function Dynamic(host: string, routes: seq<Manual>): seq<Destination> {
    seq(|routes|, i requires 0 <= i < |routes| => Destination(host, routes[i].subset, routes[i].weight))
  }

  predicate OnlyCanaryMissing(actual: seq<Subset>, globals: seq<Subset>) {
    forall g <- globals :: !In(g, actual) ==> g.isCanary
  }

  predicate IsDynamic(routes: seq<Manual>, s: Subset, actual: seq<Subset>, globals: seq<Subset>) {
    routes != [] && !s.isCanary && OnlyCanaryMissing(actual, globals)
  }

  /** The ServiceConfig controller's case analysis. */
  function ServiceConfigRoutes(host: string, routes: seq<Manual>, s: Subset, actual: seq<Subset>, globals: seq<Subset>)
    : seq<Destination>
  {
    var reroute := |actual| < |globals|;
    if IsDynamic(routes, s, actual, globals) then Dynamic(host, routes)
    else if (reroute && !OnlyCanaryMissing(actual, globals)) || (reroute && s.isCanary) then Reroute(host, s, actual)
    else To(host, s)
  }

  // ----- the code -----

  method SplitEvenly(host: string, actual: seq<Subset>) returns (routes: seq<Destination>)
    ensures routes == EvenSplit(host, actual)
  {
    routes := [];
    for i := 0 to |actual|
      invariant routes == EvenSplit(host, actual)[..i]
    {
      var weight := 100 / |actual|;
      if i == |actual| - 1 && |actual| > 1 {
        weight := 100 - (100 / |actual|) * (|actual| - 1);
      }
      routes := routes + [Destination(host, actual[i].name, weight)];
    }
  }

  method SpreadOverNormals(host: string, actual: seq<Subset>) returns (routes: seq<Destination>)
    ensures routes == Parts(host, actual, |actual|, Part(actual))
  {
    var l := |actual|;
    for i := 0 to |actual|
      invariant l == |actual| - i + Normals(actual[..i])
    {
      assert actual[..i + 1][..i] == actual[..i];
      if actual[i].isCanary {
        l := l - 1;
      }
    }
    assert actual[..|actual|] == actual;
    routes := [];
    for i := 0 to |actual|
      invariant routes == Parts(host, actual, i, Part(actual))
    {
      if actual[i].isCanary {
        continue;
      }
      NormalsPositive(actual, i);
      var weight := 100 / l;
      if i == |actual| - 1 && |actual| > 1 {
        weight := 100 - 100 / l;
      }
      routes := routes + [Destination(host, actual[i].name, weight)];
    }
  }

  method DynamicRoute(host: string, manual: seq<Manual>) returns (routes: seq<Destination>)
    ensures routes == Dynamic(host, manual)
  {
    routes := [];
    for i := 0 to |manual|
      invariant routes == Dynamic(host, manual)[..i]
    {
      var route := Destination(host, "", 0);
      if manual[i].subset != "" {
        route := route.(subset := manual[i].subset);
      }
      if manual[i].weight != 0 {
        route := route.(weight := manual[i].weight);
      }
      routes := routes + [route];
    }
  }

  method OnlyMissingCanary(actual: seq<Subset>, globals: seq<Subset>) returns (r: bool)
    ensures r <==> OnlyCanaryMissing(actual, globals)
  {
    var missing: seq<Subset> := [];
    for i := 0 to |globals|
      invariant forall g :: g in missing <==> g in globals[..i] && !In(g, actual)
    {
      var found := FindIn(globals[i], actual);
      if !found {
        missing := missing + [globals[i]];
      }
    }
    for i := 0 to |missing|
      invariant forall j :: 0 <= j < i ==> missing[j].isCanary
    {
      if !missing[i].isCanary {
        assert missing[i] in missing;
        assert missing[i] in globals && !In(missing[i], actual);
        return false;
      }
    }
    return true;
  }

  method RerouteSubset(host: string, s: Subset, actual: seq<Subset>) returns (routes: seq<Destination>)
    ensures routes == Reroute(host, s, actual)
  {
    var present := FindIn(s, actual);
    if s.isCanary && !present {
      routes := SplitEvenly(host, actual);
    } else if !s.isCanary && !present {
      var others := SpreadOverNormals(host, actual);
      routes := [Destination(host, s.name, 0)] + others;
    } else {
      routes := To(host, s);
    }
  }

  /** buildHTTPRoute's switch in the ServiceConfig controller. */
  method BuildServiceConfigRoutes(host: string, manual: seq<Manual>, s: Subset, actual: seq<Subset>,
                                  globals: seq<Subset>)
    returns (routes: seq<Destination>)
    ensures routes == ServiceConfigRoutes(host, manual, s, actual, globals)
  {
    var reroute := |actual| < |globals|;
    var onlyCanary := OnlyMissingCanary(actual, globals);
    if |manual| > 0 && !s.isCanary && onlyCanary {
      routes := DynamicRoute(host, manual);
    } else if (reroute && !onlyCanary) || (reroute && s.isCanary) {
      routes := RerouteSubset(host, s, actual);
    } else {
      routes := To(host, s);
    }
  }

  /** buildHTTPRoute's switch in the ConfiguredService controller. */
  method BuildConfiguredServiceRoutes(host: string, s: Subset, actual: seq<Subset>) returns (routes: seq<Destination>)
    ensures routes == Reroute(host, s, actual)
  {
    var present := FindIn(s, actual);
    if s.isCanary && !present {
      routes := SplitEvenly(host, actual);
      return;
    }
    if !s.isCanary && !present {
      routes := SpreadOverNormals(host, actual);
      routes := [Destination(host, s.name, 0)] + routes;
      return;
    }
    routes := To(host, s);
  }

  // ----- the two compilers agree -----

  /** For every global subset and any instances, the ServiceConfig controller compiles the same
      destinations and weights as the ConfiguredService controller, except when a manual route
      applies; names need not even be distinct. */
  lemma {:induction false} CompilersAgree(host: string, manual: seq<Manual>, mesh: Mesh, instances: seq<Labels>,
                                          s: Subset)
    requires s in mesh.globals
    ensures var actual := Selected(mesh.globals, instances, mesh.remap);
      ServiceConfigRoutes(host, manual, s, actual, mesh.globals) ==
        if IsDynamic(manual, s, actual, mesh.globals) then Dynamic(host, manual) else Reroute(host, s, actual)
  {
    var actual := Selected(mesh.globals, instances, mesh.remap);
    SelectedCount(mesh.globals, instances, mesh.remap);
    if |actual| == |mesh.globals| {
      var i :| 0 <= i < |mesh.globals| && mesh.globals[i] == s;
      assert actual[i].name == s.name;
    }
  }

  // ----- where traffic may go -----

  /** Equal names agree on being canary (true of distinct names). */
  ghost predicate CanaryByName(list: seq<Subset>) {
    forall a, b :: a in list && b in list && a.name == b.name ==> a.isCanary == b.isCanary
  }

  /** The weights as Istio reads them: a lone destination takes everything. */
  function Shared(routes: seq<Destination>): seq<Destination> {
    if |routes| == 1 then [routes[0].(weight := 100)] else routes
  }

  predicate IsLive(d: Destination, actual: seq<Subset>) {
    exists i :: 0 <= i < |actual| && actual[i].name == d.subset
  }

  ghost predicate OnlyToLive(routes: seq<Destination>, actual: seq<Subset>) {
    forall d :: d in Shared(routes) && d.weight > 0 ==> IsLive(d, actual)
  }

  ghost predicate SomebodyServes(routes: seq<Destination>) { exists d :: d in Shared(routes) && d.weight > 0 }

  predicate HasNormal(actual: seq<Subset>) { exists i :: 0 <= i < |actual| && !actual[i].isCanary }

  lemma {:induction false} NormalsCount(list: seq<Subset>)
    ensures Normals(list) > 0 <==> HasNormal(list)
  {
    if list != [] {
      NormalsCount(list[..|list| - 1]);
      if HasNormal(list) {
        var i :| 0 <= i < |list| && !list[i].isCanary;
        NormalsPositive(list, i);
      } else {
        assert forall i :: 0 <= i < |list| - 1 ==> list[..|list| - 1][i] == list[i];
      }
    }
  }

  function ShareOf(host: string, actual: seq<Subset>, j: nat, part: int): Destination
    requires j < |actual|
  {
    Destination(host, actual[j].name, ShareWeight(|actual|, j, part))
  }

  ghost predicate IsShare(host: string, actual: seq<Subset>, part: int, d: Destination) {
    exists j :: 0 <= j < |actual| && !actual[j].isCanary && d == ShareOf(host, actual, j, part)
  }

  /** A share for each of the non-canary subsets, and nothing else. */
  lemma {:induction false} SharesAre(host: string, actual: seq<Subset>, k: nat, part: int)
    requires k <= |actual|
    ensures |Parts(host, actual, k, part)| == Normals(actual[..k])
    ensures forall j :: 0 <= j < k && !actual[j].isCanary ==>
      ShareOf(host, actual, j, part) in Parts(host, actual, k, part)
    ensures forall d :: d in Parts(host, actual, k, part) ==> IsShare(host, actual, part, d)
  {
    if k > 0 {
      assert actual[..k][..k - 1] == actual[..k - 1];
      SharesAre(host, actual, k - 1, part);
      assert !actual[k - 1].isCanary ==> IsShare(host, actual, part, ShareOf(host, actual, k - 1, part));
    }
  }

  /** Traffic goes only to live subsets if and only if the consumer's subset is a canary, or is live,
      or some non-canary subset is live. Otherwise all of it goes to the consumer's own, dead subset. */
  lemma {:induction false} OnlyToLiveIff(host: string, s: Subset, actual: seq<Subset>)
    ensures OnlyToLive(Reroute(host, s, actual), actual) <==> s.isCanary || In(s, actual) || HasNormal(actual)
  {
    var routes := Reroute(host, s, actual);
    NormalsCount(actual);
    if In(s, actual) {
    } else if s.isCanary {
      assert |routes| == |actual|;
    } else {
      SharesAre(host, actual, |actual|, Part(actual));
      assert actual[..|actual|] == actual;
      if Normals(actual) == 0 {
        assert Shared(routes) == [Destination(host, s.name, 100)];
        assert Shared(routes)[0] in Shared(routes);
      }
    }
  }

  /** The last of several live subsets is a non-canary one and gets a share of its own. */
  predicate LastIsNormal(actual: seq<Subset>) { |actual| > 1 && !actual[|actual| - 1].isCanary }

  /** Some traffic is served at all if and only if the subset is live, or it is a canary with any
      subset live, or no non-canary subset is live (the dead subset is then the lone destination), or
      the live non-canary subsets are not left with zero shares: a single one in last place behind
      canaries is, and so are more than a hundred in front of a canary. */
  lemma {:induction false} SomebodyServesIff(host: string, s: Subset, actual: seq<Subset>)
    ensures var l := Normals(actual);
      SomebodyServes(Reroute(host, s, actual)) <==>
        In(s, actual) || (if s.isCanary then actual != []
                          else l == 0 || (if LastIsNormal(actual) then l > 1 else l <= 100))
  {
    var routes := Reroute(host, s, actual);
    if In(s, actual) {
      assert Shared(routes)[0] in Shared(routes);
    } else if s.isCanary {
      CanaryIsServed(host, s, actual);
    } else {
      NormalIsServed(host, s, actual);
    }
  }

  lemma {:induction false} CanaryIsServed(host: string, s: Subset, actual: seq<Subset>)
    requires s.isCanary && !In(s, actual)
    ensures SomebodyServes(Reroute(host, s, actual)) <==> actual != []
  {
    var routes := Reroute(host, s, actual);
    if actual != [] {
      ReroutedCanaryTotals100(host, s, actual);
      var n := |actual|;
      PartOrRest(n);
      assert Shared(routes)[n - 1] in Shared(routes);
    }
  }

  lemma {:induction false} PartOrRest(n: nat)
    requires n > 0
    ensures 100 / n + 100 % n > 0
  {
  }

  lemma {:induction false} NormalIsServed(host: string, s: Subset, actual: seq<Subset>)
    requires !s.isCanary && !In(s, actual)
    ensures var l := Normals(actual);
      SomebodyServes(Reroute(host, s, actual)) <==> l == 0 || (if LastIsNormal(actual) then l > 1 else l <= 100)
  {
    var n, l, routes := |actual|, Normals(actual), Reroute(host, s, actual);
    SharesAre(host, actual, n, Part(actual));
    assert actual[..n] == actual;
    if l == 0 {
      assert Shared(routes)[0] in Shared(routes);
    } else {
      NormalsCount(actual);
      var i :| 0 <= i < n && !actual[i].isCanary;
      var best := if LastIsNormal(actual) then n - 1 else i;
      assert ShareOf(host, actual, best, Part(actual)) in Shared(routes);
      BestShare(actual, best);
      if SomebodyServes(routes) {
        var d :| d in Shared(routes) && d.weight > 0;
        assert IsShare(host, actual, Part(actual), d);
      }
    }
  }

  lemma {:induction false} BestShare(actual: seq<Subset>, best: nat)
    requires best < |actual| && !actual[best].isCanary && Normals(actual) > 0
    requires LastIsNormal(actual) ==> best == |actual| - 1
    ensures var n, l := |actual|, Normals(actual);
      (if LastIsNormal(actual) then l > 1 else l <= 100) <==>
        exists j :: 0 <= j < n && !actual[j].isCanary && ShareWeight(n, j, Part(actual)) > 0
    ensures var n, l := |actual|, Normals(actual);
      (if LastIsNormal(actual) then l > 1 else l <= 100) ==> ShareWeight(n, best, Part(actual)) > 0
  {
    var n, l := |actual|, Normals(actual);
    HundredthPart(l);
    if LastIsNormal(actual) && l == 1 {
      forall j | 0 <= j < n && !actual[j].isCanary
        ensures j == n - 1
      {
        if j < n - 1 {
          NormalsPositive(actual[..n - 1], j);
        }
      }
    }
  }

  lemma {:induction false} HundredthPart(l: nat)
    requires l > 0
    ensures 100 / l > 0 <==> l <= 100
    ensures l > 1 ==> 100 / l <= 50
    ensures 100 / 1 == 100
  {
  }

  /** For every global subset and any instances, unless a manual route applies: all traffic of its
      consumers is served, and by live subsets alone, exactly in these cases; and a non-canary
      consumer never reaches a live canary subset. */
  lemma {:induction false} NoBlackHoles(host: string, manual: seq<Manual>, mesh: Mesh, instances: seq<Labels>,
                                        s: Subset)
    requires s in mesh.globals && !IsDynamic(manual, s, Selected(mesh.globals, instances, mesh.remap), mesh.globals)
    ensures var actual := Selected(mesh.globals, instances, mesh.remap);
      var routes, l := ServiceConfigRoutes(host, manual, s, actual, mesh.globals), Normals(actual);
      && (OnlyToLive(routes, actual) <==> s.isCanary || In(s, actual) || HasNormal(actual))
      && (OnlyToLive(routes, actual) && SomebodyServes(routes) <==>
          In(s, actual) || (if s.isCanary then actual != []
                            else l > 0 && (if LastIsNormal(actual) then l > 1 else l <= 100)))
      && (!s.isCanary && CanaryByName(mesh.globals) ==>
          forall d, a :: d in Shared(routes) && d.weight > 0 && a in actual && a.name == d.subset ==> !a.isCanary)
  {
    var actual := Selected(mesh.globals, instances, mesh.remap);
    CompilersAgree(host, manual, mesh, instances, s);
    SelectedShape(mesh.globals, instances, mesh.remap);
    OnlyToLiveIff(host, s, actual);
    SomebodyServesIff(host, s, actual);
    NormalsCount(actual);
    if !s.isCanary && CanaryByName(mesh.globals) {
      forall d, a | d in Shared(Reroute(host, s, actual)) && d.weight > 0 && a in actual && a.name == d.subset
        ensures !a.isCanary
      {
        Isolated(host, s, actual, mesh, d, a);
      }
    }
  }

  lemma {:induction false} Isolated(host: string, s: Subset, actual: seq<Subset>, mesh: Mesh, d: Destination, a: Subset)
    requires s in mesh.globals && !s.isCanary && CanaryByName(mesh.globals) &&
      (forall x :: x in actual ==> x in mesh.globals)
    requires d in Shared(Reroute(host, s, actual)) && a in actual && a.name == d.subset
    ensures !a.isCanary
  {
    if d.subset != s.name {
      SharesAre(host, actual, |actual|, Part(actual));
      assert IsShare(host, actual, Part(actual), d);
    }
  }

  /** Only the canary is live: all the traffic of the normal consumers goes to their own subset, which
      has no instances. */
  lemma {:induction false} DeadSubsetTakesAll(host: string) returns (globals: seq<Subset>, instances: seq<Labels>)
    ensures |globals| == 2 && !globals[0].isCanary && Selected(globals, instances, map[]) == [globals[1]]
    ensures Shared(ServiceConfigRoutes(host, [], globals[0], [globals[1]], globals)) ==
      [Destination(host, globals[0].name, 100)]
    ensures !IsLive(Destination(host, globals[0].name, 100), [globals[1]])
  {
    var normal := Subset("normal", map["group" := "normal"], false, None);
    var canary := Subset("canary", map["group" := "canary"], true, None);
    globals, instances := [normal, canary], [map["group" := "canary"]];
    assert normal.name != canary.name && "normal" != "canary";
    assert globals[..1] == [normal] && [normal][..0] == [];
    assert Renamed(map[], "group") == "group";
    assert Shares(instances[0], canary.labels, map[]);
    assert Live(canary, instances, map[]) && !Live(normal, instances, map[]);
    assert Selected([normal], instances, map[]) == [];
    var actual := [canary];
    assert !In(normal, actual) && normal in globals;
    assert [canary][..0] == [] && actual[0].isCanary && Normals(actual) == 0;
    assert Parts(host, actual, 1, Part(actual)) == Parts(host, actual, 0, Part(actual)) == [];
  }

  /** The branch that sends everything to the subset itself is taken only for live subsets. */
  lemma {:induction false} DefaultBranchIsLive(host: string, manual: seq<Manual>, mesh: Mesh, instances: seq<Labels>,
                                               s: Subset)
    requires s in mesh.globals
    requires !IsDynamic(manual, s, Selected(mesh.globals, instances, mesh.remap), mesh.globals)
    requires ServiceConfigRoutes(host, manual, s, Selected(mesh.globals, instances, mesh.remap), mesh.globals) ==
      To(host, s)
    ensures In(s, Selected(mesh.globals, instances, mesh.remap))
  {
    var actual := Selected(mesh.globals, instances, mesh.remap);
    CompilersAgree(host, manual, mesh, instances, s);
    if !In(s, actual) {
      ElsewhereOrNothing(host, s, actual);
    }
  }

  lemma {:induction false} ElsewhereOrNothing(host: string, s: Subset, actual: seq<Subset>)
    requires !In(s, actual)
    ensures Reroute(host, s, actual) != To(host, s)
  {
    if s.isCanary {
      assert |actual| == 1 ==> EvenSplit(host, actual)[0].subset == actual[0].name;
    } else {
      assert Reroute(host, s, actual)[0].weight == 0;
    }
  }

  // ----- what the weights add up to -----

  function Total(routes: seq<Destination>): int {
    if routes == [] then 0 else Total(routes[..|routes| - 1]) + routes[|routes| - 1].weight
  }

  lemma {:induction false} EvenPrefixTotal(host: string, actual: seq<Subset>, k: nat)
    requires k < |actual|
    ensures Total(EvenSplit(host, actual)[..k]) == k * (100 / |actual|)
  {
    if k > 0 {
      EvenPrefixTotal(host, actual, k - 1);
      var r := EvenSplit(host, actual);
      assert r[..k][..k - 1] == r[..k - 1];
      assert (k - 1) * (100 / |actual|) + 100 / |actual| == k * (100 / |actual|);
    }
  }

  /** A canary consumer without canary instances: the weights total exactly 100 over any n >= 1
      subsets, the last one taking the remainder. */
  lemma {:induction false} ReroutedCanaryTotals100(host: string, s: Subset, actual: seq<Subset>)
    requires s.isCanary && !In(s, actual) && actual != []
    ensures var r := Reroute(host, s, actual);
      && |r| == |actual| && Total(r) == 100
      && r[|r| - 1].weight == 100 / |actual| + 100 % |actual|
      && (forall i :: 0 <= i < |r| ==> r[i].weight >= 0 && r[i].subset == actual[i].name)
  {
    var n := |actual|;
    var r := EvenSplit(host, actual);
    EvenPrefixTotal(host, actual, n - 1);
    assert r[..|r| - 1] == r[..n - 1];
    EvenRemainder(n);
  }

  lemma {:induction false} EvenRemainder(n: nat)
    requires n > 0
    ensures (n - 1) * (100 / n) + EvenWeight(n, n - 1) == 100
    ensures EvenWeight(n, n - 1) == 100 / n + 100 % n
    ensures forall i :: 0 <= i < n ==> EvenWeight(n, i) >= 0
  {
    var q := 100 / n;
    assert 100 == q * n + 100 % n;
    assert q * (n - 1) == q * n - q;
  }

  function Repeated(q: int, n: nat): int { if n == 0 then 0 else Repeated(q, n - 1) + q }

  lemma {:induction false} RepeatedIs(q: int, n: nat)
    ensures Repeated(q, n) == q * n
  {
    if n > 0 {
      RepeatedIs(q, n - 1);
    }
  }

  lemma {:induction false} SharesTotal(host: string, actual: seq<Subset>, k: nat, part: int)
    requires k <= |actual|
    ensures Total(Parts(host, actual, k, part)) ==
      Repeated(part, Normals(actual[..k]))
      + if k == |actual| && k > 1 && !actual[k - 1].isCanary then 100 - 2 * part else 0
  {
    if k > 0 {
      SharesTotal(host, actual, k - 1, part);
      OneMorePart(host, actual, k, part);
      OneMoreNormal(actual, k);
    }
  }

  lemma {:induction false} OneMorePart(host: string, actual: seq<Subset>, k: nat, part: int)
    requires 0 < k <= |actual|
    ensures Total(Parts(host, actual, k, part)) ==
      Total(Parts(host, actual, k - 1, part)) + if actual[k - 1].isCanary then 0 else ShareWeight(|actual|, k - 1, part)
  {
    var before, w := Parts(host, actual, k - 1, part), ShareWeight(|actual|, k - 1, part);
    assert (before + [Destination(host, actual[k - 1].name, w)])[..|before|] == before;
  }

  lemma {:induction false} OneMoreNormal(actual: seq<Subset>, k: nat)
    requires 0 < k <= |actual|
    ensures Normals(actual[..k]) == Normals(actual[..k - 1]) + if actual[k - 1].isCanary then 0 else 1
  {
    assert actual[..k][..k - 1] == actual[..k - 1];
  }

  /** The weights a missing non-canary subset's consumers get add up to this. */
  function NormalTotal(actual: seq<Subset>): int {
    var n, l := |actual|, Normals(actual);
    if l == 0 then 0
    else if LastIsNormal(actual) then 100 + (l - 2) * (100 / l)
    else l * (100 / l)
  }

  lemma {:induction false} ReroutedNormalTotal(host: string, s: Subset, actual: seq<Subset>)
    requires !s.isCanary && !In(s, actual)
    ensures Total(Reroute(host, s, actual)) == NormalTotal(actual)
  {
    PrependZero(Destination(host, s.name, 0), Parts(host, actual, |actual|, Part(actual)));
    SharesTotal(host, actual, |actual|, Part(actual));
    assert actual[..|actual|] == actual;
    RepeatedIs(Part(actual), Normals(actual));
    TwoSharesLess(Normals(actual), Part(actual));
    if LastIsNormal(actual) {
      NormalsPositive(actual, |actual| - 1);
    }
  }

  lemma {:induction false} TwoSharesLess(l: int, q: int)
    ensures q * l + (100 - 2 * q) == 100 + (l - 2) * q && q * l == l * q
  {
  }

  lemma {:induction false} PrependZero(d: Destination, rest: seq<Destination>)
    requires d.weight == 0
    ensures Total([d] + rest) == Total(rest)
  {
    if rest != [] {
      var k := |rest| - 1;
      assert ([d] + rest)[..|rest|] == [d] + rest[..k];
      PrependZero(d, rest[..k]);
    }
  }

  /** The documented total of 100 is reached exactly here: without live non-canary subsets (the dead
      one is the lone destination); with the last of several live subsets a non-canary one, for two
      live non-canary subsets (or more than a hundred); otherwise when their number divides 100. */
  lemma {:induction false} ReroutedNormalTotals100Iff(host: string, s: Subset, actual: seq<Subset>)
    requires !s.isCanary && !In(s, actual)
    ensures var l := Normals(actual);
      Total(Shared(Reroute(host, s, actual))) == 100 <==>
        l == 0 || (if LastIsNormal(actual) then l == 2 || l > 100 else 100 % l == 0)
  {
    ReroutedNormalTotal(host, s, actual);
    SharesAre(host, actual, |actual|, Part(actual));
    assert actual[..|actual|] == actual;
    if Normals(actual) == 0 {
      assert [Destination(host, s.name, 100)][..0] == [];
    } else {
      HundredIff(Normals(actual));
    }
  }

  lemma {:induction false} HundredIff(l: int)
    requires l > 0
    ensures 100 + (l - 2) * (100 / l) == 100 <==> l == 2 || l > 100
    ensures l * (100 / l) == 100 <==> 100 % l == 0
  {
    HundredthPart(l);
    ZeroProduct(l - 2, 100 / l);
  }

  lemma {:induction false} ZeroProduct(a: int, b: int)
    ensures a * b == 0 <==> a == 0 || b == 0
  {
  }
}
