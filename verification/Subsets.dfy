/** Which global subsets have live instances: getSubset and mapContains, the same code in
    controllers/configuredservice/virtualservice.go and controllers/serviceconfig. */
module Subsets {
  import opened Wrappers
  import opened Durations

  type Labels = map<string, string>

  /** `balancer` is the "simple" load balancer of the subset's policy, None for a nil policy. */
  datatype Subset = Subset(name: string, labels: Labels, isCanary: bool, balancer: Option<string>)

  /** The part of MeshConfig the compilers read. */
  datatype Mesh = Mesh(
    globals: seq<Subset>, matchKeys: seq<string>, workloadKeys: seq<string>, remap: Labels, policy: Policy,
    balancer: string)

  predicate In(s: Subset, list: seq<Subset>) {
    exists i :: 0 <= i < |list| && list[i].name == s.name
  }

  method FindIn(s: Subset, list: seq<Subset>) returns (found: bool)
    ensures found <==> In(s, list)
  {
    for i := 0 to |list|
      invariant forall j :: 0 <= j < i ==> list[j].name != s.name
    {
      if list[i].name == s.name {
        return true;
      }
    }
    return false;
  }

  function Renamed(remap: Labels, k: string): string { if k in remap then remap[k] else k }

  /** Some label, under its mesh name, is shared. */
  predicate Shares(std: Labels, obj: Labels, remap: Labels) {
    exists k :: k in std && Renamed(remap, k) in obj && obj[Renamed(remap, k)] == std[k]
  }

  /** The label k has the same value on the other side: under the name it is remapped to, if it is. */
  predicate SharesUnder(std: Labels, k: string, obj: Labels, remap: Labels) {
    k in std && if k in remap then remap[k] in obj && obj[remap[k]] == std[k] else k in obj && obj[k] == std[k]
  }

  method MapContains(std: Labels, obj: Labels, remap: Labels) returns (r: bool)
    ensures r <==> Shares(std, obj, remap)
    ensures r <==> exists k :: SharesUnder(std, k, obj, remap)
  {
    var rest := std.Keys;
    while rest != {}
      invariant rest <= std.Keys
      invariant forall k :: k in std && k !in rest ==>
        !(Renamed(remap, k) in obj && obj[Renamed(remap, k)] == std[k])
      decreases rest
    {
      var sk :| sk in rest;
      rest := rest - {sk};
      var rk := sk;
      if sk in remap {
        rk := remap[sk];
      }
      if rk in obj && obj[rk] == std[sk] {
        assert SharesUnder(std, sk, obj, remap);
        return true;
      }
    }
    return false;
  }

  predicate Live(g: Subset, instances: seq<Labels>, remap: Labels) {
    exists i :: 0 <= i < |instances| && Shares(instances[i], g.labels, remap)
  }

  function Selected(globals: seq<Subset>, instances: seq<Labels>, remap: Labels): seq<Subset> {
    if globals == [] then []
    else
      var rest := Selected(globals[..|globals| - 1], instances, remap);
      var g := globals[|globals| - 1];
      if Live(g, instances, remap) && !In(g, rest) then rest + [g] else rest
  }

  method GetSubset(globals: seq<Subset>, instances: seq<Labels>, remap: Labels) returns (subsets: seq<Subset>)
    ensures subsets == Selected(globals, instances, remap)
  {
    subsets := [];
    for i := 0 to |globals|
      invariant subsets == Selected(globals[..i], instances, remap)
    {
      assert globals[..i + 1][..i] == globals[..i];
      subsets := AddIfLive(globals[i], subsets, instances, remap);
    }
    assert globals[..|globals|] == globals;
  }

  /** The inner loop. */
  method AddIfLive(global: Subset, before: seq<Subset>, instances: seq<Labels>, remap: Labels)
    returns (subsets: seq<Subset>)
    ensures subsets == if Live(global, instances, remap) && !In(global, before) then before + [global] else before
  {
    subsets := before;
    assert In(global, before + [global]) by {
      assert (before + [global])[|before|] == global;
    }
    for j := 0 to |instances|
      invariant subsets ==
        if Live(global, instances[..j], remap) && !In(global, before) then before + [global] else before
    {
      LiveGrows(global, instances, remap, j);
      var contains := MapContains(instances[j], global.labels, remap);
      var present := FindIn(global, subsets);
      if contains && !present {
        subsets := subsets + [global];
      }
    }
    assert instances[..|instances|] == instances;
  }

  lemma {:induction false} LiveGrows(g: Subset, instances: seq<Labels>, remap: Labels, j: nat)
    requires j < |instances|
    ensures Live(g, instances[..j + 1], remap) <==>
      Live(g, instances[..j], remap) || Shares(instances[j], g.labels, remap)
  {
  }

  // ----- what is selected -----

  /** A subset is live if and only if some instance has a label whose value is the subset's: under the
      name that the label is remapped to, or under its own if it is not remapped. */
  lemma {:induction false} LiveIff(g: Subset, instances: seq<Labels>, remap: Labels)
    ensures Live(g, instances, remap) <==>
      exists i, k :: 0 <= i < |instances| && SharesUnder(instances[i], k, g.labels, remap)
  {
    if Live(g, instances, remap) {
      var i :| 0 <= i < |instances| && Shares(instances[i], g.labels, remap);
      var k :| k in instances[i] && Renamed(remap, k) in g.labels && g.labels[Renamed(remap, k)] == instances[i][k];
      assert SharesUnder(instances[i], k, g.labels, remap);
    }
    if i, k :| 0 <= i < |instances| && SharesUnder(instances[i], k, g.labels, remap) {
      assert Renamed(remap, k) in g.labels && g.labels[Renamed(remap, k)] == instances[i][k];
      assert Shares(instances[i], g.labels, remap);
    }
  }

  /** A mesh like the sample one: instances are grouped by their flag, which is remapped. */
  lemma {:induction false} FlagsAreRemapped() returns (globals: seq<Subset>, remap: Labels)
    ensures |globals| == 2 && "flag" in remap
    ensures Selected(globals, [map["flag" := "blue"]], remap) == [globals[1]]
    ensures Selected(globals, [map["flag" := "none"]], remap) == []
  {
    var green := Subset("green", map["group" := "green"], false, None);
    var blue := Subset("blue", map["group" := "blue"], false, None);
    globals, remap := [green, blue], map["flag" := "group"];
    assert green.name != blue.name && "none" != "blue" && "none" != "green";
    OneFlag(green, "blue", remap);
    OneFlag(blue, "blue", remap);
    OneFlag(green, "none", remap);
    OneFlag(blue, "none", remap);
    TwoGlobals(green, blue, [map["flag" := "blue"]], remap);
    TwoGlobals(green, blue, [map["flag" := "none"]], remap);
  }

  lemma {:induction false} TwoGlobals(a: Subset, b: Subset, instances: seq<Labels>, remap: Labels)
    requires a.name != b.name
    ensures Selected([a, b], instances, remap) ==
      (if Live(a, instances, remap) then [a] else []) + (if Live(b, instances, remap) then [b] else [])
  {
    assert [a, b][..1] == [a] && [a][..0] == [];
    assert Selected([a], instances, remap) == if Live(a, instances, remap) then [a] else [];
  }

  lemma {:induction false} OneFlag(g: Subset, flag: string, remap: Labels)
    requires remap == map["flag" := "group"] && g.labels.Keys == {"group"}
    ensures Live(g, [map["flag" := flag]], remap) <==> g.labels["group"] == flag
  {
    var ins: Labels := map["flag" := flag];
    LiveIff(g, [ins], remap);
    assert SharesUnder(ins, "flag", g.labels, remap) <==> g.labels["group"] == flag;
    assert "flag" in ins && remap["flag"] == "group" && "group" in g.labels.Keys;
    assert [ins][0] == ins;
  }

  ghost predicate Distinct(list: seq<Subset>) {
    forall i, j :: 0 <= i < j < |list| ==> list[i].name != list[j].name
  }

  /** a is b with some elements left out. */
  ghost predicate Subsequence(a: seq<Subset>, b: seq<Subset>) {
    a == [] ||
    (b != [] &&
     (Subsequence(a, b[..|b| - 1]) ||
      (a[|a| - 1] == b[|b| - 1] && Subsequence(a[..|a| - 1], b[..|b| - 1]))))
  }

  /** A subsequence of the globals without repeated names, of live subsets only. */
  lemma {:induction false} SelectedShape(globals: seq<Subset>, instances: seq<Labels>, remap: Labels)
    ensures var r := Selected(globals, instances, remap);
      && Subsequence(r, globals) && Distinct(r)
      && (forall a :: a in r ==> a in globals && Live(a, instances, remap))
  {
    if globals != [] {
      SelectedShape(globals[..|globals| - 1], instances, remap);
      var before := Selected(globals[..|globals| - 1], instances, remap);
      var r := Selected(globals, instances, remap);
      assert r != before ==> r[..|r| - 1] == before;
    }
  }

  /** A name is selected if and only if some instance matches a global subset of that name. */
  lemma {:induction false} SelectedNames(globals: seq<Subset>, instances: seq<Labels>, remap: Labels)
    ensures forall s :: In(s, Selected(globals, instances, remap)) <==>
      exists i :: 0 <= i < |globals| && globals[i].name == s.name && Live(globals[i], instances, remap)
  {
    if globals != [] {
      var n := |globals| - 1;
      SelectedNames(globals[..n], instances, remap);
      forall s
        ensures In(s, Selected(globals, instances, remap)) <==>
          exists i :: 0 <= i < |globals| && globals[i].name == s.name && Live(globals[i], instances, remap)
      {
        assert forall i :: 0 <= i < n ==> globals[..n][i] == globals[i];
        SelectedStep(globals, instances, remap, s);
      }
    }
  }

  lemma {:induction false} SelectedStep(globals: seq<Subset>, instances: seq<Labels>, remap: Labels, s: Subset)
    requires globals != []
    requires In(s, Selected(globals[..|globals| - 1], instances, remap)) <==>
      exists i :: 0 <= i < |globals| - 1 && globals[i].name == s.name && Live(globals[i], instances, remap)
    ensures In(s, Selected(globals, instances, remap)) <==>
      exists i :: 0 <= i < |globals| && globals[i].name == s.name && Live(globals[i], instances, remap)
  {
    var n := |globals| - 1;
    var before := Selected(globals[..n], instances, remap);
    var r := Selected(globals, instances, remap);
    if In(s, before) {
      var i :| 0 <= i < |before| && before[i].name == s.name;
      assert r[i] == before[i];
    }
    if Live(globals[n], instances, remap) && globals[n].name == s.name && !In(globals[n], before) {
      assert r[|before|] == globals[n];
    }
    if In(s, r) && !In(s, before) {
      var i :| 0 <= i < |r| && r[i].name == s.name;
      assert i < |before| ==> r[i] == before[i];
    }
  }

  /** Only which label sets occur matters, not their order or number: the converter may enumerate
      the instances of a service in any order. */
  lemma {:induction false} SelectedIsOrderFree(globals: seq<Subset>, a: seq<Labels>, b: seq<Labels>, remap: Labels)
    requires forall l :: l in a <==> l in b
    ensures Selected(globals, a, remap) == Selected(globals, b, remap)
  {
    if globals != [] {
      var g := globals[|globals| - 1];
      SelectedIsOrderFree(globals[..|globals| - 1], a, b, remap);
      LiveByMembers(g, a, b, remap);
      LiveByMembers(g, b, a, remap);
    }
  }

  lemma {:induction false} LiveByMembers(g: Subset, a: seq<Labels>, b: seq<Labels>, remap: Labels)
    requires forall l :: l in a ==> l in b
    ensures Live(g, a, remap) ==> Live(g, b, remap)
  {
    if Live(g, a, remap) {
      var i :| 0 <= i < |a| && Shares(a[i], g.labels, remap);
      assert a[i] in a && a[i] in b;
      var j :| 0 <= j < |b| && b[j] == a[i];
      assert Shares(b[j], g.labels, remap);
    }
  }

  lemma {:induction false} SelectedOfPermutation(globals: seq<Subset>, a: seq<Labels>, b: seq<Labels>, remap: Labels)
    requires multiset(a) == multiset(b)
    ensures Selected(globals, a, remap) == Selected(globals, b, remap)
  {
    forall l
      ensures l in a <==> l in b
    {
      assert l in a <==> l in multiset(a);
      assert l in b <==> l in multiset(b);
    }
    SelectedIsOrderFree(globals, a, b, remap);
  }

  /** As many selected as there are globals means that all of them are. */
  lemma {:induction false} SelectedCount(globals: seq<Subset>, instances: seq<Labels>, remap: Labels)
    ensures var r := Selected(globals, instances, remap);
      |r| <= |globals| && (|r| == |globals| ==> r == globals)
  {
    if globals != [] {
      SelectedCount(globals[..|globals| - 1], instances, remap);
    }
  }
}
