/** What the objects in the store say once a reconcile has been through: the entries describe their
    instances, the ServiceEntry selects them, and everything speaks of one host. */
module EntryContents {
  import opened Wrappers
  import opened Subsets
  import opened Routes
  import opened Resources
  import opened Names
  import opened ApiServer
  import opened VirtualServices
  import opened RouteContents
  import opened WorkloadLabels
  import opened WorkloadEntries
  import opened TwoWriters
  import opened SingleObjects
  import opened Controllers

  // ----- the entries -----

  function EntryKey(cs: ConfiguredService, ins: Instance): Key {
    Key(cs.namespace, FormatToDNS1123(cs.name + "." + ins.host + "." + Decimal(ins.port)))
  }

  /** The name is free, or taken by an object with the service's label. */
  ghost predicate IsFree<S>(store: map<Key, Object<S>>, k: Key, selector: string, value: string) {
    k in store ==> selector in store[k].labels && store[k].labels[selector] == value
  }

  /** The first instance of its entry's name, whose name is not taken by an object of another label. */
  ghost predicate Describable(c: Context, store: Store, i: nat) {
    && i < |c.cs.instances|
    && (forall j :: 0 <= j < i ==> EntryKey(c.cs, c.cs.instances[j]) != EntryKey(c.cs, c.cs.instances[i]))
    && IsFree(store, EntryKey(c.cs, c.cs.instances[i]), c.opt.selectLabel,
              TruncatedByDigest(c.opt.digest, c.cs.originalName))
  }

  /** Some label is remapped to the key. */
  ghost predicate Remapped(remap: Labels, key: string) { exists rk :: rk in remap && remap[rk] == key }

  /** The labels are the service's name and, for each workload key that labels are remapped to, the
      value of one of these labels, empty if the instance does not have it. */
  ghost predicate DescribesLabels(c: Context, ins: Labels, labels: Labels) {
    && (forall key :: key in labels <==>
         key == c.opt.selectLabel || (key in c.mesh.workloadKeys && Remapped(c.mesh.remap, key)))
    && (forall key :: key in c.mesh.workloadKeys && Remapped(c.mesh.remap, key) ==>
         exists rk :: rk in c.mesh.remap && c.mesh.remap[rk] == key &&
           labels[key] == if rk in ins then ins[rk] else "")
    && (!(c.opt.selectLabel in c.mesh.workloadKeys && Remapped(c.mesh.remap, c.opt.selectLabel)) ==>
         labels[c.opt.selectLabel] == c.cs.name)
  }

  lemma {:induction false} LabelsDescribe(c: Context, ins: Labels, pick: Labels)
    ensures DescribesLabels(c, ins,
      EntryLabels(c.opt.selectLabel, c.cs.name, c.mesh.workloadKeys, c.mesh.remap, ins, pick))
  {
    var remap := c.mesh.remap;
    forall key
      ensures Sourced(remap, key) <==> Remapped(remap, key)
    {
      if rk :| rk in remap && remap[rk] == key {
        assert IsSource(remap, key, rk);
      }
    }
    forall key | key in c.mesh.workloadKeys && Remapped(remap, key)
      ensures var rk := Taken(remap, pick, key); rk in remap && remap[rk] == key
    {
    }
  }

  lemma {:induction false} WantedFrom(c: Context, store: Store, i: nat)
    requires Describable(c, store, i)
    ensures var ins, n := c.cs.instances[i], EntryKey(c.cs, c.cs.instances[i]).name;
      && n == NameOf(c.cs, ins) && KeyOf(c, n) == EntryKey(c.cs, ins) && n in Wanted(c)
      && Want(c, n) == Built(c.opt, c.mesh, c.cs, ins, PickOf(c.picks, n))
  {
    var ins := c.cs.instances[i];
    forall j | 0 <= j < i
      ensures NameOf(c.cs, c.cs.instances[..i][j]) != NameOf(c.cs, ins)
    {
      assert EntryKey(c.cs, c.cs.instances[j]) != EntryKey(c.cs, ins);
    }
    FirstIs(c.cs, c.cs.instances, i);
  }

  /** The entry says where the instance is and what it is. */
  ghost predicate Describes(c: Context, ins: Instance, e: WorkloadEntry) {
    e.address == ins.host && e.ports == map[ins.portName := ins.port] && DescribesLabels(c, ins.labels, e.labels)
  }

  lemma {:induction false} BuiltDescribes(c: Context, ins: Instance, pick: Labels)
    ensures var e := Built(c.opt, c.mesh, c.cs, ins, pick);
      && e.labels == map[c.opt.selectLabel := TruncatedByDigest(c.opt.digest, c.cs.originalName)]
      && e.owner == "ConfiguredService" + "/" + c.cs.name && Describes(c, ins, e.spec)
  {
    LabelsDescribe(c, ins.labels, pick);
  }

  lemma {:induction false} KeptUpToWeight(c: Context, store: Store, n: string)
    requires n in Wanted(c) && (KeyOf(c, n) in store ==> Carries(c, store[KeyOf(c, n)]))
    ensures var t, k, want := Reconciled(c, store), KeyOf(c, n), Want(c, n);
      && k in t && t[k].labels == want.labels && Weighted(t[k], 0).spec == want.spec
      && t[k].owner == if k in store then store[k].owner else want.owner
  {
    ReconciledAt(c, store, KeyOf(c, n));
    WantedShape(c, KeyOf(c, n), At(store, KeyOf(c, n)));
  }

  /** After a run the entry of such an instance is there and describes it. */
  lemma {:induction false} EntriesDescribe(c: Context, store: Store, i: nat)
    requires Describable(c, store, i)
    ensures var t, k := Reconciled(c, store), EntryKey(c.cs, c.cs.instances[i]);
      && k in t && Describes(c, c.cs.instances[i], t[k].spec)
      && t[k].labels == map[c.opt.selectLabel := TruncatedByDigest(c.opt.digest, c.cs.originalName)]
      && t[k].owner == if k in store then store[k].owner else "ConfiguredService" + "/" + c.cs.name
  {
    var n := EntryKey(c.cs, c.cs.instances[i]).name;
    WantedFrom(c, store, i);
    KeptUpToWeight(c, store, n);
    BuiltDescribes(c, c.cs.instances[i], PickOf(c.picks, n));
  }

  // ----- their weights -----

  /** The instance's entry goes by the name. */
  predicate Goes(service: string, ins: InstanceConfig, name: string) {
    name == service + "." + ins.host + "." + Decimal(ins.port)
  }

  /** The configuration that counts for an entry name: the last one whose host and port give it. */
  predicate IsWeightOf(service: string, instances: seq<InstanceConfig>, j: int, name: string) {
    && 0 <= j < |instances| && Goes(service, instances[j], name)
    && forall k :: j < k < |instances| ==> !Goes(service, instances[k], name)
  }

  lemma {:induction false} WeightsAre(service: string, instances: seq<InstanceConfig>, name: string)
    ensures name in Weights(service, instances) <==> exists j :: IsWeightOf(service, instances, j, name)
    ensures forall j :: IsWeightOf(service, instances, j, name) ==>
      Weights(service, instances)[name] == instances[j].weight
  {
    if instances != [] {
      var n := |instances| - 1;
      var before, goes := instances[..n], Goes(service, instances[n], name);
      WeightsAre(service, before, name);
      assert goes <==> name == EntryName(service, instances[n].host, instances[n].port);
      if goes {
        assert IsWeightOf(service, instances, n, name);
      } else {
        assert forall j :: IsWeightOf(service, instances, j, name) <==> IsWeightOf(service, before, j, name);
      }
    }
  }

  /** After a run of the ServiceConfig writer each entry of a configured name has the configured weight and
      is otherwise as before; so are all others. */
  lemma {:induction false} WeightsAreSet(sc: ServiceConfig, store: Store, k: Key)
    requires k in store
    ensures var t := SetWeights(store, sc.namespace, Weights(sc.name, sc.instances));
      && k in t && t[k].(spec := t[k].spec.(weight := store[k].spec.weight)) == store[k]
      && (k.namespace == sc.namespace ==>
          forall j :: IsWeightOf(sc.name, sc.instances, j, k.name) ==> t[k].spec.weight == sc.instances[j].weight)
      && (k.namespace != sc.namespace || (forall j :: !IsWeightOf(sc.name, sc.instances, j, k.name)) ==>
          t[k] == store[k])
  {
    WeightsAre(sc.name, sc.instances, k.name);
  }

  // ----- who selects them -----

  /** The select label is not overwritten by a workload label. */
  ghost predicate SelectorIsFree(c: Context) {
    !(c.opt.selectLabel in c.mesh.workloadKeys && Remapped(c.mesh.remap, c.opt.selectLabel))
  }

  /** A service's entries are selected by the ServiceEntry of the same name and by no other. */
  lemma {:induction false} SelectedByItsService(c: Context, store: Store, i: nat, other: ConfiguredService)
    requires Describable(c, store, i) && SelectorIsFree(c)
    ensures var t, k := Reconciled(c, store), EntryKey(c.cs, c.cs.instances[i]);
      k in t && (Has(t[k].spec.labels, ServiceEntryOf(c.opt, other).selector) <==> other.name == c.cs.name)
  {
    EntriesDescribe(c, store, i);
    assert ServiceEntryOf(c.opt, other).selector[c.opt.selectLabel] == other.name;
  }

  // ----- live subsets and their endpoints -----

  /** The subset has one label, a workload key that exactly the instance label `rk` is remapped to. */
  ghost predicate OneSource(mesh: Mesh, g: Subset, m: string, rk: string) {
    && g.labels.Keys == {m} && g.labels[m] != "" && m in mesh.workloadKeys
    && forall x :: (x in mesh.remap && mesh.remap[x] == m) <==> x == rk
  }

  /** The instance makes the subset live. */
  ghost predicate IsCounted(mesh: Mesh, g: Subset, ins: Labels) {
    exists k :: SharesUnder(ins, k, g.labels, mesh.remap)
  }

  lemma {:induction false} CountedIff(mesh: Mesh, g: Subset, m: string, rk: string, ins: Labels)
    requires OneSource(mesh, g, m, rk)
    ensures IsCounted(mesh, g, ins) <==>
      (rk in ins && ins[rk] == g.labels[m]) || (m !in mesh.remap && m in ins && ins[m] == g.labels[m])
  {
    assert forall x :: x in g.labels <==> x == m;
    if rk in ins && ins[rk] == g.labels[m] {
      assert SharesUnder(ins, rk, g.labels, mesh.remap);
    }
    if m !in mesh.remap && m in ins && ins[m] == g.labels[m] {
      assert SharesUnder(ins, m, g.labels, mesh.remap);
    }
  }

  lemma {:induction false} LabelledAsGroup(c: Context, ins: Labels, labels: Labels, g: Subset, m: string, rk: string)
    requires DescribesLabels(c, ins, labels) && OneSource(c.mesh, g, m, rk)
    ensures Has(labels, g.labels) <==> rk in ins && ins[rk] == g.labels[m]
  {
    assert rk in c.mesh.remap && c.mesh.remap[rk] == m;
    assert Remapped(c.mesh.remap, m) && labels[m] == if rk in ins then ins[rk] else "";
    assert forall x :: x in g.labels <==> x == m;
  }

  /** An instance's entry is an endpoint of such a subset if and only if the instance has the remapped
      label; so it counts for the subset without being an endpoint of it exactly when it has only the
      mesh's own label. */
  lemma {:induction false} EndpointIff(c: Context, store: Store, i: nat, g: Subset, m: string, rk: string)
    requires Describable(c, store, i) && OneSource(c.mesh, g, m, rk)
    ensures var t, k, ins := Reconciled(c, store), EntryKey(c.cs, c.cs.instances[i]), c.cs.instances[i].labels;
      && k in t
      && (Has(t[k].spec.labels, g.labels) <==> rk in ins && ins[rk] == g.labels[m])
      && (IsCounted(c.mesh, g, ins) && !Has(t[k].spec.labels, g.labels) <==>
           m !in c.mesh.remap && m in ins && ins[m] == g.labels[m] && !(rk in ins && ins[rk] == g.labels[m]))
  {
    var ins := c.cs.instances[i].labels;
    EntriesDescribe(c, store, i);
    CountedIff(c.mesh, g, m, rk, ins);
    LabelledAsGroup(c, ins, Reconciled(c, store)[EntryKey(c.cs, c.cs.instances[i])].spec.labels, g, m, rk);
  }

  // ----- the other objects -----

  /** The ServiceEntry that a ConfiguredService run leaves. */
  lemma {:induction false} ServiceEntryIs(opt: Options, mesh: Mesh, cs: ConfiguredService, sc: Option<ServiceConfig>,
                                          picks: Picks, w: World)
    requires IsFree(w.services, Key(cs.namespace, FormatToDNS1123(cs.name)), opt.selectLabel,
                    TruncatedByDigest(opt.digest, cs.originalName))
    ensures var services := AfterConfigured(opt, mesh, cs, sc, picks, w).services;
      var k := Key(cs.namespace, FormatToDNS1123(cs.name));
      && k in services && services[k].spec.hosts == [cs.name]
      && services[k].spec.ports == [Port(20882, "HTTP", "dubbo-http")]
      && services[k].spec.selector == map[opt.selectLabel := cs.name]
      && OwnerIs(w.services, services, k, "ConfiguredService" + "/" + cs.name)
  {
    GrantedAt(ForConfigured(opt, cs, ServiceEntryOf(opt, cs)), w.services,
              Key(cs.namespace, FormatToDNS1123(cs.name)));
  }

  /** A new object belongs to the resource it was built from, an updated one to whom it did. */
  ghost predicate OwnerIs<S>(before: map<Key, Object<S>>, after: map<Key, Object<S>>, k: Key, owner: string) {
    k in after && after[k].owner == if k in before then before[k].owner else owner
  }

  /** The rule defines the subsets, uses the balancer, and speaks of the same host as the routes. */
  ghost predicate RouteObjects(w: World, k: Key, actual: seq<Subset>, balancer: string, host: string) {
    && k in w.rules && k in w.virtuals && OneHost(w.rules[k].spec, w.virtuals[k].spec, host)
    && w.rules[k].spec.balancer == BalancerNamed(balancer)
    && forall name :: Named(actual, name) <==> exists r :: r in w.rules[k].spec.subsets && r.name == name
  }

  /** The rule and the routes that a ConfiguredService run leaves: its own for live subsets if there is
      no ServiceConfig, otherwise what was there. */
  lemma {:induction false} ConfiguredObjects(opt: Options, mesh: Mesh, cs: ConfiguredService, sc: Option<ServiceConfig>,
                                             picks: Picks, w: World)
    requires IsFree(w.rules, Key(cs.namespace, FormatToDNS1123(cs.name)), opt.selectLabel,
                    TruncatedByDigest(opt.digest, cs.originalName))
    requires IsFree(w.virtuals, Key(cs.namespace, FormatToDNS1123(cs.name)), opt.selectLabel,
                    TruncatedByDigest(opt.digest, cs.originalName))
    ensures var t, actual := AfterConfigured(opt, mesh, cs, sc, picks, w), ActualOf(mesh, Some(cs));
      if sc.Some? || actual == [] then t.rules == w.rules && t.virtuals == w.virtuals
      else
        var k, owner := Key(cs.namespace, FormatToDNS1123(cs.name)), "ConfiguredService" + "/" + cs.name;
        && RouteObjects(t, k, actual, mesh.balancer, cs.name)
        && OwnerIs(w.rules, t.rules, k, owner) && OwnerIs(w.virtuals, t.virtuals, k, owner)
  {
    var k, actual := Key(cs.namespace, FormatToDNS1123(cs.name)), ActualOf(mesh, Some(cs));
    if sc.None? && actual != [] {
      GrantedAt(ForConfigured(opt, cs, ConfiguredRule(cs, mesh, actual)), w.rules, k);
      GrantedAt(ForConfigured(opt, cs, ConfiguredVirtual(opt, cs, mesh, actual)), w.virtuals, k);
      RuleNames(actual);
      ConfiguredHost(opt, mesh, cs, actual);
    }
  }

  /** What a ServiceConfig run leaves: its own rule and routes for live subsets, otherwise what was there. */
  lemma {:induction false} ConfigObjects(opt: Options, mesh: Mesh, sc: ServiceConfig, cs: Option<ConfiguredService>,
                                         w: World)
    requires IsFree(w.rules, Key(sc.namespace, FormatToDNS1123(sc.name)), opt.selectLabel,
                    TruncatedToTail(sc.originalName))
    requires IsFree(w.virtuals, Key(sc.namespace, FormatToDNS1123(sc.name)), opt.selectLabel,
                    TruncatedToTail(sc.originalName))
    ensures var t, actual := AfterConfig(opt, mesh, sc, cs, w), ActualOf(mesh, cs);
      && t.services == w.services
      && if actual == [] then t.rules == w.rules && t.virtuals == w.virtuals
         else
           var k, owner := Key(sc.namespace, FormatToDNS1123(sc.name)), "ServiceConfig" + "/" + sc.name;
           && RouteObjects(t, k, actual, sc.balancer, sc.name)
           && OwnerIs(w.rules, t.rules, k, owner) && OwnerIs(w.virtuals, t.virtuals, k, owner)
  {
    var k, actual := Key(sc.namespace, FormatToDNS1123(sc.name)), ActualOf(mesh, cs);
    if actual != [] {
      GrantedAt(ForConfig(opt, sc, ConfigRule(sc, actual)), w.rules, k);
      GrantedAt(ForConfig(opt, sc, ConfigVirtual(opt, sc, mesh, actual)), w.virtuals, k);
      RuleNames(actual);
      ConfigHost(opt, mesh, sc, actual);
    }
  }

  /** Rule, routes and all destinations speak of one host. */
  ghost predicate OneHost(rule: DestinationRule, routes: VirtualService, host: string) {
    && rule.host == host && routes.hosts == [host]
    && forall i, d :: 0 <= i < |routes.http| && d in routes.http[i].routes ==> d.host == host
  }

  lemma {:induction false} RuleNames(actual: seq<Subset>)
    ensures forall name :: Named(actual, name) <==> exists r :: r in RuleSubsets(actual) && r.name == name
  {
    forall name
      ensures Named(actual, name) <==> exists r :: r in RuleSubsets(actual) && r.name == name
    {
      RuleDescribes(actual);
      if Named(actual, name) {
        var i :| 0 <= i < |actual| && actual[i].name == name;
        assert RuleSubsets(actual)[i] in RuleSubsets(actual);
      }
    }
  }

  lemma {:induction false} RoutesHaveHost(host: string, manual: seq<Manual>, s: Subset, actual: seq<Subset>,
                                          globals: seq<Subset>)
    ensures forall d :: d in Reroute(host, s, actual) ==> d.host == host
    ensures forall d :: d in ServiceConfigRoutes(host, manual, s, actual, globals) ==> d.host == host
  {
    ReroutedTo(host, s, actual);
    var routes := Reroute(host, s, actual);
    assert |routes| > 0 && !Named(actual, s.name) && !s.isCanary ==> routes == [routes[0]] + routes[1..];
  }

  lemma {:induction false} ConfiguredHost(opt: Options, mesh: Mesh, cs: ConfiguredService, actual: seq<Subset>)
    ensures OneHost(ConfiguredRule(cs, mesh, actual), ConfiguredVirtual(opt, cs, mesh, actual), cs.name)
  {
    forall s: Subset
      ensures forall d :: d in Reroute(cs.name, s, actual) ==> d.host == cs.name
    {
      RoutesHaveHost(cs.name, [], s, actual, []);
    }
  }

  lemma {:induction false} ConfigHost(opt: Options, mesh: Mesh, sc: ServiceConfig, actual: seq<Subset>)
    ensures OneHost(ConfigRule(sc, actual), ConfigVirtual(opt, sc, mesh, actual), sc.name)
  {
    forall s: Subset
      ensures forall d :: d in ServiceConfigRoutes(sc.name, sc.manual, s, actual, mesh.globals) ==> d.host == sc.name
    {
      RoutesHaveHost(sc.name, sc.manual, s, actual, mesh.globals);
    }
  }
}
