/** The two controllers: Reconcile in controllers/configuredservice/controller.go and in
    controllers/serviceconfig/controller.go, and the status that the second reports after the first. */
module Controllers {
  import opened Wrappers
  import opened Subsets
  import opened Resources
  import opened Names
  import opened ApiServer
  import opened VirtualServices
  import opened WorkloadEntries
  import opened TwoWriters
  import opened SingleObjects
  import opened Status

  datatype World = World(
    entries: map<Key, Object<WorkloadEntry>>, services: map<Key, Object<ServiceEntry>>,
    rules: map<Key, Object<DestinationRule>>, virtuals: map<Key, Object<VirtualService>>)

  // ----- the wanted objects -----

  const PORTS := [Port(20882, "HTTP", "dubbo-http")]

  function ForConfigured<S>(opt: Options, cs: ConfiguredService, spec: S): (w: Wish<S>)
    ensures w.Valid()
  {
    Wish(cs.namespace, FormatToDNS1123(cs.name), opt.selectLabel,
         Object(map[opt.selectLabel := TruncatedByDigest(opt.digest, cs.originalName)], [],
                OwnedBy("ConfiguredService", cs.name), spec))
  }

  function ForConfig<S>(opt: Options, sc: ServiceConfig, spec: S): (w: Wish<S>)
    ensures w.Valid()
  {
    Wish(sc.namespace, FormatToDNS1123(sc.name), opt.selectLabel,
         Object(map[opt.selectLabel := TruncatedToTail(sc.originalName)], [], OwnedBy("ServiceConfig", sc.name), spec))
  }

  function ServiceEntryOf(opt: Options, cs: ConfiguredService): ServiceEntry {
    ServiceEntry([cs.name], PORTS, map[opt.selectLabel := cs.name])
  }

  /** The ConfiguredService's own rule uses the mesh-wide balancer. */
  function ConfiguredRule(cs: ConfiguredService, mesh: Mesh, actual: seq<Subset>): DestinationRule {
    DestinationRule(cs.name, BalancerNamed(mesh.balancer), RuleSubsets(actual))
  }

  function ConfigRule(sc: ServiceConfig, actual: seq<Subset>): DestinationRule {
    DestinationRule(sc.name, BalancerNamed(sc.balancer), RuleSubsets(actual))
  }

  function ConfiguredVirtual(opt: Options, cs: ConfiguredService, mesh: Mesh, actual: seq<Subset>): VirtualService {
    VirtualService([cs.name], ConfiguredServiceHttp(cs, mesh, opt, actual))
  }

  function ConfigVirtual(opt: Options, sc: ServiceConfig, mesh: Mesh, actual: seq<Subset>): VirtualService {
    VirtualService([sc.name], ServiceConfigHttp(sc, mesh, opt, actual))
  }

  /** Nothing is done for a service without live subsets. */
  ghost function GrantedIfLive<S>(actual: seq<Subset>, w: Wish<S>, store: map<Key, Object<S>>): map<Key, Object<S>>
    requires w.Valid()
  {
    if actual == [] then store else Granted(w, store)
  }

  function ActualOf(mesh: Mesh, cs: Option<ConfiguredService>): seq<Subset> {
    Selected(mesh.globals, if cs.Some? then LabelsOf(cs.value.instances) else [], mesh.remap)
  }

  function ContextOf(opt: Options, mesh: Mesh, cs: ConfiguredService, sc: Option<ServiceConfig>,
                     picks: Picks): Context {
    Context(opt, mesh, cs, WeightsFor(cs, sc), picks)
  }

  // ----- what a reconcile leads to -----

  /** A service with a ServiceConfig leaves its rule and its routes to the other controller. `picks` are
      the labels that the run happens to take for its entries. */
  ghost function AfterConfigured(opt: Options, mesh: Mesh, cs: ConfiguredService, sc: Option<ServiceConfig>,
                                 picks: Picks, w: World)
    : World
  {
    var actual := ActualOf(mesh, Some(cs));
    World(
      Reconciled(ContextOf(opt, mesh, cs, sc, picks), w.entries),
      Granted(ForConfigured(opt, cs, ServiceEntryOf(opt, cs)), w.services),
      if sc.Some? then w.rules
      else GrantedIfLive(actual, ForConfigured(opt, cs, ConfiguredRule(cs, mesh, actual)), w.rules),
      if sc.Some? then w.virtuals
      else GrantedIfLive(actual, ForConfigured(opt, cs, ConfiguredVirtual(opt, cs, mesh, actual)), w.virtuals))
  }

  ghost function AfterConfig(opt: Options, mesh: Mesh, sc: ServiceConfig, cs: Option<ConfiguredService>,
                             w: World): World {
    var actual := ActualOf(mesh, cs);
    World(
      SetWeights(w.entries, sc.namespace, Weights(sc.name, sc.instances)),
      w.services,
      GrantedIfLive(actual, ForConfig(opt, sc, ConfigRule(sc, actual)), w.rules),
      GrantedIfLive(actual, ForConfig(opt, sc, ConfigVirtual(opt, sc, mesh, actual)), w.virtuals))
  }

  // ----- the code -----

  /** What both controllers read and write. */
  class Cluster {
    const entries: Api<WorkloadEntry>
    const services: Api<ServiceEntry>
    const rules: Api<DestinationRule>
    const virtuals: Api<VirtualService>
    var configuredServices: map<Key, ConfiguredService>
    var serviceConfigs: map<Key, ServiceConfig>
    var meshConfig: Option<Mesh>

    constructor (entries: Api<WorkloadEntry>, services: Api<ServiceEntry>, rules: Api<DestinationRule>,
                 virtuals: Api<VirtualService>, configuredServices: map<Key, ConfiguredService>,
                 serviceConfigs: map<Key, ServiceConfig>, meshConfig: Option<Mesh>)
      ensures this.entries == entries && this.services == services && this.rules == rules && this.virtuals == virtuals
      ensures this.configuredServices == configuredServices && this.serviceConfigs == serviceConfigs &&
        this.meshConfig == meshConfig
    {
      this.entries, this.services, this.rules, this.virtuals := entries, services, rules, virtuals;
      this.configuredServices, this.serviceConfigs, this.meshConfig := configuredServices, serviceConfigs, meshConfig;
    }

    ghost function Now(): World
      reads entries, services, rules, virtuals
    {
      World(entries.objects, services.objects, rules.objects, virtuals.objects)
    }

    /** Objects are stored under their own name. */
    ghost predicate Valid()
      reads this
    {
      && (forall k :: k in configuredServices ==> k == Key(configuredServices[k].namespace, configuredServices[k].name))
      && (forall k :: k in serviceConfigs ==> k == Key(serviceConfigs[k].namespace, serviceConfigs[k].name))
    }

    function Configured(key: Key): Option<ConfiguredService>
      reads this
    {
      if key in configuredServices then Some(configuredServices[key]) else None
    }

    function Config(key: Key): Option<ServiceConfig>
      reads this
    {
      if key in serviceConfigs then Some(serviceConfigs[key]) else None
    }
  }

  method ReconcileIfLive<S(==)>(api: Api<S>, actual: seq<Subset>, w: Wish<S>)
    requires w.Valid()
    modifies api
    ensures api.objects == GrantedIfLive(actual, w, old(api.objects))
  {
    if |actual| != 0 {
      ReconcileOne(api, w);
    }
  }

  method ReconcileConfiguredRoutes(rules: Api<DestinationRule>, virtuals: Api<VirtualService>, opt: Options, mesh: Mesh,
                                   cs: ConfiguredService)
    modifies rules, virtuals
    ensures var actual := ActualOf(mesh, Some(cs));
      && rules.objects == GrantedIfLive(actual, ForConfigured(opt, cs, ConfiguredRule(cs, mesh, actual)),
           old(rules.objects))
      && virtuals.objects == GrantedIfLive(actual, ForConfigured(opt, cs, ConfiguredVirtual(opt, cs, mesh, actual)),
           old(virtuals.objects))
  {
    var actual := GetSubset(mesh.globals, LabelsOf(cs.instances), mesh.remap);
    var subsets := BuildRuleSubsets(actual);
    var rule := DestinationRule(cs.name, BalancerNamed(mesh.balancer), subsets);
    ReconcileIfLive(rules, actual, ForConfigured(opt, cs, rule));
    var http := BuildConfiguredServiceHttp(cs, mesh, opt, actual);
    ReconcileIfLive(virtuals, actual, ForConfigured(opt, cs, VirtualService([cs.name], http)));
  }

  method ReconcileConfigRoutes(rules: Api<DestinationRule>, virtuals: Api<VirtualService>, opt: Options, mesh: Mesh,
                               sc: ServiceConfig, cs: Option<ConfiguredService>)
    modifies rules, virtuals
    ensures var actual := ActualOf(mesh, cs);
      && rules.objects == GrantedIfLive(actual, ForConfig(opt, sc, ConfigRule(sc, actual)), old(rules.objects))
      && virtuals.objects == GrantedIfLive(actual, ForConfig(opt, sc, ConfigVirtual(opt, sc, mesh, actual)),
           old(virtuals.objects))
  {
    var actual := GetSubset(mesh.globals, if cs.Some? then LabelsOf(cs.value.instances) else [], mesh.remap);
    var subsets := BuildRuleSubsets(actual);
    var rule := DestinationRule(sc.name, BalancerNamed(sc.balancer), subsets);
    ReconcileIfLive(rules, actual, ForConfig(opt, sc, rule));
    var http := BuildServiceConfigHttp(sc, mesh, opt, actual);
    ReconcileIfLive(virtuals, actual, ForConfig(opt, sc, VirtualService([sc.name], http)));
  }

  class ConfiguredServiceReconciler {
    const opt: Options
    var meshConfig: Option<Mesh>

    constructor (opt: Options)
      ensures this.opt == opt
    {
      this.opt := opt;
      meshConfig := None;
    }

    /** False when the MeshConfig cannot be read. */
    method Reconcile(client: Cluster, req: Key) returns (ok: bool, ghost picks: Picks)
      requires client.Valid()
      modifies this, client.entries, client.services, client.rules, client.virtuals
      ensures ok <==> (client.Configured(req).None? || client.meshConfig.Some?)
      ensures ok && client.Configured(req).Some? ==>
        var cs, mesh := client.Configured(req).value, client.meshConfig.value;
        && meshConfig == client.meshConfig
        && client.Now() == AfterConfigured(opt, mesh, cs, client.Config(req), picks, old(client.Now()))
      ensures !(ok && client.Configured(req).Some?) ==> client.Now() == old(client.Now())
    {
      if req !in client.configuredServices {
        return true, map[];
      }
      var cs := client.configuredServices[req];
      if client.meshConfig.None? {
        return false, map[];
      }
      meshConfig := client.meshConfig;
      var mesh := client.meshConfig.value;
      var sc := client.Config(req);
      picks := WorkloadEntries.Reconcile(client.entries, opt, mesh, cs, sc);
      ReconcileOne(client.services,
        ForConfigured(opt, cs, ServiceEntry([cs.name], PORTS, map[opt.selectLabel := cs.name])));
      if req !in client.serviceConfigs {
        ReconcileConfiguredRoutes(client.rules, client.virtuals, opt, mesh, cs);
      }
      ok := true;
    }
  }

  class ServiceConfigReconciler {
    const opt: Options
    var meshConfig: Option<Mesh>

    constructor (opt: Options)
      ensures this.opt == opt
    {
      this.opt := opt;
      meshConfig := None;
    }

    /** The status is None when there is no ServiceConfig, or, with `ok` false, no MeshConfig. */
    method Reconcile(client: Cluster, req: Key, up: Listable) returns (ok: bool, status: Option<(Summary, Phase)>)
      requires client.Valid()
      modifies this, client.entries, client.rules, client.virtuals
      ensures ok <==> (client.Config(req).None? || client.meshConfig.Some?)
      ensures status.Some? <==> ok && client.Config(req).Some?
      ensures status.Some? ==> var sc, mesh := client.Config(req).value, client.meshConfig.value;
        && client.Now() == AfterConfig(opt, mesh, sc, client.Configured(req), old(client.Now()))
        && status.value.0 == StatusIn(opt, mesh, sc, client.Configured(req), up, client.Now())
        && status.value.1 == CalcPhase(status.value.0)
      ensures status.None? ==> client.Now() == old(client.Now())
    {
      if req !in client.serviceConfigs {
        return true, None;
      }
      var sc := client.serviceConfigs[req];
      if client.meshConfig.None? {
        return false, None;
      }
      meshConfig := client.meshConfig;
      var mesh := client.meshConfig.value;
      var cs := client.Configured(req);
      ReconcileWeights(client.entries, sc);
      ReconcileConfigRoutes(client.rules, client.virtuals, opt, mesh, sc, cs);
      var s, phase := BuildStatus(opt, mesh, sc, cs, up, client.entries, client.services, client.virtuals,
        client.rules);
      return true, Some((s, phase));
    }
  }

  ghost function StatusIn(opt: Options, mesh: Mesh, sc: ServiceConfig, cs: Option<ConfiguredService>, up: Listable,
                          w: World): (s: Summary)
    ensures AllConsistent(s)
  {
    StatusOf(opt, sc, cs, ActualOf(mesh, cs), up, w.entries, w.services, w.virtuals, w.rules)
  }
}
