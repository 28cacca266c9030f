/** The two writers of WorkloadEntry objects: reconcileWorkloadEntry in
    controllers/configuredservice/workloadentry.go and in controllers/serviceconfig/workloadentry.go. */
module WorkloadEntries {
  import opened Wrappers
  import opened Subsets
  import opened Resources
  import opened Names
  import opened ApiServer
  import opened WorkloadLabels

  datatype WorkloadEntry = WorkloadEntry(address: string, ports: map<string, nat>, labels: Labels, weight: nat)

  type Entry = Object<WorkloadEntry>

  type Store = map<Key, Entry>

  function SelectorValue(opt: Options, cs: ConfiguredService): string {
    TruncatedByDigest(opt.digest, cs.originalName)
  }

  function NameOf(cs: ConfiguredService, ins: Instance): string {
    FormatToDNS1123(EntryName(cs.name, ins.host, ins.port))
  }

  // ----- the desired objects -----

  ghost function Built(opt: Options, mesh: Mesh, cs: ConfiguredService, ins: Instance, pick: Labels): Entry {
    Object(map[opt.selectLabel := SelectorValue(opt, cs)], [], OwnedBy("ConfiguredService", cs.name),
           WorkloadEntry(ins.host, map[ins.portName := ins.port],
                         EntryLabels(opt.selectLabel, cs.name, mesh.workloadKeys, mesh.remap, ins.labels, pick), 0))
  }

  method BuildWorkloadEntry(opt: Options, mesh: Mesh, cs: ConfiguredService, ins: Instance)
    returns (name: string, we: Entry, ghost pick: Labels)
    ensures name == NameOf(cs, ins) && we == Built(opt, mesh, cs, ins, pick)
  {
    name := FormatToDNS1123(EntryName(cs.name, ins.host, ins.port));
    var labels;
    labels, pick := BuildLabels(opt, mesh, cs.name, ins.labels);
    we := Object(map[opt.selectLabel := TruncatedByDigest(opt.digest, cs.originalName)], [],
                 OwnedBy("ConfiguredService", cs.name),
                 WorkloadEntry(ins.host, map[ins.portName := ins.port], labels, 0));
  }

  ghost function NamesOf(cs: ConfiguredService, instances: seq<Instance>): set<string> {
    set ins | ins in instances :: NameOf(cs, ins)
  }

  /** Of several instances with one name, the first. */
  ghost function First(cs: ConfiguredService, instances: seq<Instance>, name: string): (ins: Instance)
    requires name in NamesOf(cs, instances)
    ensures ins in instances && NameOf(cs, ins) == name
  {
    if NameOf(cs, instances[0]) == name then instances[0] else First(cs, instances[1..], name)
  }

  // ----- the weights -----

  /** Configured weights by unformatted entry name; the last of several wins. */
  function Weights(service: string, instances: seq<InstanceConfig>): map<string, nat> {
    if instances == [] then map[]
    else
      var ins := instances[|instances| - 1];
      Weights(service, instances[..|instances| - 1])[EntryName(service, ins.host, ins.port) := ins.weight]
  }

  function WeightsFor(cs: ConfiguredService, sc: Option<ServiceConfig>): map<string, nat> {
    if sc.Some? then Weights(cs.name, sc.value.instances) else map[]
  }

  /** `sc` is the ServiceConfig of the same namespace and name, if there is one. */
  method GetInstanceWeight(cs: ConfiguredService, sc: Option<ServiceConfig>) returns (m: map<string, nat>)
    ensures m == WeightsFor(cs, sc)
  {
    m := map[];
    if sc.None? {
      return;
    }
    var instances := sc.value.instances;
    for i := 0 to |instances|
      invariant m == Weights(cs.name, instances[..i])
    {
      assert instances[..i + 1][..i] == instances[..i];
      m := m[EntryName(cs.name, instances[i].host, instances[i].port) := instances[i].weight];
    }
    assert instances[..|instances|] == instances;
  }

  // ----- the ConfiguredService writer -----

  /** Which instance labels a run took for the workload labels of each entry. */
  type Picks = map<string, Labels>

  datatype Context = Context(opt: Options, mesh: Mesh, cs: ConfiguredService, weights: map<string, nat>, picks: Picks)

  function PickOf(picks: Picks, name: string): Labels { if name in picks then picks[name] else map[] }

  function Updated(weights: map<string, nat>, name: string, want: Entry, found: Entry): Entry {
    if Differs(want, found) then
      found.(finalizers := want.finalizers, labels := want.labels,
             spec := want.spec.(weight := if name in weights then weights[name] else want.spec.weight))
    else found
  }

  ghost predicate Carries(c: Context, o: Entry) { Selects(o, c.opt.selectLabel, SelectorValue(c.opt, c.cs)) }

  ghost function Wanted(c: Context): set<string> { NamesOf(c.cs, c.cs.instances) }

  ghost function Want(c: Context, name: string): Entry
    requires name in Wanted(c)
  {
    Built(c.opt, c.mesh, c.cs, First(c.cs, c.cs.instances, name), PickOf(c.picks, name))
  }

  ghost function KeyOf(c: Context, name: string): Key { Key(c.cs.namespace, name) }

  /** What becomes of a wanted name. */
  ghost function Outcome(c: Context, store: Store, name: string): Entry
    requires name in Wanted(c)
  {
    if KeyOf(c, name) !in store then Want(c, name)
    else if Carries(c, store[KeyOf(c, name)]) then Updated(c.weights, name, Want(c, name), store[KeyOf(c, name)])
    else store[KeyOf(c, name)]
  }

  ghost function Mine(c: Context, store: Store): set<string> {
    Listed(store, c.cs.namespace, c.opt.selectLabel, SelectorValue(c.opt, c.cs))
  }

  ghost function Outcomes(c: Context, store: Store): map<string, Entry> {
    map n | n in Wanted(c) :: Outcome(c, store, n)
  }

  /** The store after a run of the ConfiguredService writer. */
  ghost function Reconciled(c: Context, store: Store): Store {
    Staged(store, c.cs.namespace, Outcomes(c, store), Wanted(c), Mine(c, store) - Wanted(c))
  }

  lemma {:induction false} FirstIs(cs: ConfiguredService, instances: seq<Instance>, i: nat)
    requires i < |instances| && NameOf(cs, instances[i]) !in NamesOf(cs, instances[..i])
    ensures NameOf(cs, instances[i]) in NamesOf(cs, instances)
    ensures First(cs, instances, NameOf(cs, instances[i])) == instances[i]
  {
    var n := NameOf(cs, instances[i]);
    assert instances[i] in instances;
    if i > 0 {
      assert instances[0] in instances[..i];
      assert instances[1..][..i - 1] == instances[..i][1..];
      assert forall ins :: ins in instances[1..][..i - 1] ==> ins in instances[..i];
      FirstIs(cs, instances[1..], i - 1);
    }
  }

  /** The situation at an instance named `n` when the names `done` have been treated. */
  ghost predicate Ready(c: Context, store: Store, done: set<string>, objects: Store, foundMap: map<string, Entry>,
                        ins: Instance)
  {
    var n := NameOf(c.cs, ins);
    var k := KeyOf(c, n);
    && n in Wanted(c)
    && (n !in done ==> First(c.cs, c.cs.instances, n) == ins)
    && (n in foundMap <==> n !in done && k in store && Carries(c, store[k]))
    && (n in foundMap ==> foundMap[n] == store[k])
    && (k in objects <==> n in done || k in store)
    && (k in objects ==> objects[k] == if n in done then Outcome(c, store, n) else store[k])
  }

  /** What the body of the loop does to the name's object is its outcome. */
  lemma {:induction false} TreatedIs(c: Context, store: Store, done: set<string>, objects: Store,
                                     foundMap: map<string, Entry>, ins: Instance, pick: Labels)
    requires Ready(c, store, done, objects, foundMap, ins)
    ensures var n, k := NameOf(c.cs, ins), KeyOf(c, NameOf(c.cs, ins));
      var we := Built(c.opt, c.mesh, c.cs, ins, pick);
      var d := c.(picks := c.picks[n := if n in done then PickOf(c.picks, n) else pick]);
      && (n in foundMap ==> k in objects && objects[k] == foundMap[n])
      && objects[k := Outcome(d, store, n)] ==
          if n in foundMap then objects[k := Updated(c.weights, n, we, foundMap[n])]
          else if k in objects then objects
          else objects[k := we]
  {
    var n, k := NameOf(c.cs, ins), KeyOf(c, NameOf(c.cs, ins));
    var d := c.(picks := c.picks[n := if n in done then PickOf(c.picks, n) else pick]);
    if n in done {
      assert Outcome(d, store, n) == Outcome(c, store, n);
    } else {
      assert Want(d, n) == Built(c.opt, c.mesh, c.cs, ins, pick);
    }
  }

  /** The body of the loop over the instances. */
  method TreatInstance(api: Api<WorkloadEntry>, opt: Options, mesh: Mesh, cs: ConfiguredService, ins: Instance,
                       foundMap: map<string, Entry>, weightMap: map<string, nat>,
                       ghost store: Store, ghost done: set<string>, ghost picks: Picks)
    returns (rest: map<string, Entry>, ghost pick: Labels)
    requires Ready(Context(opt, mesh, cs, weightMap, picks), store, done, api.objects, foundMap, ins)
    modifies api
    ensures rest == foundMap - {NameOf(cs, ins)}
    ensures NameOf(cs, ins) in done ==> pick == PickOf(picks, NameOf(cs, ins))
    ensures var n := NameOf(cs, ins);
      var c := Context(opt, mesh, cs, weightMap, picks[n := pick]);
      api.objects == old(api.objects)[KeyOf(c, n) := Outcome(c, store, n)]
  {
    rest := foundMap;
    var name, we;
    name, we, pick := BuildWorkloadEntry(opt, mesh, cs, ins);
    TreatedIs(Context(opt, mesh, cs, weightMap, picks), store, done, api.objects, foundMap, ins, pick);
    if name in done {
      pick := PickOf(picks, name);
    }
    if name !in foundMap {
      var _ := api.Create(Key(cs.namespace, name), we);
      return;
    }
    var found := foundMap[name];
    rest := rest - {name};
    if Differs(we, found) {
      UpdateWorkloadEntry(api, weightMap, Key(cs.namespace, name), we, found);
    }
  }

  lemma {:induction false} ListedAt(store: Store, c: Context, n: string)
    ensures n in Mine(c, store) <==> KeyOf(c, n) in store && Carries(c, store[KeyOf(c, n)])
  {
  }

  lemma {:induction false} ReadyAt(c: Context, store: Store, found: map<string, Entry>, i: nat)
    requires i < |c.cs.instances|
    requires found.Keys == Mine(c, store)
    requires forall n :: n in found ==> KeyOf(c, n) in store && found[n] == store[KeyOf(c, n)]
    requires NamesOf(c.cs, c.cs.instances[..i]) <= Wanted(c)
    ensures var done := NamesOf(c.cs, c.cs.instances[..i]);
      Ready(c, store, done, Staged(store, c.cs.namespace, Outcomes(c, store), done, {}), found - done,
            c.cs.instances[i])
  {
    var done, n := NamesOf(c.cs, c.cs.instances[..i]), NameOf(c.cs, c.cs.instances[i]);
    NextName(c, i);
    ListedAt(store, c, n);
    StagedAt(store, c.cs.namespace, Outcomes(c, store), done, {}, KeyOf(c, n));
  }

  lemma {:induction false} MinusOne(m: map<string, Entry>, done: set<string>, n: string)
    ensures m - done - {n} == m - (done + {n})
  {
  }

  lemma {:induction false} SameOutcome(c: Context, d: Context, store: Store, m: string)
    requires d == c.(picks := d.picks) && m in Wanted(c) && PickOf(d.picks, m) == PickOf(c.picks, m)
    ensures m in Wanted(d) && Outcome(d, store, m) == Outcome(c, store, m)
  {
  }

  /** Only the picks of the names already treated matter. */
  lemma {:induction false} PickMore(c: Context, store: Store, done: set<string>, n: string, pick: Labels)
    requires done <= Wanted(c) && n in Wanted(c) && (n in done ==> pick == PickOf(c.picks, n))
    ensures var d := c.(picks := c.picks[n := pick]);
      Staged(store, c.cs.namespace, Outcomes(d, store), done, {}) ==
        Staged(store, c.cs.namespace, Outcomes(c, store), done, {})
  {
    var d := c.(picks := c.picks[n := pick]);
    forall m | m in done
      ensures Outcomes(d, store)[m] == Outcomes(c, store)[m]
    {
      SameOutcome(c, d, store, m);
    }
    SameOutcomes(store, c.cs.namespace, Outcomes(d, store), Outcomes(c, store), done);
  }

  lemma {:induction false} StagedNext(c: Context, store: Store, i: nat, pick: Labels)
    requires i < |c.cs.instances|
    requires NamesOf(c.cs, c.cs.instances[..i]) <= Wanted(c)
    requires var n := NameOf(c.cs, c.cs.instances[i]);
      n in NamesOf(c.cs, c.cs.instances[..i]) ==> pick == PickOf(c.picks, n)
    ensures var done, n := NamesOf(c.cs, c.cs.instances[..i]), NameOf(c.cs, c.cs.instances[i]);
      var d := c.(picks := c.picks[n := pick]);
      && n in Wanted(d) && NamesOf(c.cs, c.cs.instances[..i + 1]) == done + {n}
      && Staged(store, c.cs.namespace, Outcomes(c, store), done, {})[KeyOf(d, n) := Outcome(d, store, n)] ==
          Staged(store, c.cs.namespace, Outcomes(d, store), done + {n}, {})
  {
    var done, n := NamesOf(c.cs, c.cs.instances[..i]), NameOf(c.cs, c.cs.instances[i]);
    var d := c.(picks := c.picks[n := pick]);
    NextName(c, i);
    PickMore(c, store, done, n, pick);
    StagedOne(store, c.cs.namespace, Outcomes(d, store), done, n);
  }

  /** `picks` are the labels that this run happened to take. */
  method Reconcile(api: Api<WorkloadEntry>, opt: Options, mesh: Mesh, cs: ConfiguredService, sc: Option<ServiceConfig>)
    returns (ghost picks: Picks)
    modifies api
    ensures api.objects == Reconciled(Context(opt, mesh, cs, WeightsFor(cs, sc), picks), old(api.objects))
  {
    ghost var store := api.objects;
    var foundMap := api.List(cs.namespace, opt.selectLabel, TruncatedByDigest(opt.digest, cs.originalName));
    var weightMap := GetInstanceWeight(cs, sc);
    foundMap, picks := TreatInstances(api, opt, mesh, cs, foundMap, weightMap);
    ghost var c := Context(opt, mesh, cs, weightMap, picks);
    forall n | n in foundMap
      ensures Key(cs.namespace, n) in api.objects
    {
      StagedAt(store, cs.namespace, Outcomes(c, store), Wanted(c), {}, Key(cs.namespace, n));
    }
    DeleteAll(api, cs.namespace, foundMap.Keys);
    StagedGone(store, cs.namespace, Outcomes(c, store), Wanted(c), foundMap.Keys);
  }

  method TreatInstances(api: Api<WorkloadEntry>, opt: Options, mesh: Mesh, cs: ConfiguredService,
                        found: map<string, Entry>, weightMap: map<string, nat>)
    returns (foundMap: map<string, Entry>, ghost picks: Picks)
    requires found.Keys == Mine(Context(opt, mesh, cs, weightMap, map[]), api.objects)
    requires forall n :: n in found ==>
      Key(cs.namespace, n) in api.objects && found[n] == api.objects[Key(cs.namespace, n)]
    modifies api
    ensures var c := Context(opt, mesh, cs, weightMap, picks);
      && foundMap.Keys == Mine(c, old(api.objects)) - Wanted(c)
      && (forall n :: n in foundMap ==> Key(cs.namespace, n) in old(api.objects))
      && api.objects == Staged(old(api.objects), cs.namespace, Outcomes(c, old(api.objects)), Wanted(c), {})
  {
    ghost var store, c := api.objects, Context(opt, mesh, cs, weightMap, map[]);
    foundMap := found;
    NoSteps(c, store, found);
    for i := 0 to |cs.instances|
      invariant c == Context(opt, mesh, cs, weightMap, c.picks)
      invariant Progress(c, store, found, i, api.objects, foundMap)
    {
      foundMap, c := TreatNext(api, opt, mesh, cs, i, found, foundMap, weightMap, store, c);
    }
    AllSteps(c, store, found, api.objects, foundMap);
    picks := c.picks;
  }

  method TreatNext(api: Api<WorkloadEntry>, opt: Options, mesh: Mesh, cs: ConfiguredService, i: nat,
                   ghost found: map<string, Entry>, foundMap: map<string, Entry>, weightMap: map<string, nat>,
                   ghost store: Store, ghost c: Context)
    returns (rest: map<string, Entry>, ghost d: Context)
    requires c == Context(opt, mesh, cs, weightMap, c.picks) && i < |cs.instances|
    requires found.Keys == Mine(c, store)
    requires forall n :: n in found ==> Key(cs.namespace, n) in store && found[n] == store[Key(cs.namespace, n)]
    requires Progress(c, store, found, i, api.objects, foundMap)
    modifies api
    ensures d == c.(picks := d.picks) && Progress(d, store, found, i + 1, api.objects, rest)
  {
    ghost var before, pick := api.objects, map[];
    ReadyAt(c, store, found, i);
    rest, pick := TreatInstance(api, opt, mesh, cs, cs.instances[i], foundMap, weightMap, store,
                                NamesOf(cs, cs.instances[..i]), c.picks);
    OneStep(c, store, found, i, pick, before, foundMap);
    d := c.(picks := c.picks[NameOf(cs, cs.instances[i]) := pick]);
  }

  /** The state of the loop before instance i. */
  ghost predicate Progress(c: Context, store: Store, found: map<string, Entry>, i: nat, objects: Store,
                           foundMap: map<string, Entry>)
    requires i <= |c.cs.instances|
  {
    var done := NamesOf(c.cs, c.cs.instances[..i]);
    && done <= Wanted(c)
    && objects == Staged(store, c.cs.namespace, Outcomes(c, store), done, {})
    && foundMap == found - done
  }

  lemma {:induction false} OneStep(c: Context, store: Store, found: map<string, Entry>, i: nat, pick: Labels,
                                   objects: Store, foundMap: map<string, Entry>)
    requires i < |c.cs.instances| && Progress(c, store, found, i, objects, foundMap)
    requires var n := NameOf(c.cs, c.cs.instances[i]);
      n in NamesOf(c.cs, c.cs.instances[..i]) ==> pick == PickOf(c.picks, n)
    ensures var n := NameOf(c.cs, c.cs.instances[i]);
      var d := c.(picks := c.picks[n := pick]);
      && n in Wanted(d)
      && Progress(d, store, found, i + 1, objects[KeyOf(d, n) := Outcome(d, store, n)], foundMap - {n})
  {
    StagedNext(c, store, i, pick);
    MinusOne(found, NamesOf(c.cs, c.cs.instances[..i]), NameOf(c.cs, c.cs.instances[i]));
  }

  lemma {:induction false} NoSteps(c: Context, store: Store, found: map<string, Entry>)
    ensures Progress(c, store, found, 0, store, found)
  {
    assert NamesOf(c.cs, c.cs.instances[..0]) == {};
    StagedNothing(store, c.cs.namespace, Outcomes(c, store));
  }

  lemma {:induction false} AllSteps(c: Context, store: Store, found: map<string, Entry>, objects: Store,
                                    foundMap: map<string, Entry>)
    requires Progress(c, store, found, |c.cs.instances|, objects, foundMap)
    requires found.Keys == Mine(c, store) && forall n :: n in found ==> KeyOf(c, n) in store
    ensures objects == Staged(store, c.cs.namespace, Outcomes(c, store), Wanted(c), {})
    ensures foundMap.Keys == Mine(c, store) - Wanted(c) && forall n :: n in foundMap ==> KeyOf(c, n) in store
  {
    assert c.cs.instances[..|c.cs.instances|] == c.cs.instances;
  }

  lemma {:induction false} NextName(c: Context, i: nat)
    requires i < |c.cs.instances|
    ensures var done, n := NamesOf(c.cs, c.cs.instances[..i]), NameOf(c.cs, c.cs.instances[i]);
      && NamesOf(c.cs, c.cs.instances[..i + 1]) == done + {n} && n in Wanted(c)
      && (n !in done ==> First(c.cs, c.cs.instances, n) == c.cs.instances[i])
  {
    assert c.cs.instances[..i + 1] == c.cs.instances[..i] + [c.cs.instances[i]];
    assert c.cs.instances[i] in c.cs.instances;
    if NameOf(c.cs, c.cs.instances[i]) !in NamesOf(c.cs, c.cs.instances[..i]) {
      FirstIs(c.cs, c.cs.instances, i);
    }
  }

  method UpdateWorkloadEntry(api: Api<WorkloadEntry>, weightMap: map<string, nat>, key: Key, we: Entry, found: Entry)
    requires key in api.objects && Differs(we, found)
    modifies api
    ensures api.objects == old(api.objects)[key := Updated(weightMap, key.name, we, found)]
  {
    var spec := we.spec;
    if key.name in weightMap {
      spec := spec.(weight := weightMap[key.name]);
    }
    api.Update(key, found.(spec := spec, finalizers := we.finalizers, labels := we.labels));
  }
}
