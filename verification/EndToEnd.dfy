/** What the two controllers achieve together: controllers/configuredservice/controller.go:113-132 and
    controllers/serviceconfig/controller.go:78-90, seen through the status of status.go. */
module EndToEnd {
  import opened Wrappers
  import opened Subsets
  import opened Resources
  import opened Names
  import opened ApiServer
  import opened WorkloadEntries
  import opened TwoWriters
  import opened SingleObjects
  import opened Status
  import opened Controllers

  const ALL := Listable(true, true, true, true)

  /** A service with its ServiceConfig, under one mesh configuration. */
  datatype Case = Case(opt: Options, mesh: Mesh, cs: ConfiguredService, sc: ServiceConfig) {
    predicate Paired() { sc.namespace == cs.namespace && sc.name == cs.name && sc.originalName == cs.originalName }

    /** The label values that the two controllers give and look for. */
    function FirstLabel(): string { SelectorValue(opt, cs) }

    function SecondLabel(): string { TruncatedToTail(sc.originalName) }

    function Actual(): seq<Subset> { ActualOf(mesh, Some(cs)) }

    function ServiceWish(): (w: Wish<ServiceEntry>)
      ensures w.Valid()
    {
      ForConfigured(opt, cs, ServiceEntryOf(opt, cs))
    }

    function FirstRule(): (w: Wish<DestinationRule>)
      ensures w.Valid()
    {
      ForConfigured(opt, cs, ConfiguredRule(cs, mesh, Actual()))
    }

    function FirstRoutes(): (w: Wish<VirtualService>)
      ensures w.Valid()
    {
      ForConfigured(opt, cs, ConfiguredVirtual(opt, cs, mesh, Actual()))
    }

    function SecondRule(): (w: Wish<DestinationRule>)
      ensures w.Valid()
    {
      ForConfig(opt, sc, ConfigRule(sc, Actual()))
    }

    function SecondRoutes(): (w: Wish<VirtualService>)
      ensures w.Valid()
    {
      ForConfig(opt, sc, ConfigVirtual(opt, sc, mesh, Actual()))
    }

    function EntryContext(picks: Picks): Context { ContextOf(opt, mesh, cs, Some(sc), picks) }
  }

  ghost predicate DistinctNames(cs: ConfiguredService, instances: seq<Instance>) {
    forall i, j :: 0 <= i < j < |instances| ==> NameOf(cs, instances[i]) != NameOf(cs, instances[j])
  }

  /** A ConfiguredService reconcile, then a ServiceConfig reconcile. */
  ghost function AfterBoth(x: Case, picks: Picks, w: World): World {
    AfterConfig(x.opt, x.mesh, x.sc, Some(x.cs), AfterConfigured(x.opt, x.mesh, x.cs, Some(x.sc), picks, w))
  }

  ghost predicate EntriesFree(x: Case, w: World) { HeldByOthers(x.EntryContext(map[]), w.entries) == {} }

  /** Names held by nobody, or by an object of the ConfiguredService controller. */
  ghost predicate FirstNamesFree(x: Case, w: World) {
    && EntriesFree(x, w) && !Foreign(x.ServiceWish(), w.services)
    && (x.Actual() != [] ==> !Foreign(x.FirstRule(), w.rules) && !Foreign(x.FirstRoutes(), w.virtuals))
  }

  ghost predicate SecondRoutesFree(x: Case, w: World) {
    x.Actual() != [] ==> !Foreign(x.SecondRule(), w.rules) && !Foreign(x.SecondRoutes(), w.virtuals)
  }

  // ----- the status as numbers -----

  ghost function Tailed<S>(x: Case, store: map<Key, Object<S>>): set<string> {
    Listed(store, x.sc.namespace, x.opt.selectLabel, x.SecondLabel())
  }

  ghost function CountsIn(x: Case, w: World): Counts {
    Counts(|Tailed(x, w.services)|, |Tailed(x, w.entries)|, |Tailed(x, w.virtuals)|, |Tailed(x, w.rules)|)
  }

  ghost function StatusAt(x: Case, w: World): (s: Summary)
    ensures AllConsistent(s)
  {
    StatusIn(x.opt, x.mesh, x.sc, Some(x.cs), ALL, w)
  }

  lemma {:induction false} StatusIsSummary(x: Case, w: World)
    ensures StatusAt(x, w) == SummaryOf(Some(x.cs), x.Actual() != [], CountsIn(x, w))
  {
  }

  function WantedOf(x: Case): Counts { WantedCounts(Some(x.cs), x.Actual() != []) }

  /** A service with exactly its objects is reported as Distributed; one reported so has exactly its
      objects if and only if the store holds no surplus ones. */
  lemma {:induction false} DistributedCanBeTrustedIff(x: Case, w: World)
    ensures var n, wanted, phase := CountsIn(x, w), WantedOf(x), CalcPhase(StatusAt(x, w));
      && (n == wanted ==> phase == Distributed)
      && (phase == Distributed ==> (n == wanted <==> NoSurplus(n, wanted)))
  {
    StatusIsSummary(x, w);
    DistributedMeansExactlyIff(Some(x.cs), x.Actual() != [], CountsIn(x, w));
  }

  lemma {:induction false} PhaseOf(x: Case, w: World)
    ensures var s, n, wanted := StatusAt(x, w), CountsIn(x, w), WantedOf(x);
      && Counted(s)
      && (AsWanted(n, wanted) ==> NothingMissing(s) && CalcPhase(s) == Distributed)
      && (Missing(n, wanted) != 0 ==> CalcPhase(s) != Distributed)
  {
    StatusIsSummary(x, w);
    SummaryPhase(Some(x.cs), x.Actual() != [], CountsIn(x, w));
  }

  // ----- counting -----

  lemma {:induction false} NamesCount(cs: ConfiguredService, instances: seq<Instance>)
    ensures |NamesOf(cs, instances)| <= |instances|
    ensures |NamesOf(cs, instances)| == |instances| <==> DistinctNames(cs, instances)
  {
    if instances != [] {
      var n := |instances| - 1;
      NamesCount(cs, instances[..n]);
      LastIsDistinct(cs, instances);
      assert instances == instances[..n] + [instances[n]];
      assert NamesOf(cs, instances) == NamesOf(cs, instances[..n]) + {NameOf(cs, instances[n])};
    }
  }

  lemma {:induction false} LastIsDistinct(cs: ConfiguredService, instances: seq<Instance>)
    requires instances != []
    ensures var n := |instances| - 1;
      DistinctNames(cs, instances) <==>
        DistinctNames(cs, instances[..n]) && NameOf(cs, instances[n]) !in NamesOf(cs, instances[..n])
  {
    var n := |instances| - 1;
    var before, last := instances[..n], NameOf(cs, instances[n]);
    if last in NamesOf(cs, before) {
      var ins :| ins in before && NameOf(cs, ins) == last;
      var i :| 0 <= i < n && before[i] == ins;
      assert NameOf(cs, instances[i]) == NameOf(cs, instances[n]);
    } else {
      forall i | 0 <= i < n
        ensures NameOf(cs, instances[i]) != last
      {
        assert before[i] in before;
      }
    }
  }

  lemma {:induction false} Difference(a: set<string>, b: set<string>)
    requires b <= a
    ensures |a - b| <= |a| && (|a - b| == |a| <==> b == {})
  {
    assert |a - b| == |a| - |b|;
  }

  lemma {:induction false} WeightsKeepLabels(store: Store, namespace: string, weights: map<string, nat>,
                                             selector: string, value: string)
    ensures Listed(SetWeights(store, namespace, weights), namespace, selector, value) ==
      Listed(store, namespace, selector, value)
  {
  }

  lemma {:induction false} EntriesAfter(x: Case, picks: Picks, w: World)
    requires x.Paired() && x.FirstLabel() == x.SecondLabel()
    ensures Tailed(x, AfterBoth(x, picks, w).entries) ==
      NamesOf(x.cs, x.cs.instances) - HeldByOthers(x.EntryContext(map[]), w.entries)
  {
    var c := x.EntryContext(picks);
    ReconcileConverges(c, w.entries);
    assert HeldByOthers(c, w.entries) == HeldByOthers(x.EntryContext(map[]), w.entries);
    WeightsKeepLabels(Reconciled(c, w.entries), x.sc.namespace, Weights(x.sc.name, x.sc.instances), x.opt.selectLabel,
                      x.SecondLabel());
  }

  lemma {:induction false} OneTailed<S>(x: Case, wish: Wish<S>, store: map<Key, Object<S>>)
    requires wish.Valid() && wish.namespace == x.sc.namespace && wish.selector == x.opt.selectLabel
    requires wish.Value() == x.SecondLabel() && !Foreign(wish, store)
    ensures |Tailed(x, Granted(wish, store))| == 1
  {
    ExactlyOne(wish, store);
  }

  lemma {:induction false} RoutesAfter(x: Case, picks: Picks, w: World)
    requires x.Actual() != [] && SecondRoutesFree(x, w)
    ensures |Tailed(x, AfterBoth(x, picks, w).rules)| == |Tailed(x, AfterBoth(x, picks, w).virtuals)| == 1
  {
    OneTailed(x, x.SecondRule(), w.rules);
    OneTailed(x, x.SecondRoutes(), w.virtuals);
  }

  // ----- equal labels -----

  /** All WorkloadEntries are distributed if and only if the instances have different names and no
      foreign object holds one of them. */
  lemma {:induction false} EntriesDistributed(x: Case, picks: Picks, w: World)
    requires x.Paired() && x.FirstLabel() == x.SecondLabel()
    ensures var n := CountsIn(x, AfterBoth(x, picks, w)).entries;
      n <= |x.cs.instances| && (n == |x.cs.instances| <==> DistinctNames(x.cs, x.cs.instances) && EntriesFree(x, w))
  {
    EntriesAfter(x, picks, w);
    NamesCount(x.cs, x.cs.instances);
    Difference(NamesOf(x.cs, x.cs.instances), HeldByOthers(x.EntryContext(map[]), w.entries));
  }

  lemma {:induction false} LabelsAgree(x: Case, picks: Picks, w: World)
    requires x.Paired() && x.FirstLabel() == x.SecondLabel() && DistinctNames(x.cs, x.cs.instances) &&
      FirstNamesFree(x, w)
    ensures AsWanted(CountsIn(x, AfterBoth(x, picks, w)), WantedOf(x))
  {
    EntriesDistributed(x, picks, w);
    ServicesAgree(x, picks, w);
    RoutesAgree(x, picks, w);
  }

  lemma {:induction false} ServicesAgree(x: Case, picks: Picks, w: World)
    requires x.Paired() && x.FirstLabel() == x.SecondLabel() && !Foreign(x.ServiceWish(), w.services)
    ensures CountsIn(x, AfterBoth(x, picks, w)).services == 1
  {
    OneTailed(x, x.ServiceWish(), w.services);
  }

  lemma {:induction false} RoutesAgree(x: Case, picks: Picks, w: World)
    requires x.Paired() && x.FirstLabel() == x.SecondLabel() && FirstNamesFree(x, w)
    ensures var n := CountsIn(x, AfterBoth(x, picks, w)); x.Actual() != [] ==> n.virtuals == n.rules == 1
  {
    if x.Actual() != [] {
      RoutesAfter(x, picks, w);
    }
  }

  /** Two error-free reconciles distribute a service completely: nothing is reported undistributed
      and the phase is Distributed. */
  lemma {:induction false} ServiceIsDistributed(x: Case, picks: Picks, w: World)
    requires x.Paired() && |x.cs.originalName| <= 62 && DistinctNames(x.cs, x.cs.instances) && FirstNamesFree(x, w)
    ensures var s := StatusAt(x, AfterBoth(x, picks, w));
      Counted(s) && NothingMissing(s) && CalcPhase(s) == Distributed
  {
    LabelsAgree(x, picks, w);
    PhaseOf(x, AfterBoth(x, picks, w));
  }

  // ----- different labels -----

  /** Nothing in the namespace carries the label that the ServiceConfig controller looks for. */
  ghost predicate NothingTailed(x: Case, w: World) {
    Tailed(x, w.services) == {} && Tailed(x, w.entries) == {} && Tailed(x, w.virtuals) == {} && Tailed(x, w.rules) == {}
  }

  lemma {:induction false} EntriesUnseen(x: Case, picks: Picks, w: World)
    requires x.Paired() && x.FirstLabel() != x.SecondLabel() && Tailed(x, w.entries) == {}
    ensures Tailed(x, AfterBoth(x, picks, w).entries) == {}
  {
    var c := x.EntryContext(picks);
    var t := Reconciled(c, w.entries);
    forall k | k in t && k.namespace == x.sc.namespace
      ensures !Selects(t[k], x.opt.selectLabel, x.SecondLabel())
    {
      ReconciledAt(c, w.entries, k);
      EntryUnseen(x, picks, w, k);
    }
    assert Tailed(x, t) == {};
    WeightsKeepLabels(t, x.sc.namespace, Weights(x.sc.name, x.sc.instances), x.opt.selectLabel, x.SecondLabel());
  }

  lemma {:induction false} EntryUnseen(x: Case, picks: Picks, w: World, k: Key)
    requires x.Paired() && x.FirstLabel() != x.SecondLabel() && Tailed(x, w.entries) == {} &&
      k.namespace == x.sc.namespace
    ensures var t := ReconciledObject(x.EntryContext(picks), k, At(w.entries, k));
      t.Some? ==> !Selects(t.value, x.opt.selectLabel, x.SecondLabel())
  {
    var c := x.EntryContext(picks);
    assert k in w.entries && Selects(w.entries[k], x.opt.selectLabel, x.SecondLabel()) ==>
      k.name in Tailed(x, w.entries);
    if k.name in Wanted(c) && (k in w.entries ==> Carries(c, w.entries[k])) {
      WantedShape(c, k, At(w.entries, k));
    }
  }

  lemma {:induction false} LabelsDiffer(x: Case, picks: Picks, w: World)
    requires x.Paired() && x.FirstLabel() != x.SecondLabel() && NothingTailed(x, w)
    ensures Missing(CountsIn(x, AfterBoth(x, picks, w)), WantedOf(x)) > 0
  {
    EntriesUnseen(x, picks, w);
    NoneListed(x.ServiceWish(), w.services, x.SecondLabel());
    if x.Actual() != [] {
      AtMostOne(x, x.SecondRule(), w.rules);
      AtMostOne(x, x.SecondRoutes(), w.virtuals);
    }
  }

  lemma {:induction false} AtMostOne<S>(x: Case, wish: Wish<S>, store: map<Key, Object<S>>)
    requires wish.Valid() && wish.namespace == x.sc.namespace && wish.selector == x.opt.selectLabel
    requires wish.Value() == x.SecondLabel() && Tailed(x, store) == {}
    ensures |Tailed(x, Granted(wish, store))| <= 1
  {
    ExactlyOne(wish, store);
  }

  /** The controllers label objects by different shortenings of the original name. In any store where
      the names are free and nothing carries the second label without carrying the first, the status
      reaches Distributed if and only if the two agree. */
  lemma {:induction false} DistributedIffLabelsAgree(x: Case, picks: Picks, w: World)
    requires x.Paired() && DistinctNames(x.cs, x.cs.instances) && FirstNamesFree(x, w)
    requires x.FirstLabel() != x.SecondLabel() ==> NothingTailed(x, w)
    ensures CalcPhase(StatusAt(x, AfterBoth(x, picks, w))) == Distributed <==> x.FirstLabel() == x.SecondLabel()
  {
    if x.FirstLabel() == x.SecondLabel() {
      LabelsAgree(x, picks, w);
      PhaseOf(x, AfterBoth(x, picks, w));
    } else {
      LabelsDiffer(x, picks, w);
      PhaseOf(x, AfterBoth(x, picks, w));
    }
  }

  // ----- hand-over -----

  /** A ConfiguredService run without a ServiceConfig creates the service's rule and routes. Once there
      is a ServiceConfig, its own come into effect if and only if the labels agree; otherwise the old
      ones stay as they are. */
  lemma {:induction false} HandOverIffLabelsAgree(x: Case, picks: Picks, w: World)
    requires x.Paired() && x.Actual() != []
    requires !Foreign(x.FirstRule(), w.rules) && !Foreign(x.FirstRoutes(), w.virtuals)
    ensures var before := AfterConfigured(x.opt, x.mesh, x.cs, None, picks, w);
      var after := AfterConfig(x.opt, x.mesh, x.sc, Some(x.cs), before);
      && (InEffect(x.SecondRule(), after.rules) <==> x.FirstLabel() == x.SecondLabel())
      && (InEffect(x.SecondRoutes(), after.virtuals) <==> x.FirstLabel() == x.SecondLabel())
      && (x.FirstLabel() != x.SecondLabel() ==> after.rules == before.rules && after.virtuals == before.virtuals)
  {
    SecondWish(x.FirstRule(), x.SecondRule(), w.rules);
    SecondWish(x.FirstRoutes(), x.SecondRoutes(), w.virtuals);
  }

  // ----- afterwards -----

  /** Later reconciles of either controller change nothing any more, whatever labels they take. */
  lemma {:induction false} BothAreAtRest(x: Case, picks: Picks, later: Picks, w: World)
    requires x.Paired() && Clear(x.EntryContext(picks), w.entries)
    ensures var t := AfterBoth(x, picks, w);
      && AfterConfigured(x.opt, x.mesh, x.cs, Some(x.sc), later, t) == t
      && AfterConfig(x.opt, x.mesh, x.sc, Some(x.cs), t) == t
  {
    RestIsFixed(x.EntryContext(picks), w.entries, ByConfiguredService(later));
    RestIsFixed(x.EntryContext(picks), w.entries, ByServiceConfig);
    GrantIsIdempotent(x.ServiceWish(), w.services);
    GrantIsIdempotent(x.SecondRule(), w.rules);
    GrantIsIdempotent(x.SecondRoutes(), w.virtuals);
  }
}
