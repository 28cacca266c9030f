/** The status of a ServiceConfig: controllers/serviceconfig/status.go. */
module Status {
  import opened Wrappers
  import opened Subsets
  import opened Resources
  import opened Names
  import opened ApiServer
  import opened WorkloadEntries

  /** None is the nil pointer, left when the objects cannot be listed. */
  datatype SubStatus = SubStatus(desired: int, distributed: Option<int>, undistributed: Option<int>)

  datatype Summary = Summary(serviceEntry: SubStatus, workloadEntry: SubStatus, virtualService: SubStatus,
    destinationRule: SubStatus)

  datatype Phase = Unknown | Undistributed | Distributing | Distributed

  /** Which kinds of object can be listed. */
  datatype Listable = Listable(serviceEntries: bool, workloadEntries: bool, virtualServices: bool,
    destinationRules: bool)

  ghost predicate Consistent(s: SubStatus) {
    && (s.distributed.Some? <==> s.undistributed.Some?)
    && (s.distributed.Some? ==> s.desired == s.distributed.value + s.undistributed.value)
  }

  ghost predicate AllConsistent(s: Summary) {
    Consistent(s.serviceEntry) && Consistent(s.workloadEntry) && Consistent(s.virtualService) &&
    Consistent(s.destinationRule)
  }

  predicate Counted(s: Summary) {
    s.serviceEntry.distributed.Some? && s.workloadEntry.distributed.Some? && s.virtualService.distributed.Some? &&
    s.destinationRule.distributed.Some?
  }

  const ZERO := SubStatus(0, Some(0), Some(0))

  function SubStatusOf(desired: int, count: Option<int>): SubStatus {
    SubStatus(desired, count, if count.Some? then Some(desired - count.value) else None)
  }

  ghost function CountOf<S>(store: map<Key, Object<S>>, opt: Options, sc: ServiceConfig, listable: bool): Option<int> {
    if listable then Some(|Listed(store, sc.namespace, opt.selectLabel, TruncatedToTail(sc.originalName))|) else None
  }

  method Count<S(==)>(api: Api<S>, opt: Options, sc: ServiceConfig, listable: bool) returns (c: Option<int>)
    ensures c == CountOf(api.objects, opt, sc, listable)
  {
    if !listable {
      return None;
    }
    var found := api.List(sc.namespace, opt.selectLabel, TruncatedToTail(sc.originalName));
    assert |found.Keys| == |found|;
    c := Some(|found|);
  }

  function Summarise(cs: Option<ConfiguredService>, live: bool, services: Option<int>, entries: Option<int>,
                     virtuals: Option<int>, rules: Option<int>): (s: Summary)
    ensures AllConsistent(s)
  {
    Summary(
      SubStatusOf(1, services),
      if cs.None? || cs.value.instances == [] then ZERO else SubStatusOf(|cs.value.instances|, entries),
      if live then SubStatusOf(1, virtuals) else ZERO,
      if live then SubStatusOf(1, rules) else ZERO)
  }

  ghost function StatusOf(opt: Options, sc: ServiceConfig, cs: Option<ConfiguredService>, actual: seq<Subset>,
                          up: Listable, entries: map<Key, Object<WorkloadEntry>>,
                          services: map<Key, Object<ServiceEntry>>, virtuals: map<Key, Object<VirtualService>>,
                          rules: map<Key, Object<DestinationRule>>): (s: Summary)
    ensures AllConsistent(s)
  {
    Summarise(cs, actual != [], CountOf(services, opt, sc, up.serviceEntries),
              CountOf(entries, opt, sc, up.workloadEntries),
              CountOf(virtuals, opt, sc, up.virtualServices), CountOf(rules, opt, sc, up.destinationRules))
  }

  method EntryStatus(api: Api<WorkloadEntry>, opt: Options, sc: ServiceConfig, cs: Option<ConfiguredService>,
                     listable: bool)
    returns (s: SubStatus)
    ensures s == if cs.None? || cs.value.instances == [] then ZERO
      else SubStatusOf(|cs.value.instances|, CountOf(api.objects, opt, sc, listable))
  {
    if cs.None? {
      return ZERO;
    }
    var desired := |cs.value.instances|;
    if desired == 0 {
      return ZERO;
    }
    var count := Count(api, opt, sc, listable);
    s := SubStatus(desired, count, None);
    if count.Some? {
      s := s.(undistributed := Some(desired - count.value));
    }
  }

  /** The other three; a ServiceEntry is desired even without live subsets. */
  method SingleStatus<S(==)>(api: Api<S>, opt: Options, sc: ServiceConfig, wanted: bool, listable: bool)
    returns (s: SubStatus)
    ensures s == if wanted then SubStatusOf(1, CountOf(api.objects, opt, sc, listable)) else ZERO
  {
    if !wanted {
      return ZERO;
    }
    var count := Count(api, opt, sc, listable);
    s := SubStatus(1, count, None);
    if count.Some? {
      s := s.(undistributed := Some(1 - count.value));
    }
  }

  function TotalDistributed(s: Summary): int
    requires Counted(s)
  {
    s.serviceEntry.distributed.value + s.workloadEntry.distributed.value + s.virtualService.distributed.value +
    s.destinationRule.distributed.value
  }

  function TotalUndistributed(s: Summary): int
    requires AllConsistent(s) && Counted(s)
  {
    s.serviceEntry.undistributed.value + s.workloadEntry.undistributed.value + s.virtualService.undistributed.value +
    s.destinationRule.undistributed.value
  }

  function TotalDesired(s: Summary): int {
    s.serviceEntry.desired + s.workloadEntry.desired + s.virtualService.desired + s.destinationRule.desired
  }

  /** The sum over the undistributed counts is only taken when none of them is nil. */
  function CalcPhase(s: Summary): Phase
    requires AllConsistent(s)
  {
    if !Counted(s) then Unknown
    else if TotalDistributed(s) == 0 then Undistributed
    else if TotalUndistributed(s) == 0 then Distributed
    else Distributing
  }

  /** `cs` is None when the ConfiguredService cannot be read. */
  method BuildStatus(opt: Options, mesh: Mesh, sc: ServiceConfig, cs: Option<ConfiguredService>, up: Listable,
                     entries: Api<WorkloadEntry>, services: Api<ServiceEntry>, virtuals: Api<VirtualService>,
                     rules: Api<DestinationRule>)
    returns (s: Summary, phase: Phase)
    ensures s == StatusOf(opt, sc, cs,
      Selected(mesh.globals, if cs.Some? then LabelsOf(cs.value.instances) else [], mesh.remap),
      up, entries.objects, services.objects, virtuals.objects, rules.objects)
    ensures phase == CalcPhase(s)
  {
    var actual := GetSubset(mesh.globals, if cs.Some? then LabelsOf(cs.value.instances) else [], mesh.remap);
    var se := SingleStatus(services, opt, sc, true, up.serviceEntries);
    var we := EntryStatus(entries, opt, sc, cs, up.workloadEntries);
    var vs := SingleStatus(virtuals, opt, sc, |actual| != 0, up.virtualServices);
    var dr := SingleStatus(rules, opt, sc, |actual| != 0, up.destinationRules);
    s := Summary(se, we, vs, dr);
    phase := CalcPhase(s);
  }

  /** What the phase says: Distributed means that as many objects exist as are desired in total, not
      that each kind has its number. */
  lemma {:induction false} PhaseMeaning(s: Summary)
    requires AllConsistent(s)
    ensures CalcPhase(s) == Unknown <==> !Counted(s)
    ensures CalcPhase(s) == Distributed <==>
      Counted(s) && TotalDistributed(s) != 0 && TotalDistributed(s) == TotalDesired(s)
    ensures CalcPhase(s) == Undistributed <==> Counted(s) && TotalDistributed(s) == 0
    ensures CalcPhase(s) == Distributing <==>
      Counted(s) && TotalDistributed(s) != 0 && TotalDistributed(s) != TotalDesired(s)
  {
  }

  /** Counts are not negative, so that a service is undistributed if and only if nothing of it exists. */
  lemma {:induction false} UndistributedIff(s: Summary)
    requires AllConsistent(s) && Counted(s)
    requires s.serviceEntry.distributed.value >= 0 && s.workloadEntry.distributed.value >= 0
    requires s.virtualService.distributed.value >= 0 && s.destinationRule.distributed.value >= 0
    ensures CalcPhase(s) == Undistributed <==>
      s.serviceEntry.distributed.value == s.workloadEntry.distributed.value == s.virtualService.distributed.value
        == s.destinationRule.distributed.value == 0
  {
  }

  ghost predicate NothingMissing(s: Summary)
    requires AllConsistent(s) && Counted(s)
  {
    s.serviceEntry.undistributed.value == s.workloadEntry.undistributed.value == s.virtualService.undistributed.value
      == s.destinationRule.undistributed.value == 0
  }

  ghost predicate NothingTooMany(s: Summary)
    requires AllConsistent(s) && Counted(s)
  {
    s.serviceEntry.undistributed.value >= 0 && s.workloadEntry.undistributed.value >= 0 &&
    s.virtualService.undistributed.value >= 0 && s.destinationRule.undistributed.value >= 0
  }

  /** The phase Distributed can be trusted if and only if no kind of object is overcounted. */
  lemma {:induction false} DistributedIsTrueIff(s: Summary)
    requires AllConsistent(s) && CalcPhase(s) == Distributed
    ensures NothingMissing(s) <==> NothingTooMany(s)
  {
  }

  /** The number of labelled objects of each kind. */
  datatype Counts = Counts(services: int, entries: int, virtuals: int, rules: int)

  function SummaryOf(cs: Option<ConfiguredService>, live: bool, n: Counts): (s: Summary)
    ensures AllConsistent(s) && Counted(s)
  {
    Summarise(cs, live, Some(n.services), Some(n.entries), Some(n.virtuals), Some(n.rules))
  }

  function WantedCounts(cs: Option<ConfiguredService>, live: bool): Counts {
    var routes := if live then 1 else 0;
    Counts(1, if cs.Some? then |cs.value.instances| else 0, routes, routes)
  }

  predicate NoSurplus(n: Counts, wanted: Counts) {
    n.services <= wanted.services && n.entries <= wanted.entries && n.virtuals <= wanted.virtuals &&
    n.rules <= wanted.rules
  }

  /** When everything can be listed: a service with exactly its objects is reported as Distributed; and
      one reported so has exactly its objects if and only if it has no surplus ones. */
  lemma {:induction false} DistributedMeansExactlyIff(cs: Option<ConfiguredService>, live: bool, n: Counts)
    requires n.services >= 0 && n.entries >= 0 && n.virtuals >= 0 && n.rules >= 0
    ensures var phase, wanted := CalcPhase(SummaryOf(cs, live, n)), WantedCounts(cs, live);
      && (n == wanted ==> phase == Distributed)
      && (phase == Distributed ==> (n == wanted <==> NoSurplus(n, wanted)))
  {
    SummaryTotals(cs, live, n);
    PhaseOfTotals(SummaryOf(cs, live, n), n, WantedCounts(cs, live));
  }

  lemma {:induction false} PhaseOfTotals(s: Summary, n: Counts, wanted: Counts)
    requires AllConsistent(s) && Counted(s) && TotalDistributed(s) >= n.services
    requires TotalUndistributed(s) == Missing(n, wanted) && wanted.services == 1
    requires n.services >= 0 && n.entries >= 0 && n.virtuals >= 0 && n.rules >= 0
    requires wanted.entries >= 0 && wanted.virtuals >= 0 && wanted.rules >= 0
    ensures n == wanted ==> CalcPhase(s) == Distributed
    ensures CalcPhase(s) == Distributed ==> (n == wanted <==> NoSurplus(n, wanted))
  {
    Balance(n, wanted, TotalUndistributed(s));
  }

  /** What the total says of the kinds that are wanted at all. */
  function Missing(n: Counts, wanted: Counts): int {
    wanted.services - n.services + (if wanted.entries > 0 then wanted.entries - n.entries else 0)
    + (if wanted.virtuals > 0 then wanted.virtuals - n.virtuals else 0)
    + (if wanted.rules > 0 then wanted.rules - n.rules else 0)
  }

  lemma {:induction false} SummaryTotals(cs: Option<ConfiguredService>, live: bool, n: Counts)
    requires n.services >= 0 && n.entries >= 0 && n.virtuals >= 0 && n.rules >= 0
    ensures TotalUndistributed(SummaryOf(cs, live, n)) == Missing(n, WantedCounts(cs, live))
    ensures TotalDistributed(SummaryOf(cs, live, n)) >= n.services
  {
  }

  lemma {:induction false} Balance(n: Counts, wanted: Counts, missing: int)
    requires n.services >= 0 && n.entries >= 0 && n.virtuals >= 0 && n.rules >= 0
    requires wanted.entries >= 0 && wanted.virtuals >= 0 && wanted.rules >= 0 && missing == Missing(n, wanted)
    ensures n == wanted ==> missing == 0
    ensures missing == 0 ==> (n == wanted <==> NoSurplus(n, wanted))
  {
  }

  /** Of each kind that is wanted at all there are as many objects as wanted. */
  predicate AsWanted(n: Counts, wanted: Counts) {
    && n.services == wanted.services && (wanted.entries > 0 ==> n.entries == wanted.entries)
    && (wanted.virtuals > 0 ==> n.virtuals == wanted.virtuals) && (wanted.rules > 0 ==> n.rules == wanted.rules)
  }

  lemma {:induction false} PhaseOfSummary(s: Summary, n: Counts, wanted: Counts)
    requires AllConsistent(s) && Counted(s) && TotalDistributed(s) >= n.services
    requires TotalUndistributed(s) == Missing(n, wanted) && wanted.services == 1
    ensures AsWanted(n, wanted) ==> CalcPhase(s) == Distributed
    ensures Missing(n, wanted) != 0 ==> CalcPhase(s) != Distributed
  {
  }

  lemma {:induction false} SummaryPhase(cs: Option<ConfiguredService>, live: bool, n: Counts)
    requires n.services >= 0 && n.entries >= 0 && n.virtuals >= 0 && n.rules >= 0
    ensures var s, wanted := SummaryOf(cs, live, n), WantedCounts(cs, live);
      && (AsWanted(n, wanted) ==> NothingMissing(s) && CalcPhase(s) == Distributed)
      && (Missing(n, wanted) != 0 ==> CalcPhase(s) != Distributed)
  {
    SummaryTotals(cs, live, n);
    PhaseOfSummary(SummaryOf(cs, live, n), n, WantedCounts(cs, live));
    SummaryIsComplete(cs, live, n);
  }

  lemma {:induction false} SummaryIsComplete(cs: Option<ConfiguredService>, live: bool, n: Counts)
    ensures AsWanted(n, WantedCounts(cs, live)) ==> NothingMissing(SummaryOf(cs, live, n))
  {
  }

  /** A superfluous ServiceEntry hides a missing WorkloadEntry. */
  lemma {:induction false} PhaseCancels(opt: Options, sc: ServiceConfig, cs: ConfiguredService)
    returns (services: map<Key, Object<ServiceEntry>>)
    requires |cs.instances| == 1
    ensures var s := StatusOf(opt, sc, Some(cs), [], Listable(true, true, true, true), map[], services, map[], map[]);
      s.serviceEntry.undistributed == Some(-1) && s.workloadEntry.undistributed == Some(1) &&
      CalcPhase(s) == Distributed
  {
    services := Pair(sc.namespace,
      Object(map[opt.selectLabel := TruncatedToTail(sc.originalName)], [], "", ServiceEntry([], [], map[])));
    PairIsListed(services, sc.namespace, opt.selectLabel, TruncatedToTail(sc.originalName));
    assert |{"a", "b"}| == 2;
    NothingListed<WorkloadEntry>(sc.namespace, opt.selectLabel, TruncatedToTail(sc.originalName));
  }

  function Pair<S>(namespace: string, o: Object<S>): map<Key, Object<S>> {
    map[Key(namespace, "a") := o, Key(namespace, "b") := o]
  }

  lemma {:induction false} PairIsListed<S>(store: map<Key, Object<S>>, namespace: string, selector: string,
                                           value: string)
    requires exists o: Object<S> :: store == Pair(namespace, o) && Selects(o, selector, value)
    ensures Listed(store, namespace, selector, value) == {"a", "b"}
  {
  }

  lemma {:induction false} NothingListed<S>(namespace: string, selector: string, value: string)
    ensures Listed<S>(map[], namespace, selector, value) == {}
  {
  }
}
