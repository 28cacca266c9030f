/** The weights of the ServiceConfig writer, and both writers of WorkloadEntry objects together:
    controllers/configuredservice/workloadentry.go and controllers/serviceconfig/workloadentry.go. */
module TwoWriters {
  import opened Wrappers
  import opened Resources
  import opened Names
  import opened ApiServer
  import opened WorkloadEntries
  import opened WorkloadLabels

  function Weighted(o: Entry, weight: nat): Entry { o.(spec := o.spec.(weight := weight)) }

  /** The store after a run of the ServiceConfig writer. */
  function SetWeights(store: Store, namespace: string, weights: map<string, nat>): Store {
    map k | k in store ::
      if k.namespace == namespace && k.name in weights then Weighted(store[k], weights[k.name]) else store[k]
  }

  /** An entry is looked up by its unformatted name alone, whatever labels it carries. */
  method ReconcileWeights(api: Api<WorkloadEntry>, sc: ServiceConfig)
    modifies api
    ensures api.objects == SetWeights(old(api.objects), sc.namespace, Weights(sc.name, sc.instances))
  {
    ghost var store := api.objects;
    for i := 0 to |sc.instances|
      invariant api.objects == SetWeights(store, sc.namespace, Weights(sc.name, sc.instances[..i]))
    {
      var ins := sc.instances[i];
      var key := Key(sc.namespace, EntryName(sc.name, ins.host, ins.port));
      SetOneMore(store, sc, i);
      if key !in api.objects {
        continue;
      }
      var found := api.objects[key];
      api.Update(key, found.(spec := found.spec.(weight := ins.weight)));
    }
    assert sc.instances[..|sc.instances|] == sc.instances;
  }

  lemma {:induction false} SetOneMore(store: Store, sc: ServiceConfig, i: nat)
    requires i < |sc.instances|
    ensures var ins := sc.instances[i];
      var key := Key(sc.namespace, EntryName(sc.name, ins.host, ins.port));
      var before := SetWeights(store, sc.namespace, Weights(sc.name, sc.instances[..i]));
      SetWeights(store, sc.namespace, Weights(sc.name, sc.instances[..i + 1])) ==
        if key in before then before[key := Weighted(before[key], ins.weight)] else before
  {
    assert sc.instances[..i + 1][..i] == sc.instances[..i];
  }

  // ----- what the writers do to one object -----

  function At(store: Store, k: Key): Option<Entry> { if k in store then Some(store[k]) else None }

  ghost function ReconciledObject(c: Context, k: Key, o: Option<Entry>): Option<Entry> {
    if k.namespace != c.cs.namespace then o
    else if k.name in Wanted(c) then
      if o.None? then Some(Want(c, k.name))
      else if Carries(c, o.value) then Some(Updated(c.weights, k.name, Want(c, k.name), o.value))
      else o
    else if o.Some? && Carries(c, o.value) then None
    else o
  }

  function WeightedObject(c: Context, k: Key, o: Option<Entry>): Option<Entry> {
    if o.Some? && k.namespace == c.cs.namespace && k.name in c.weights
    then Some(Weighted(o.value, c.weights[k.name]))
    else o
  }

  lemma {:induction false} ReconciledAt(c: Context, store: Store, k: Key)
    ensures At(Reconciled(c, store), k) == ReconciledObject(c, k, At(store, k))
  {
    StagedAt(store, c.cs.namespace, Outcomes(c, store), Wanted(c), Mine(c, store) - Wanted(c), k);
    if k.namespace == c.cs.namespace {
      assert KeyOf(c, k.name) == k;
      ListedAt(store, c, k.name);
    }
  }

  lemma {:induction false} SameObjects(a: Store, b: Store)
    requires forall k :: At(a, k) == At(b, k)
    ensures a == b
  {
    forall k
      ensures k in a <==> k in b
      ensures k in a ==> a[k] == b[k]
    {
      assert At(a, k) == At(b, k);
    }
    assert a.Keys == b.Keys;
  }

  /** One run brings every object to rest: an entry of the service is exactly as built, up to its weight. */
  lemma {:induction false} WantedShape(c: Context, k: Key, o: Option<Entry>)
    requires k.namespace == c.cs.namespace && k.name in Wanted(c)
    requires o.Some? ==> Carries(c, o.value)
    ensures var t, want := ReconciledObject(c, k, o), Want(c, k.name);
      && t.Some? && Carries(c, t.value) && Carries(c, want)
      && t.value.labels == want.labels && t.value.finalizers == want.finalizers == []
      && Weighted(t.value, 0).spec == want.spec
      && (t.value.spec.weight == 0 || (k.name in c.weights && t.value.spec.weight == c.weights[k.name]))
  {
  }

  // ----- the ConfiguredService writer alone -----

  /** Wanted names that another owner's label holds. */
  ghost function HeldByOthers(c: Context, store: Store): set<string> {
    set n | n in Wanted(c) && KeyOf(c, n) in store && !Carries(c, store[KeyOf(c, n)])
  }

  /** After a run the names carrying the label are exactly the wanted ones that nobody else holds;
      each is as built from the first instance of its name, up to the weight; nothing else in the
      store has changed. */
  lemma {:induction false} ReconcileConverges(c: Context, store: Store)
    ensures var t := Reconciled(c, store);
      && Mine(c, t) == Wanted(c) - HeldByOthers(c, store)
      && (forall n :: n in Mine(c, t) ==>
          && KeyOf(c, n) in t && t[KeyOf(c, n)].labels == Want(c, n).labels && t[KeyOf(c, n)].finalizers == []
          && Weighted(t[KeyOf(c, n)], 0).spec == Want(c, n).spec)
      && (forall k: Key :: !(k.namespace == c.cs.namespace && (k.name in Mine(c, t) || k.name in Mine(c, store))) ==>
          At(t, k) == At(store, k))
  {
    var t := Reconciled(c, store);
    forall n
      ensures n in Mine(c, t) <==> n in Wanted(c) - HeldByOthers(c, store)
      ensures n in Mine(c, t) ==>
          && KeyOf(c, n) in t && t[KeyOf(c, n)].labels == Want(c, n).labels && t[KeyOf(c, n)].finalizers == []
          && Weighted(t[KeyOf(c, n)], 0).spec == Want(c, n).spec
    {
      ConvergesAt(c, store, n);
    }
    forall k: Key | !(k.namespace == c.cs.namespace && (k.name in Mine(c, t) || k.name in Mine(c, store)))
      ensures At(t, k) == At(store, k)
    {
      ReconciledAt(c, store, k);
      if k.namespace == c.cs.namespace {
        assert k == KeyOf(c, k.name);
        ConvergesAt(c, store, k.name);
        ListedAt(store, c, k.name);
      }
    }
  }

  lemma {:induction false} ConvergesAt(c: Context, store: Store, n: string)
    ensures var t := Reconciled(c, store);
      && (n in Mine(c, t) <==> n in Wanted(c) && n !in HeldByOthers(c, store))
      && (n in Mine(c, t) ==>
          && KeyOf(c, n) in t && t[KeyOf(c, n)].labels == Want(c, n).labels && t[KeyOf(c, n)].finalizers == []
          && Weighted(t[KeyOf(c, n)], 0).spec == Want(c, n).spec)
  {
    var t, k := Reconciled(c, store), KeyOf(c, n);
    ReconciledAt(c, store, k);
    ListedAt(t, c, n);
    if n in Wanted(c) && (k in store ==> Carries(c, store[k])) {
      WantedShape(c, k, At(store, k));
    }
  }

  lemma {:induction false} ReconcileIsIdempotent(c: Context, store: Store)
    ensures Reconciled(c, Reconciled(c, store)) == Reconciled(c, store)
  {
    var t := Reconciled(c, store);
    forall k
      ensures At(Reconciled(c, t), k) == At(t, k)
    {
      ReconciledAt(c, store, k);
      ReconciledAt(c, t, k);
      ReconciledObjectTwice(c, k, At(store, k));
    }
    SameObjects(Reconciled(c, t), t);
  }

  lemma {:induction false} ReconciledObjectTwice(c: Context, k: Key, o: Option<Entry>)
    ensures ReconciledObject(c, k, ReconciledObject(c, k, o)) == ReconciledObject(c, k, o)
  {
  }

  // ----- other runs may take other labels -----

  ghost function WithPicks(c: Context, picks: Picks): Context { c.(picks := picks) }

  /** No entry of the service that it can write depends on the iteration order of the remap. */
  ghost predicate Clear(c: Context, store: Store) {
    forall n :: n in Wanted(c) && n !in HeldByOthers(c, store) ==>
      Unambiguous(c.mesh, First(c.cs, c.cs.instances, n).labels)
  }

  lemma {:induction false} WantOfClear(c: Context, picks: Picks, n: string)
    requires n in Wanted(c) && Unambiguous(c.mesh, First(c.cs, c.cs.instances, n).labels)
    ensures Want(WithPicks(c, picks), n) == Want(c, n)
  {
    UnambiguousPick(c.opt.selectLabel, c.cs.name, c.mesh, First(c.cs, c.cs.instances, n).labels, PickOf(picks, n),
      PickOf(c.picks, n));
  }

  lemma {:induction false} PicksDoNotMatter(c: Context, picks: Picks, store: Store)
    requires Clear(c, store)
    ensures Reconciled(WithPicks(c, picks), store) == Reconciled(c, store)
  {
    var d := WithPicks(c, picks);
    forall k
      ensures At(Reconciled(d, store), k) == At(Reconciled(c, store), k)
    {
      ReconciledAt(c, store, k);
      ReconciledAt(d, store, k);
      if k.namespace == c.cs.namespace && k.name in Wanted(c) && k.name !in HeldByOthers(c, store) {
        WantOfClear(c, picks, k.name);
      } else if k.namespace == c.cs.namespace && k.name in Wanted(c) {
        assert KeyOf(c, k.name) == k;
      }
    }
    SameObjects(Reconciled(d, store), Reconciled(c, store));
  }

  /** A run with other picks finds nothing to do. */
  ghost predicate AtRest(c: Context, picks: Picks, store: Store) { Reconciled(WithPicks(c, picks), store) == store }

  lemma {:induction false} HeldAt(c: Context, store: Store, n: string)
    ensures n in HeldByOthers(c, store) <==>
      n in Wanted(c) && At(store, KeyOf(c, n)).Some? && !Carries(c, At(store, KeyOf(c, n)).value)
  {
  }

  lemma {:induction false} HeldByTheSame(c: Context, store: Store)
    ensures HeldByOthers(c, Reconciled(c, store)) == HeldByOthers(c, store)
  {
    forall n
      ensures n in HeldByOthers(c, Reconciled(c, store)) <==> n in HeldByOthers(c, store)
    {
      HeldAt(c, store, n);
      HeldAt(c, Reconciled(c, store), n);
      ReconciledAt(c, store, KeyOf(c, n));
      if n in Wanted(c) {
        StaysHeld(c, KeyOf(c, n), At(store, KeyOf(c, n)));
      }
    }
  }

  lemma {:induction false} StaysHeld(c: Context, k: Key, o: Option<Entry>)
    requires k.namespace == c.cs.namespace && k.name in Wanted(c)
    ensures var t := ReconciledObject(c, k, o);
      t.Some? && (Carries(c, t.value) <==> o.Some? ==> Carries(c, o.value))
  {
    if o.Some? ==> Carries(c, o.value) {
      WantedShape(c, k, o);
    }
  }

  /** After one run every further one finds nothing to do, whatever labels it happens to take, if and
      only if no entry that the service can write is ambiguous. */
  lemma {:induction false} RestIffClear(c: Context, store: Store)
    ensures (forall picks :: AtRest(c, picks, Reconciled(c, store))) <==> Clear(c, store)
  {
    var t := Reconciled(c, store);
    HeldByTheSame(c, store);
    if Clear(c, store) {
      forall picks
        ensures AtRest(c, picks, t)
      {
        PicksDoNotMatter(c, picks, t);
        ReconcileIsIdempotent(c, store);
      }
    } else {
      var n :| n in Wanted(c) && n !in HeldByOthers(c, store) &&
        !Unambiguous(c.mesh, First(c.cs, c.cs.instances, n).labels);
      var picks := AmbiguousIsNotAtRest(c, store, n);
    }
  }

  lemma {:induction false} AmbiguousIsNotAtRest(c: Context, store: Store, n: string) returns (picks: Picks)
    requires n in Wanted(c) && n !in HeldByOthers(c, store)
    requires !Unambiguous(c.mesh, First(c.cs, c.cs.instances, n).labels)
    ensures !AtRest(c, picks, Reconciled(c, store))
  {
    picks := OtherPicks(c, n);
    HeldAt(c, store, n);
    DiffersAfter(c, picks, store, n);
  }

  lemma {:induction false} DiffersAfter(c: Context, picks: Picks, store: Store, n: string)
    requires n in Wanted(c) && (At(store, KeyOf(c, n)).Some? ==> Carries(c, At(store, KeyOf(c, n)).value))
    requires Want(WithPicks(c, picks), n).spec.labels != Want(c, n).spec.labels
    ensures !AtRest(c, picks, Reconciled(c, store))
  {
    ReconciledAt(c, store, KeyOf(c, n));
    LabelsDiffer(c, picks, n, At(store, KeyOf(c, n)));
    RestObjects(c, picks, Reconciled(c, store), KeyOf(c, n));
  }

  lemma {:induction false} RestObjects(c: Context, picks: Picks, store: Store, k: Key)
    ensures AtRest(c, picks, store) ==> ReconciledObject(WithPicks(c, picks), k, At(store, k)) == At(store, k)
  {
    ReconciledAt(WithPicks(c, picks), store, k);
  }

  lemma {:induction false} OtherPicks(c: Context, n: string) returns (picks: Picks)
    requires n in Wanted(c) && !Unambiguous(c.mesh, First(c.cs, c.cs.instances, n).labels)
    ensures Want(WithPicks(c, picks), n).spec.labels != Want(c, n).spec.labels
  {
    var pick := AmbiguousPick(c.opt.selectLabel, c.cs.name, c.mesh, First(c.cs, c.cs.instances, n).labels,
      PickOf(c.picks, n));
    picks := map[n := pick];
  }

  lemma {:induction false} LabelsDiffer(c: Context, picks: Picks, n: string, o: Option<Entry>)
    requires n in Wanted(c) && (o.Some? ==> Carries(c, o.value))
    requires Want(WithPicks(c, picks), n).spec.labels != Want(c, n).spec.labels
    ensures var once := ReconciledObject(c, KeyOf(c, n), o);
      var again := ReconciledObject(WithPicks(c, picks), KeyOf(c, n), once);
      once.Some? && again.Some? && again.value.spec.labels != once.value.spec.labels
  {
    var d := WithPicks(c, picks);
    WantedShape(c, KeyOf(c, n), o);
    WantedShape(d, KeyOf(d, n), ReconciledObject(c, KeyOf(c, n), o));
  }

  // ----- both writers -----

  /** Each ConfiguredService run happens to take some labels. */
  datatype Writer = ByConfiguredService(picks: Picks) | ByServiceConfig

  /** `c.weights` are the weights of the ServiceConfig, which both writers read. */
  ghost function Step(c: Context, w: Writer, store: Store): Store {
    match w
    case ByConfiguredService(picks) => Reconciled(WithPicks(c, picks), store)
    case ByServiceConfig => SetWeights(store, c.cs.namespace, c.weights)
  }

  ghost function Apply(c: Context, runs: seq<Writer>, store: Store): Store {
    if runs == [] then store else Step(c, runs[|runs| - 1], Apply(c, runs[..|runs| - 1], store))
  }

  lemma {:induction false} StaysClear(c: Context, runs: seq<Writer>, store: Store)
    requires Clear(c, store)
    ensures Clear(c, Apply(c, runs, store))
  {
    if runs != [] {
      var before := Apply(c, runs[..|runs| - 1], store);
      StaysClear(c, runs[..|runs| - 1], store);
      StepHeld(c, runs[|runs| - 1], before);
    }
  }

  lemma {:induction false} StepHeld(c: Context, w: Writer, store: Store)
    ensures HeldByOthers(c, Step(c, w, store)) == HeldByOthers(c, store)
  {
    match w
    case ByConfiguredService(picks) =>
      HeldByTheSame(WithPicks(c, picks), store);
      HeldWhateverPicks(c, picks, Step(c, w, store));
      HeldWhateverPicks(c, picks, store);
    case ByServiceConfig =>
  }

  lemma {:induction false} HeldWhateverPicks(c: Context, picks: Picks, store: Store)
    ensures HeldByOthers(WithPicks(c, picks), store) == HeldByOthers(c, store)
  {
  }

  /** Where the two writers agree to leave the store. */
  ghost function Rest(c: Context, store: Store): Store {
    SetWeights(Reconciled(c, store), c.cs.namespace, c.weights)
  }

  lemma {:induction false} RestAt(c: Context, store: Store, k: Key)
    ensures At(Rest(c, store), k) == WeightedObject(c, k, ReconciledObject(c, k, At(store, k)))
  {
    ReconciledAt(c, store, k);
  }

  /** Weights written before a ConfiguredService run make no difference after the next ServiceConfig run. */
  lemma {:induction false} RestForgetsWeights(c: Context, store: Store)
    ensures Rest(c, SetWeights(store, c.cs.namespace, c.weights)) == Rest(c, store)
  {
    var s := SetWeights(store, c.cs.namespace, c.weights);
    forall k
      ensures At(Rest(c, s), k) == At(Rest(c, store), k)
    {
      RestAt(c, s, k);
      RestAt(c, store, k);
      ForgetsWeight(c, k, At(store, k));
    }
    SameObjects(Rest(c, s), Rest(c, store));
  }

  lemma {:induction false} ForgetsWeight(c: Context, k: Key, o: Option<Entry>)
    ensures WeightedObject(c, k, ReconciledObject(c, k, WeightedObject(c, k, o))) ==
      WeightedObject(c, k, ReconciledObject(c, k, o))
  {
    if k.namespace == c.cs.namespace && k.name in Wanted(c) && o.Some? && Carries(c, o.value) {
      WantedShape(c, k, o);
      WantedShape(c, k, WeightedObject(c, k, o));
    }
  }

  lemma {:induction false} RestIsReconciled(c: Context, store: Store)
    ensures Reconciled(c, Rest(c, store)) == Rest(c, store)
  {
    var t := Rest(c, store);
    forall k
      ensures At(Reconciled(c, t), k) == At(t, k)
    {
      RestAt(c, store, k);
      ReconciledAt(c, t, k);
      RestObject(c, k, At(store, k));
    }
    SameObjects(Reconciled(c, t), t);
  }

  lemma {:induction false} RestObject(c: Context, k: Key, o: Option<Entry>)
    ensures var t := WeightedObject(c, k, ReconciledObject(c, k, o));
      ReconciledObject(c, k, t) == t
  {
  }

  lemma {:induction false} SetWeightsTwice(store: Store, namespace: string, weights: map<string, nat>)
    ensures SetWeights(SetWeights(store, namespace, weights), namespace, weights) ==
      SetWeights(store, namespace, weights)
  {
  }

  lemma {:induction false} RestIsFixed(c: Context, store: Store, w: Writer)
    requires Clear(c, store)
    ensures Step(c, w, Rest(c, store)) == Rest(c, store)
  {
    if w.ByConfiguredService? {
      StepHeld(c, ByConfiguredService(c.picks), store);
      StepHeld(c, ByServiceConfig, Reconciled(c, store));
      PicksDoNotMatter(c, w.picks, Rest(c, store));
      RestIsReconciled(c, store);
    } else {
      SetWeightsTwice(Reconciled(c, store), c.cs.namespace, c.weights);
    }
  }

  /** Whatever ran before, a ConfiguredService run followed by a ServiceConfig run leads to the same store. */
  lemma {:induction false} RestAbsorbs(c: Context, runs: seq<Writer>, store: Store)
    requires Clear(c, store)
    ensures Rest(c, Apply(c, runs, store)) == Rest(c, store)
  {
    if runs != [] {
      var before := Apply(c, runs[..|runs| - 1], store);
      RestAbsorbs(c, runs[..|runs| - 1], store);
      if runs[|runs| - 1].ByConfiguredService? {
        StaysClear(c, runs[..|runs| - 1], store);
        PicksDoNotMatter(c, runs[|runs| - 1].picks, before);
        ReconcileIsIdempotent(c, before);
      } else {
        RestForgetsWeights(c, before);
      }
    }
  }

  lemma {:induction false} WeightsAfter(c: Context, runs: seq<Writer>, store: Store)
    requires Clear(c, store) && exists i :: 0 <= i < |runs| && runs[i].ByConfiguredService?
    ensures SetWeights(Apply(c, runs, store), c.cs.namespace, c.weights) == Rest(c, store)
  {
    var n := |runs| - 1;
    var before := Apply(c, runs[..n], store);
    if runs[n].ByConfiguredService? {
      StaysClear(c, runs[..n], store);
      PicksDoNotMatter(c, runs[n].picks, before);
      RestAbsorbs(c, runs[..n], store);
    } else {
      var i :| 0 <= i < n && runs[i].ByConfiguredService?;
      assert runs[..n][i].ByConfiguredService?;
      WeightsAfter(c, runs[..n], store);
      SetWeightsTwice(before, c.cs.namespace, c.weights);
    }
  }

  /** The two writers do not fight: every run, of any length and order, in which a ConfiguredService
      reconcile is followed by a ServiceConfig reconcile, however much later, ends in one and the
      same store, whatever labels the runs happen to take. */
  lemma {:induction false} TwoWritersSettle(c: Context, runs: seq<Writer>, store: Store, i: nat, j: nat)
    requires Clear(c, store) && i < j < |runs| && runs[i].ByConfiguredService? && runs[j] == ByServiceConfig
    ensures Apply(c, runs, store) == Rest(c, store)
  {
    var n := |runs| - 1;
    if j == n {
      assert runs[..n][i].ByConfiguredService?;
      WeightsAfter(c, runs[..n], store);
    } else {
      TwoWritersSettle(c, runs[..n], store, i, j);
      RestIsFixed(c, store, runs[n]);
    }
  }

  /** For an ambiguous entry that the service can write there is no such store. */
  lemma {:induction false} AmbiguousDoesNotSettle(c: Context, store: Store) returns (picks: Picks)
    requires !Clear(c, store)
    ensures Rest(WithPicks(c, picks), store) != Rest(c, store)
  {
    var n :| n in Wanted(c) && n !in HeldByOthers(c, store) &&
      !Unambiguous(c.mesh, First(c.cs, c.cs.instances, n).labels);
    picks := OtherPicks(c, n);
    var d, k := WithPicks(c, picks), KeyOf(c, n);
    RestAt(c, store, k);
    RestAt(d, store, k);
    WantedShape(c, k, At(store, k));
    WantedShape(d, k, At(store, k));
    assert At(Rest(d, store), k) != At(Rest(c, store), k);
  }

  /** There the entry of an instance whose name is in DNS-1123 form has the weight the ServiceConfig
      configures for its host and port; an entry whose formatted name is not configured has weight 0. */
  lemma {:induction false} ConfiguredWeightIsKept(c: Context, store: Store, ins: Instance)
    requires ins in c.cs.instances && NameOf(c.cs, ins) !in HeldByOthers(c, store)
    ensures var t, k := Rest(c, store), KeyOf(c, NameOf(c.cs, ins));
      && k in t
      && (NameOf(c.cs, ins) == EntryName(c.cs.name, ins.host, ins.port) &&
           EntryName(c.cs.name, ins.host, ins.port) in c.weights ==>
          t[k].spec.weight == c.weights[EntryName(c.cs.name, ins.host, ins.port)])
      && (NameOf(c.cs, ins) !in c.weights ==> t[k].spec.weight == 0)
  {
    var k := KeyOf(c, NameOf(c.cs, ins));
    RestAt(c, store, k);
    WantedShape(c, k, At(store, k));
  }

  // ----- weights under the ConfiguredService writer -----

  /** Every entry that exists and is configured has its configured weight. */
  ghost predicate WeightsHold(c: Context, store: Store) {
    forall n :: n in c.weights && KeyOf(c, n) in store ==> store[KeyOf(c, n)].spec.weight == c.weights[n]
  }

  /** An instance whose entry is still to be created is configured with a weight other than 0. */
  ghost predicate AwaitsWeight(c: Context, store: Store) {
    exists n :: n in Wanted(c) && n in c.weights && KeyOf(c, n) !in store && c.weights[n] != 0
  }

  /** The ConfiguredService writer keeps the weights exactly when it has no configured entry to create;
      the ServiceConfig writer then brings them back. */
  lemma {:induction false} ConfiguredServiceKeepsWeights(c: Context, store: Store)
    requires WeightsHold(c, store)
    ensures WeightsHold(c, Reconciled(c, store)) <==> !AwaitsWeight(c, store)
    ensures WeightsHold(c, SetWeights(Reconciled(c, store), c.cs.namespace, c.weights))
  {
    var t := Reconciled(c, store);
    if AwaitsWeight(c, store) {
      var n :| n in Wanted(c) && n in c.weights && KeyOf(c, n) !in store && c.weights[n] != 0;
      ReconciledAt(c, store, KeyOf(c, n));
      assert t[KeyOf(c, n)].spec.weight == 0;
    } else {
      forall n | n in c.weights && KeyOf(c, n) in t
        ensures t[KeyOf(c, n)].spec.weight == c.weights[n]
      {
        ReconciledAt(c, store, KeyOf(c, n));
      }
    }
  }
}
