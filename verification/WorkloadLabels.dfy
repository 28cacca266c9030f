/** The labels of a WorkloadEntry's spec: the two nested loops of buildWorkloadEntry in
    controllers/configuredservice/workloadentry.go:124-132. The inner loop ranges over a map, so that
    Go picks the order; of several instance labels for one workload label the last visited wins. */
module WorkloadLabels {
  import opened Subsets
  import opened Resources

  predicate IsSource(remap: Labels, k: string, rk: string) { rk in remap && remap[rk] == k }

  ghost predicate Sourced(remap: Labels, k: string) { exists rk :: IsSource(remap, k, rk) }

  ghost function Source(remap: Labels, k: string): (rk: string)
    requires Sourced(remap, k)
    ensures IsSource(remap, k, rk)
  {
    var rk :| IsSource(remap, k, rk);
    rk
  }

  function Get(labels: Labels, k: string): string { if k in labels then labels[k] else "" }

  // ----- the inner loop -----

  /** The inner loop when Go visits the remap in the given order. */
  function CopiedInOrder(labels: Labels, k: string, remap: Labels, ins: Labels, order: seq<string>): Labels {
    if order == [] then labels
    else
      var n := |order| - 1;
      var before := CopiedInOrder(labels, k, remap, ins, order[..n]);
      if IsSource(remap, k, order[n]) then before[k := Get(ins, order[n])] else before
  }

  /** An iteration order of a map: each key once. */
  ghost predicate IsOrder(order: seq<string>, keys: set<string>) {
    (forall x :: x in order <==> x in keys) && (forall i, j :: 0 <= i < j < |order| ==> order[i] != order[j])
  }

  method CopyRemapped(labels: Labels, k: string, remap: Labels, ins: Labels)
    returns (r: Labels, ghost order: seq<string>)
    ensures IsOrder(order, remap.Keys) && r == CopiedInOrder(labels, k, remap, ins, order)
  {
    r, order := labels, [];
    var rest := remap.Keys;
    while rest != {}
      invariant rest <= remap.Keys
      invariant IsOrder(order, remap.Keys - rest)
      invariant r == CopiedInOrder(labels, k, remap, ins, order)
      decreases rest
    {
      var rk :| rk in rest;
      rest := rest - {rk};
      assert (order + [rk])[..|order|] == order;
      order := order + [rk];
      if k == remap[rk] {
        r := r[k := Get(ins, rk)];
      }
    }
  }

  /** The source visited last. */
  function LastSource(remap: Labels, k: string, order: seq<string>): string {
    if order == [] then ""
    else if IsSource(remap, k, order[|order| - 1]) then order[|order| - 1]
    else LastSource(remap, k, order[..|order| - 1])
  }

  lemma {:induction false} CopiedIsLast(labels: Labels, k: string, remap: Labels, ins: Labels, order: seq<string>)
    ensures var copied := CopiedInOrder(labels, k, remap, ins, order);
      && ((exists rk :: rk in order && IsSource(remap, k, rk)) ==>
          IsSource(remap, k, LastSource(remap, k, order)) &&
          copied == labels[k := Get(ins, LastSource(remap, k, order))])
      && (!(exists rk :: rk in order && IsSource(remap, k, rk)) ==> copied == labels)
  {
    if order != [] {
      var n := |order| - 1;
      CopiedIsLast(labels, k, remap, ins, order[..n]);
      assert order == order[..n] + [order[n]];
    }
  }

  // ----- all labels -----

  /** The instance label taken for k: as `pick` says, if that is possible. */
  ghost function Taken(remap: Labels, pick: Labels, k: string): (rk: string)
    requires Sourced(remap, k)
    ensures IsSource(remap, k, rk)
  {
    if k in pick && IsSource(remap, k, pick[k]) then pick[k] else Source(remap, k)
  }

  /** The service's label, and each workload key that is the mesh name of some instance label. */
  ghost function EntryLabels(selector: string, service: string, keys: seq<string>, remap: Labels, ins: Labels,
                             pick: Labels)
    : Labels
  {
    map k | k in [selector] + keys && (k == selector || Sourced(remap, k)) ::
      if k in keys && Sourced(remap, k) then Get(ins, Taken(remap, pick, k)) else service
  }

  lemma {:induction false} CopiedInFull(labels: Labels, k: string, remap: Labels, ins: Labels, order: seq<string>)
    requires IsOrder(order, remap.Keys)
    ensures var copied, last := CopiedInOrder(labels, k, remap, ins, order), LastSource(remap, k, order);
      && (Sourced(remap, k) ==> IsSource(remap, k, last) && copied == labels[k := Get(ins, last)])
      && (!Sourced(remap, k) ==> copied == labels)
  {
    CopiedIsLast(labels, k, remap, ins, order);
    if Sourced(remap, k) {
      assert Source(remap, k) in order;
    }
  }

  lemma {:induction false} EntryLabelsStep(selector: string, service: string, keys: seq<string>, k: string,
                                           remap: Labels, ins: Labels, pick: Labels, last: string)
    requires Sourced(remap, k) ==> IsSource(remap, k, last)
    ensures var before := EntryLabels(selector, service, keys, remap, ins, pick);
      EntryLabels(selector, service, keys + [k], remap, ins, pick[k := last]) ==
        if Sourced(remap, k) then before[k := Get(ins, last)] else before
  {
    var before := EntryLabels(selector, service, keys, remap, ins, pick);
    var after := EntryLabels(selector, service, keys + [k], remap, ins, pick[k := last]);
    var wanted := if Sourced(remap, k) then before[k := Get(ins, last)] else before;
    forall x
      ensures x in after <==> x in wanted
      ensures x in after ==> after[x] == wanted[x]
    {
      StepAt(selector, service, keys, k, remap, ins, pick, last, x);
    }
  }

  lemma {:induction false} StepAt(selector: string, service: string, keys: seq<string>, k: string, remap: Labels,
                                  ins: Labels, pick: Labels, last: string, x: string)
    requires Sourced(remap, k) ==> IsSource(remap, k, last)
    ensures var before := EntryLabels(selector, service, keys, remap, ins, pick);
      var after := EntryLabels(selector, service, keys + [k], remap, ins, pick[k := last]);
      if x == k && Sourced(remap, k) then x in after && after[x] == Get(ins, last)
      else (x in after <==> x in before) && (x in after ==> after[x] == before[x])
  {
    if x != k && Sourced(remap, x) {
      assert Taken(remap, pick[k := last], x) == Taken(remap, pick, x);
    }
  }

  method BuildLabels(opt: Options, mesh: Mesh, service: string, ins: Labels)
    returns (labels: Labels, ghost pick: Labels)
    ensures labels == EntryLabels(opt.selectLabel, service, mesh.workloadKeys, mesh.remap, ins, pick)
  {
    labels, pick := map[opt.selectLabel := service], map[];
    var keys := mesh.workloadKeys;
    for i := 0 to |keys|
      invariant labels == EntryLabels(opt.selectLabel, service, keys[..i], mesh.remap, ins, pick)
    {
      ghost var order;
      labels, order := CopyRemapped(labels, keys[i], mesh.remap, ins);
      assert keys[..i + 1] == keys[..i] + [keys[i]];
      CopiedInFull(EntryLabels(opt.selectLabel, service, keys[..i], mesh.remap, ins, pick), keys[i], mesh.remap, ins,
        order);
      EntryLabelsStep(opt.selectLabel, service, keys[..i], keys[i], mesh.remap, ins, pick,
        LastSource(mesh.remap, keys[i], order));
      pick := pick[keys[i] := LastSource(mesh.remap, keys[i], order)];
    }
    assert keys[..|keys|] == keys;
  }

  // ----- when the order does not matter -----

  /** The instance labels that a workload label can come from agree. */
  ghost predicate Agreed(remap: Labels, k: string, ins: Labels) {
    forall a, b :: IsSource(remap, k, a) && IsSource(remap, k, b) ==> Get(ins, a) == Get(ins, b)
  }

  ghost predicate Unambiguous(mesh: Mesh, ins: Labels) {
    forall k :: k in mesh.workloadKeys ==> Agreed(mesh.remap, k, ins)
  }

  ghost predicate OrderFree(labels: Labels, k: string, remap: Labels, ins: Labels) {
    forall o, p :: IsOrder(o, remap.Keys) && IsOrder(p, remap.Keys) ==>
      CopiedInOrder(labels, k, remap, ins, o) == CopiedInOrder(labels, k, remap, ins, p)
  }

  lemma {:induction false} OrderExists(keys: set<string>) returns (order: seq<string>)
    ensures IsOrder(order, keys)
  {
    order := [];
    if keys != {} {
      var x :| x in keys;
      var rest := OrderExists(keys - {x});
      order := rest + [x];
    }
  }

  /** The inner loop does not depend on the iteration order if and only if the sources agree. */
  lemma {:induction false} OrderFreeIffAgreed(labels: Labels, k: string, remap: Labels, ins: Labels)
    ensures OrderFree(labels, k, remap, ins) <==> Agreed(remap, k, ins)
  {
    if Agreed(remap, k, ins) {
      forall o, p | IsOrder(o, remap.Keys) && IsOrder(p, remap.Keys)
        ensures CopiedInOrder(labels, k, remap, ins, o) == CopiedInOrder(labels, k, remap, ins, p)
      {
        CopiedIsLast(labels, k, remap, ins, o);
        CopiedIsLast(labels, k, remap, ins, p);
      }
    } else {
      var a, b :| IsSource(remap, k, a) && IsSource(remap, k, b) && Get(ins, a) != Get(ins, b);
      var o := EndingWith(labels, k, remap, ins, a);
      var p := EndingWith(labels, k, remap, ins, b);
    }
  }

  lemma {:induction false} EndingWith(labels: Labels, k: string, remap: Labels, ins: Labels, a: string)
    returns (order: seq<string>)
    requires IsSource(remap, k, a)
    ensures IsOrder(order, remap.Keys)
    ensures var r := CopiedInOrder(labels, k, remap, ins, order); k in r && r[k] == Get(ins, a)
  {
    var rest := OrderExists(remap.Keys - {a});
    order := rest + [a];
    assert order[..|rest|] == rest;
  }

  lemma {:induction false} UnambiguousPick(selector: string, service: string, mesh: Mesh, ins: Labels, p: Labels,
                                           q: Labels)
    requires Unambiguous(mesh, ins)
    ensures EntryLabels(selector, service, mesh.workloadKeys, mesh.remap, ins, p) ==
      EntryLabels(selector, service, mesh.workloadKeys, mesh.remap, ins, q)
  {
    forall k | k in mesh.workloadKeys && Sourced(mesh.remap, k)
      ensures Get(ins, Taken(mesh.remap, p, k)) == Get(ins, Taken(mesh.remap, q, k))
    {
    }
  }

  /** For an ambiguous instance any labels could have been different ones. */
  lemma {:induction false} AmbiguousPick(selector: string, service: string, mesh: Mesh, ins: Labels, p: Labels)
    returns (q: Labels)
    requires !Unambiguous(mesh, ins)
    ensures EntryLabels(selector, service, mesh.workloadKeys, mesh.remap, ins, p) !=
      EntryLabels(selector, service, mesh.workloadKeys, mesh.remap, ins, q)
  {
    var keys, remap := mesh.workloadKeys, mesh.remap;
    var k :| k in keys && !Agreed(remap, k, ins);
    var a, b :| IsSource(remap, k, a) && IsSource(remap, k, b) && Get(ins, a) != Get(ins, b);
    var other := if Get(ins, a) != Get(ins, Taken(remap, p, k)) then a else b;
    q := map[k := other];
    assert Taken(remap, q, k) == other;
    LabelAt(selector, service, keys, remap, ins, p, k);
    LabelAt(selector, service, keys, remap, ins, q, k);
  }

  lemma {:induction false} LabelAt(selector: string, service: string, keys: seq<string>, remap: Labels, ins: Labels,
                                   pick: Labels, k: string)
    requires k in keys && Sourced(remap, k)
    ensures var r := EntryLabels(selector, service, keys, remap, ins, pick);
      k in r && r[k] == Get(ins, Taken(remap, pick, k))
  {
  }
}
