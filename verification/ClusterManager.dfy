/** The cluster list and its operations: cluterCheck, Add, Delete, Get, GetAll and GetClusterIndex in
    pkg/k8s/manager/manager.go. */
module ClusterManager {
  import opened Wrappers
  import opened Names
  import opened Clusters
  import opened ClusterCheck

  class Manager {
    var clusters: seq<Cluster>

    /** Names may repeat. */
    ghost predicate Valid()
      reads this
    {
      Sorted(clusters)
    }

    constructor ()
      ensures Valid() && clusters == []
    {
      clusters := [];
    }

    /** cluterCheck, when the configuration can be read; clusters named in `broken` cannot be created. A
        stopped cluster stays listed exactly when some creation fails and some cluster was to go, and
        exactly then another check with this configuration would stop a cluster twice. */
    method Check(configmaps: seq<ConfigMap>, broken: set<string>) returns (ok: bool)
      requires Valid() && (configmaps != [] ==> MayCheck(clusters, Expected(configmaps)))
      modifies this, clusters
      ensures Valid() && (old(DistinctNames(clusters)) ==> DistinctNames(clusters))
      ensures configmaps == [] ==> ok && clusters == old(clusters) && InfosOf(clusters) == old(InfosOf(clusters))
      ensures configmaps != [] ==> (ok <==> Creatable(old(LastOnes(clusters)), Expected(configmaps), broken))
      ensures configmaps != [] && ok ==>
        Checked(old(InfosOf(LastOnes(clusters))), Expected(configmaps), InfosOf(LastOnes(clusters)))
      ensures configmaps != [] ==> forall c :: c in old(LastOnes(clusters)) ==>
        if Keeps(Expected(configmaps), c.name, c.kubeconfig) then c in clusters && c.stopped == old(c.stopped)
        else c.stopped && (c in clusters <==> !ok)
      ensures forall c :: c in old(clusters) && (configmaps == [] || c !in old(LastOnes(clusters))) ==>
        c.stopped == old(c.stopped) && c.status == old(c.status)
      ensures clusters != old(clusters) ==> ok && DistinctNames(clusters)
      ensures forall c :: c in clusters ==>
        (fresh(c) && !c.stopped) || (c in old(clusters) && (c in old(LastOnes(clusters)) || clusters == old(clusters)))
      ensures old(AllRunning(clusters)) ==>
        (AllRunning(clusters) <==> ok || KeepsAll(old(LastOnes(clusters)), Expected(configmaps)))
      ensures configmaps != [] ==> (MayCheck(clusters, Expected(configmaps)) <==>
        ok || KeepsAll(old(LastOnes(clusters)), Expected(configmaps)))
    {
      if |configmaps| == 0 {
        return true;
      }
      var wanted := map[];
      for i := 0 to |configmaps|
        invariant wanted == Expected(configmaps[..i])
      {
        var config := ConvertToKubeconfig(configmaps[i]);
        wanted := wanted[configmaps[i].name := config];
        assert configmaps[..i + 1][..i] == configmaps[..i];
      }
      assert configmaps[..|configmaps|] == configmaps;
      var newClusters;
      ok, newClusters := CheckList(clusters, wanted, broken);
      clusters := newClusters;
    }

    // ----- the other operations -----

    method GetClusterIndex(name: string) returns (index: nat, found: bool)
      ensures found <==> exists i :: FirstNamed(clusters, i, name)
      ensures found ==> FirstNamed(clusters, index, name)
    {
      for i := 0 to |clusters|
        invariant forall j :: 0 <= j < i ==> clusters[j].name != name
      {
        if clusters[i].name == name {
          assert FirstNamed(clusters, i, name);
          return i, true;
        }
      }
      return 0, false;
    }

    /** A cluster of that name would be handed out: the first of the name, unless it is offline. */
    ghost predicate Visible(name: string)
      reads this, clusters
    {
      name != "" && name != "all" && exists i :: FirstNamed(clusters, i, name) && clusters[i].status != Offline
    }

    /** None is one of the errors. */
    method Get(name: string) returns (r: Option<Cluster>)
      ensures var n := FormatToDNS1123(name); r.Some? <==>
        n != "" && n != "all" && exists i :: FirstNamed(clusters, i, n) && clusters[i].status != Offline
      ensures r.Some? ==>
        r.value.status != Offline &&
        exists i :: FirstNamed(clusters, i, FormatToDNS1123(name)) && r.value == clusters[i]
    {
      var n := FormatToDNS1123(name);
      if n == "" || n == "all" {
        return None;
      }
      var i, found := GetClusterIndex(n);
      if !found || clusters[i].status == Offline {
        return None;
      }
      return Some(clusters[i]);
    }

    /** Refused exactly when Get finds the name. Names then stay different exactly when this one was not
        in use; one in DNS-1123 form can be in use all the same only as "" or "all", or by a cluster
        that is offline. No other call comes in between here, though the lock is released. */
    method Add(cluster: Cluster) returns (added: bool)
      modifies this
      ensures added <==> !old(Visible(FormatToDNS1123(cluster.name)))
      ensures !added ==> clusters == old(clusters)
      ensures added ==> Sorted(clusters) && multiset(clusters) == multiset(old(clusters)) + multiset{cluster}
      ensures old(AllRunning(clusters)) && !cluster.stopped ==> AllRunning(clusters)
      ensures added ==> (DistinctNames(clusters) <==>
        old(DistinctNames(clusters)) && forall c :: c in old(clusters) ==> c.name != cluster.name)
      ensures added && FormatToDNS1123(cluster.name) == cluster.name ==>
        forall i :: FirstNamed(old(clusters), i, cluster.name) ==>
          cluster.name == "" || cluster.name == "all" || old(clusters)[i].status == Offline
    {
      var existing := Get(cluster.name);
      if existing.Some? {
        return false;
      }
      Insert(cluster);
      added := true;
    }

    /** The second half of Add, under the lock again. The name may have come into use since Get. */
    method Insert(cluster: Cluster)
      modifies this`clusters
      ensures Sorted(clusters) && multiset(clusters) == multiset(old(clusters)) + multiset{cluster}
      ensures forall c :: c in clusters <==> c in old(clusters) || c == cluster
      ensures DistinctNames(clusters) <==>
        old(DistinctNames(clusters)) && forall c :: c in old(clusters) ==> c.name != cluster.name
    {
      var all := clusters + [cluster];
      var sorted := Sort(all);
      AddedDistinct(clusters, cluster, sorted);
      SameClusters(all, sorted);
      clusters := sorted;
    }

    /** The first cluster of the name is taken off the list, but not stopped. */
    method Delete(name: string)
      modifies this`clusters
      ensures clusters == if name == "" then old(clusters) else RemovedFirst(old(clusters), name)
    {
      if name == "" || |clusters| == 0 {
        return;
      }
      var index, found := GetClusterIndex(name);
      if !found {
        NoneNamed(clusters, |clusters|, name);
        RemovedFirstAt(clusters, |clusters|, name);
        return;
      }
      RemovedFirstAt(clusters, index, name);
      clusters := clusters[..index] + clusters[index + 1..];
    }

    /** The clusters that are not offline: all of them, or the first of the first given name. */
    method GetAll(names: seq<string>) returns (list: seq<Cluster>)
      ensures names == [] || names[0] == "all" ==> list == OnlineOf(clusters)
      ensures names != [] && names[0] != "all" ==> list == FirstOf(OnlineOf(clusters), FormatToDNS1123(names[0]))
    {
      var isAll, observeName := true, "";
      if |names| > 0 && names[0] != "all" {
        observeName := FormatToDNS1123(names[0]);
        isAll := false;
      }
      list := [];
      for i := 0 to |clusters|
        invariant isAll ==> list == OnlineOf(clusters[..i])
        invariant !isAll ==> list == [] == FirstOf(OnlineOf(clusters[..i]), observeName)
      {
        var c := clusters[i];
        OnlineStep(clusters, i, observeName);
        if c.status == Offline {
          continue;
        }
        if isAll {
          list := list + [c];
        } else if observeName != "" && observeName == c.name {
          list := list + [c];
          FirstFound(clusters, i, observeName);
          return;
        }
      }
      assert clusters[..|clusters|] == clusters;
    }
  }

  predicate FirstNamed(cs: seq<Cluster>, i: int, name: string) {
    0 <= i < |cs| && cs[i].name == name && forall j :: 0 <= j < i ==> cs[j].name != name
  }

  function OnlineOf(cs: seq<Cluster>): seq<Cluster>
    reads cs
  {
    if cs == [] then []
    else
      var n := |cs| - 1;
      OnlineOf(cs[..n]) + if cs[n].status == Offline then [] else [cs[n]]
  }

  /** At most one cluster: the first of the name. Nothing goes by the empty name. */
  function FirstOf(cs: seq<Cluster>, name: string): seq<Cluster> {
    if cs == [] || name == "" then [] else if cs[0].name == name then [cs[0]] else FirstOf(cs[1..], name)
  }

  lemma {:induction false} FirstOfMore(a: seq<Cluster>, b: seq<Cluster>, name: string)
    ensures FirstOf(a + b, name) == if FirstOf(a, name) != [] then FirstOf(a, name) else FirstOf(b, name)
  {
    if a == [] {
      assert a + b == b;
    } else {
      assert (a + b)[1..] == a[1..] + b;
      FirstOfMore(a[1..], b, name);
    }
  }

  lemma {:induction false} OnlineStep(cs: seq<Cluster>, i: nat, name: string)
    requires i < |cs|
    ensures var c, before, after := cs[i], OnlineOf(cs[..i]), OnlineOf(cs[..i + 1]);
      && after == (if c.status == Offline then before else before + [c])
      && FirstOf(after, name) ==
          if FirstOf(before, name) == [] && c.status != Offline && name != "" && name == c.name then [c]
          else FirstOf(before, name)
  {
    assert cs[..i + 1][..i] == cs[..i];
    FirstOfMore(OnlineOf(cs[..i]), [cs[i]], name);
    assert FirstOf([cs[i]][1..], name) == [];
  }

  lemma {:induction false} FirstFound(cs: seq<Cluster>, i: nat, name: string)
    requires i < |cs| && FirstOf(OnlineOf(cs[..i + 1]), name) == [cs[i]]
    ensures FirstOf(OnlineOf(cs), name) == [cs[i]]
  {
    OnlineSplits(cs, i + 1);
    FirstOfMore(OnlineOf(cs[..i + 1]), OnlineOf(cs[i + 1..]), name);
  }

  lemma {:induction false} OnlineSplits(cs: seq<Cluster>, i: nat)
    requires i <= |cs|
    ensures OnlineOf(cs) == OnlineOf(cs[..i]) + OnlineOf(cs[i..])
  {
    if i == |cs| {
      assert cs[..i] == cs;
    } else {
      var n := |cs| - 1;
      OnlineSplits(cs[..n], i);
      assert cs[..n][..i] == cs[..i] && cs[..n][i..] == cs[i..n];
      assert cs[i..][..n - i] == cs[i..n];
    }
  }

  function RemovedFirst(cs: seq<Cluster>, name: string): seq<Cluster> {
    if cs == [] then [] else if cs[0].name == name then cs[1..] else [cs[0]] + RemovedFirst(cs[1..], name)
  }

  lemma {:induction false} RemovedFirstAt(cs: seq<Cluster>, i: nat, name: string)
    requires FirstNamed(cs, i, name) || (i == |cs| && forall j :: 0 <= j < |cs| ==> cs[j].name != name)
    ensures RemovedFirst(cs, name) == if i < |cs| then cs[..i] + cs[i + 1..] else cs
  {
    if cs != [] && i > 0 {
      RemovedFirstAt(cs[1..], i - 1, name);
    }
  }

  /** Deleting keeps the list in order and, of different names, takes off exactly this one. */
  lemma {:induction false} DeletionKeepsOrder(cs: seq<Cluster>, name: string)
    ensures Sorted(cs) ==> Sorted(RemovedFirst(cs, name))
    ensures DistinctNames(cs) ==> DistinctNames(RemovedFirst(cs, name))
    ensures forall c :: c in RemovedFirst(cs, name) ==> c in cs && (DistinctNames(cs) ==> c.name != name)
    ensures forall c :: c in cs && c.name != name ==> c in RemovedFirst(cs, name)
  {
    if cs != [] {
      DeletionKeepsOrder(cs[1..], name);
      assert cs == [cs[0]] + cs[1..];
      if cs[0].name == name {
        assert DistinctNames(cs) ==> forall i :: 0 <= i < |cs| - 1 ==> cs[1..][i].name != name;
      } else {
        PrependKeepsOrder(cs, RemovedFirst(cs[1..], name));
      }
    }
  }

  lemma {:induction false} PrependKeepsOrder(cs: seq<Cluster>, rest: seq<Cluster>)
    requires cs != [] && forall c :: c in rest ==> c in cs[1..]
    ensures Sorted(cs) && Sorted(rest) ==> Sorted([cs[0]] + rest)
    ensures DistinctNames(cs) && DistinctNames(rest) ==> DistinctNames([cs[0]] + rest)
  {
    forall i | 0 <= i < |rest|
      ensures exists k :: 0 < k < |cs| && cs[k] == rest[i]
    {
      assert rest[i] in cs[1..];
      var k :| 0 <= k < |cs| - 1 && cs[1..][k] == rest[i];
      assert cs[k + 1] == rest[i];
    }
  }

  lemma {:induction false} NoneNamed(cs: seq<Cluster>, n: nat, name: string)
    requires n <= |cs| && forall i :: !FirstNamed(cs, i, name)
    ensures forall j :: 0 <= j < n ==> cs[j].name != name
  {
    if n > 0 {
      NoneNamed(cs, n - 1, name);
      assert !FirstNamed(cs, n - 1, name);
    }
  }

  lemma {:induction false} AddedDistinct(clusters: seq<Cluster>, c: Cluster, sorted: seq<Cluster>)
    requires multiset(sorted) == multiset(clusters + [c])
    ensures DistinctNames(sorted) <==> DistinctNames(clusters) && forall d :: d in clusters ==> d.name != c.name
  {
    var all := clusters + [c];
    if DistinctNames(sorted) {
      PermutedDistinct(sorted, all);
      forall i, j | 0 <= i < j < |clusters|
        ensures clusters[i].name != clusters[j].name
      {
        assert all[i].name != all[j].name;
      }
      forall i | 0 <= i < |clusters|
        ensures clusters[i].name != c.name
      {
        assert all[i].name != all[|clusters|].name;
      }
    } else if DistinctNames(clusters) && forall d :: d in clusters ==> d.name != c.name {
      DistinctTogether(clusters, [c]);
      PermutedDistinct(all, sorted);
    }
  }
}
