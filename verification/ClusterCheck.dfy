/** The set difference at the heart of cluterCheck: pkg/k8s/manager/manager.go:353-404. */
module ClusterCheck {
  import opened Clusters

  /** A Go map, which is shared by everyone who holds it. */
  class Table {
    var m: map<string, Cluster>

    constructor ()
      ensures m == map[]
    {
      m := map[];
    }
  }

  /** Where the loop over the wanted clusters stands once the names `done` have been visited: the kept
      clusters, the clusters to delete (all but the kept) and the names to add. */
  ghost predicate Sifted(clusters: seq<Cluster>, wanted: map<string, string>, done: set<string>,
                         kept: seq<Cluster>, del: map<string, Cluster>, add: map<string, string>)
  {
    && DistinctNames(kept)
    && (forall c :: c in kept ==> c in clusters && c.name in done && Keeps(wanted, c.name, c.kubeconfig))
    && (forall c :: c in clusters && c.name in done && Keeps(wanted, c.name, c.kubeconfig) ==> c in kept)
    && (forall n :: n in del ==> del[n] in clusters && del[n] !in kept && del[n].name == n)
    && (forall c :: c in clusters && c !in kept ==> c.name in del && del[c.name] == c)
    && (forall n :: n in add ==>
         n in done && n in wanted && add[n] == wanted[n] && forall c :: c in kept ==> c.name != n)
    && (forall n :: n in done && n !in add ==> exists c :: c in kept && c.name == n)
  }

  /** Of several clusters with one name the table holds the last. */
  method Current(clusters: seq<Cluster>) returns (t: Table)
    ensures fresh(t)
    ensures forall c :: c in LastOnes(clusters) ==> c.name in t.m && t.m[c.name] == c
    ensures forall n :: n in t.m ==> t.m[n] in LastOnes(clusters) && t.m[n].name == n
  {
    t := new Table();
    for i := 0 to |clusters|
      invariant forall j :: 0 <= j < i ==> clusters[j].name in t.m
      invariant forall n :: n in t.m ==> HoldsLast(clusters, i, n, t.m[n])
    {
      t.m := t.m[clusters[i].name := clusters[i]];
    }
    LastOnesAre(clusters);
    forall c | c in LastOnes(clusters)
      ensures c.name in t.m && t.m[c.name] == c
    {
      var j :| IsLastAt(clusters, j) && clusters[j] == c;
      var k :| 0 <= k < |clusters| && clusters[k] == t.m[c.name] && clusters[k].name == c.name && IsLastAt(clusters, k);
    }
    forall n | n in t.m
      ensures t.m[n] in LastOnes(clusters) && t.m[n].name == n
    {
      var k :| 0 <= k < |clusters| && clusters[k] == t.m[n] && clusters[k].name == n && IsLastAt(clusters, k);
    }
  }

  /** The last of the name among the first i clusters. */
  ghost predicate HoldsLast(clusters: seq<Cluster>, i: nat, name: string, c: Cluster)
    requires i <= |clusters|
  {
    exists k :: 0 <= k < i && clusters[k] == c && c.name == name && forall l :: k < l < i ==> clusters[l].name != name
  }

  /** The status of a visited cluster. */
  function VisitedStatus(wanted: map<string, string>, done: set<string>, name: string, kubeconfig: string,
                         status: ClusterStatus): ClusterStatus {
    if name in done && Keeps(wanted, name, kubeconfig) then StatusAfter(wanted, name, kubeconfig, status) else status
  }

  /** The body of the loop. `delList` is the same map as `currentList`. */
  method Visit(currentList: Table, delList: Table, ghost clusters: seq<Cluster>, wanted: map<string, string>,
               ghost done: set<string>, name: string, kept: seq<Cluster>, add: map<string, string>)
    returns (newClusters: seq<Cluster>, addList: map<string, string>)
    requires delList == currentList && DistinctNames(clusters)
    requires Sifted(clusters, wanted, done, kept, delList.m, add)
    requires name in wanted && name !in done
    modifies delList, if name in currentList.m then {currentList.m[name]} else {}
    ensures Sifted(clusters, wanted, done + {name}, newClusters, delList.m, addList)
    ensures forall c :: c in clusters ==>
      c.stopped == old(c.stopped) && c.status == VisitedStatus(wanted, {name}, c.name, c.kubeconfig, old(c.status))
  {
    newClusters, addList := kept, add;
    var conf := wanted[name];
    if name !in currentList.m {
      addList := addList[name := conf];
      return;
    }
    var cls := currentList.m[name];
    delList.m := delList.m - {name};
    if EqualFold(conf, cls.kubeconfig) {
      newClusters := newClusters + [cls];
      return;
    }
    if conf == "" {
      cls.status := Maintaining;
      newClusters := newClusters + [cls];
      return;
    }
    delList.m := delList.m[name := cls];
    addList := addList[name := conf];
  }

  /** `all` are the listed clusters, `clusters` those that the table holds. */
  method Sift(currentList: Table, ghost all: seq<Cluster>, ghost clusters: seq<Cluster>, wanted: map<string, string>)
    returns (newClusters: seq<Cluster>, delList: Table, addList: map<string, string>)
    requires DistinctNames(clusters) && forall c :: c in clusters ==> c in all
    requires forall c :: c in clusters ==> c.name in currentList.m && currentList.m[c.name] == c
    requires forall n :: n in currentList.m ==> currentList.m[n] in clusters && currentList.m[n].name == n
    modifies currentList, all
    ensures delList == currentList
    ensures Sifted(clusters, wanted, wanted.Keys, newClusters, delList.m, addList)
    ensures forall c :: c in all ==> c.stopped == old(c.stopped) && (c !in clusters ==> c.status == old(c.status))
    ensures forall c :: c in all && c in clusters ==>
      c.status == VisitedStatus(wanted, wanted.Keys, c.name, c.kubeconfig, old(c.status))
  {
    newClusters := [];
    delList := currentList;
    addList := map[];
    var rest := wanted.Keys;
    while rest != {}
      invariant rest <= wanted.Keys
      invariant Sifted(clusters, wanted, wanted.Keys - rest, newClusters, delList.m, addList)
      invariant forall c :: c in all ==> c.stopped == old(c.stopped) && (c !in clusters ==> c.status == old(c.status))
      invariant forall c :: c in all && c in clusters ==>
        c.status == VisitedStatus(wanted, wanted.Keys - rest, c.name, c.kubeconfig, old(c.status))
      decreases rest
    {
      var name :| name in rest;
      ghost var done := wanted.Keys - rest;
      assert wanted.Keys - (rest - {name}) == done + {name};
      rest := rest - {name};
      newClusters, addList := Visit(currentList, delList, clusters, wanted, done, name, newClusters, addList);
    }
    assert wanted.Keys - {} == wanted.Keys;
  }

  method StopAll(delList: map<string, Cluster>)
    requires forall n :: n in delList ==> delList[n].name == n && !delList[n].stopped
    modifies delList.Values
    ensures forall n :: n in delList ==> delList[n].stopped && delList[n].status == old(delList[n].status)
  {
    var rest := delList.Keys;
    while rest != {}
      invariant rest <= delList.Keys
      invariant forall n :: n in delList ==>
        (delList[n].stopped <==> n !in rest) && delList[n].status == old(delList[n].status)
      decreases rest
    {
      var n :| n in rest;
      rest := rest - {n};
      delList[n].Stop();
    }
  }

  /** Creating the clusters named in `broken` fails, and the loop ends there. */
  method AddAll(addList: map<string, string>, broken: set<string>) returns (ok: bool, added: seq<Cluster>)
    ensures ok <==> forall n :: n in addList ==> n !in broken
    ensures DistinctNames(added)
    ensures forall c :: c in added ==>
      fresh(c) && c.name in addList && c.kubeconfig == addList[c.name] && c.status == Unset && !c.stopped
    ensures ok ==> forall n :: n in addList ==> exists c :: c in added && c.name == n
  {
    added := [];
    var rest := addList.Keys;
    while rest != {}
      invariant rest <= addList.Keys && DistinctNames(added)
      invariant forall n :: n in addList && n !in rest ==> n !in broken
      invariant forall c :: c in added ==>
        fresh(c) && c.name in addList && c.name !in rest && c.kubeconfig == addList[c.name] && c.status == Unset &&
        !c.stopped
      invariant forall n :: n in addList && n !in rest ==> exists c :: c in added && c.name == n
      decreases rest
    {
      var n :| n in rest;
      if n in broken {
        return false, added;
      }
      rest := rest - {n};
      var c := new Cluster(n, addList[n]);
      added := added + [c];
      assert added[|added| - 1] == c;
    }
    ok := true;
  }

  // ----- the outcome -----

  ghost predicate NamesAre(cs: seq<Cluster>, wanted: map<string, string>) {
    (forall c :: c in cs ==> c.name in wanted) && (forall n :: n in wanted ==> exists c :: c in cs && c.name == n)
  }

  lemma {:induction false} DistinctTogether(kept: seq<Cluster>, added: seq<Cluster>)
    requires DistinctNames(kept) && DistinctNames(added)
    requires forall c, d :: c in kept && d in added ==> c.name != d.name
    ensures DistinctNames(kept + added)
  {
  }

  /** The clusters of `before`, with the statuses they had, and those of `cs`, as they are now. */
  lemma {:induction false} OutcomeIsChecked(clusters: seq<Cluster>, before: seq<Info>, wanted: map<string, string>,
                                            cs: seq<Cluster>)
    requires |before| == |clusters|
    requires forall i :: 0 <= i < |clusters| ==>
      before[i].name == clusters[i].name && before[i].kubeconfig == clusters[i].kubeconfig
    requires Sorted(cs) && DistinctNames(cs) && NamesAre(cs, wanted)
    requires forall i :: 0 <= i < |clusters| && Keeps(wanted, clusters[i].name, clusters[i].kubeconfig) ==>
      clusters[i] in cs &&
      clusters[i].status == StatusAfter(wanted, clusters[i].name, clusters[i].kubeconfig, before[i].status)
    requires forall c :: c in cs && c !in clusters ==>
      c.name in wanted && c.kubeconfig == wanted[c.name] && c.status == Unset
    requires forall c :: c in cs && c in clusters ==> Keeps(wanted, c.name, c.kubeconfig)
    ensures Checked(before, wanted, InfosOf(cs))
  {
    var after := InfosOf(cs);
    SortedDistinct(cs);
    assert InfoNames(after) == NamesOf(cs);
    forall n
      ensures n in InfoNames(after) <==> n in wanted
    {
      if n in wanted {
        var c :| c in cs && c.name == n;
        var i :| 0 <= i < |cs| && cs[i] == c;
        assert InfoNames(after)[i] == n;
      }
    }
    forall x | x in after
      ensures Justified(before, wanted, x)
    {
      var k :| 0 <= k < |after| && after[k] == x;
      OneIsJustified(clusters, before, wanted, cs, k);
    }
  }

  lemma {:induction false} OneIsJustified(clusters: seq<Cluster>, before: seq<Info>, wanted: map<string, string>,
                                          cs: seq<Cluster>, k: nat)
    requires k < |cs| && |before| == |clusters|
    requires forall i :: 0 <= i < |clusters| ==>
      before[i].name == clusters[i].name && before[i].kubeconfig == clusters[i].kubeconfig
    requires DistinctNames(cs) && cs[k].name in wanted
    requires forall i :: 0 <= i < |clusters| && Keeps(wanted, clusters[i].name, clusters[i].kubeconfig) ==>
      clusters[i] in cs &&
      clusters[i].status == StatusAfter(wanted, clusters[i].name, clusters[i].kubeconfig, before[i].status)
    requires cs[k] !in clusters ==> cs[k].kubeconfig == wanted[cs[k].name] && cs[k].status == Unset
    requires cs[k] in clusters ==> Keeps(wanted, cs[k].name, cs[k].kubeconfig)
    ensures Justified(before, wanted, InfosOf(cs)[k])
  {
  }

  /** Each wanted cluster is kept or to be added. */
  ghost predicate Covers(wanted: map<string, string>, kept: seq<Cluster>, add: map<string, string>) {
    && (forall c :: c in kept ==> c.name in wanted && c.name !in add)
    && (forall n :: n in add ==> n in wanted && add[n] == wanted[n])
    && (forall n :: n in wanted && n !in add ==> exists c :: c in kept && c.name == n)
  }

  /** The second half of a check: delete, create, sort. When a creation fails the deleted clusters have
      been stopped already. */
  method Swap(ghost wanted: map<string, string>, newClusters: seq<Cluster>, delList: map<string, Cluster>,
              addList: map<string, string>, broken: set<string>)
    returns (ok: bool, sorted: seq<Cluster>)
    requires DistinctNames(newClusters) && Covers(wanted, newClusters, addList)
    requires forall n :: n in delList ==> delList[n].name == n && !delList[n].stopped && delList[n] !in newClusters
    modifies delList.Values
    ensures ok <==> forall n :: n in addList ==> n !in broken
    ensures forall c :: c in newClusters ==> c.stopped == old(c.stopped) && c.status == old(c.status)
    ensures forall n :: n in delList ==> delList[n].stopped && delList[n].status == old(delList[n].status)
    ensures ok ==> Sorted(sorted) && DistinctNames(sorted) && NamesAre(sorted, wanted)
    ensures ok ==> forall c :: c in newClusters ==> c in sorted
    ensures ok ==> forall n :: n in delList ==> delList[n] !in sorted
    ensures ok ==> forall c :: c in sorted && c !in newClusters ==>
      fresh(c) && c.name in wanted && c.kubeconfig == wanted[c.name] && c.status == Unset && !c.stopped
  {
    StopAll(delList);
    var added;
    ok, added := AddAll(addList, broken);
    if ok {
      sorted := SortTogether(newClusters, added);
      NamesTogether(wanted, newClusters, addList, added, sorted);
    } else {
      sorted := [];
    }
  }

  lemma {:induction false} NamesTogether(wanted: map<string, string>, kept: seq<Cluster>, add: map<string, string>,
                                         added: seq<Cluster>, all: seq<Cluster>)
    requires Covers(wanted, kept, add)
    requires forall c :: c in added ==> c.name in add
    requires forall n :: n in add ==> exists c :: c in added && c.name == n
    requires forall c :: c in all ==> c in kept || c in added
    requires forall c :: c in kept ==> c in all
    requires forall c :: c in added ==> c in all
    ensures NamesAre(all, wanted)
  {
  }

  lemma {:induction false} SiftedCovers(clusters: seq<Cluster>, wanted: map<string, string>, kept: seq<Cluster>,
                                        del: map<string, Cluster>, add: map<string, string>)
    requires Sifted(clusters, wanted, wanted.Keys, kept, del, add)
    ensures Covers(wanted, kept, add)
  {
  }

  method SortTogether(kept: seq<Cluster>, added: seq<Cluster>) returns (sorted: seq<Cluster>)
    requires DistinctNames(kept) && DistinctNames(added)
    requires forall c, d :: c in kept && d in added ==> c.name != d.name
    ensures Sorted(sorted) && DistinctNames(sorted)
    ensures forall c :: c in kept ==> c in sorted
    ensures forall c :: c in added ==> c in sorted
    ensures forall c :: c in sorted ==> c in kept || c in added
  {
    var newClusters := kept + added;
    DistinctTogether(kept, added);
    sorted := Sort(newClusters);
    PermutedDistinct(newClusters, sorted);
    SameClusters(newClusters, sorted);
  }

  /** Every wanted name has a cluster that is kept, or one can be created for it. */
  ghost predicate Creatable(clusters: seq<Cluster>, wanted: map<string, string>, broken: set<string>) {
    forall n :: n in wanted && n in broken ==>
      exists c :: c in clusters && c.name == n && Keeps(wanted, n, c.kubeconfig)
  }

  /** Of the clusters that a check uses none is stopped that would have to be stopped again. */
  ghost predicate MayCheck(clusters: seq<Cluster>, wanted: map<string, string>)
    reads clusters
  {
    forall c :: c in clusters && c in LastOnes(clusters) && c.stopped ==> Keeps(wanted, c.name, c.kubeconfig)
  }

  ghost predicate KeepsAll(cs: seq<Cluster>, wanted: map<string, string>) {
    forall c :: c in cs ==> Keeps(wanted, c.name, c.kubeconfig)
  }

  ghost predicate AllRunning(cs: seq<Cluster>)
    reads cs
  {
    forall c :: c in cs ==> !c.stopped
  }

  /** Of the listed clusters only the last of each name take part. Either there is nothing to do or a
      creation fails, and the list stays as it is; or it is replaced by the kept and the new ones, and
      clusters that share the name of a later one leave the list without being stopped. */
  method Renew(clusters: seq<Cluster>, wanted: map<string, string>, broken: set<string>)
    returns (ok: bool, r: seq<Cluster>)
    requires MayCheck(clusters, wanted)
    modifies clusters
    ensures ok <==> Creatable(LastOnes(clusters), wanted, broken)
    ensures forall c :: c in clusters && c in LastOnes(clusters) ==>
      if Keeps(wanted, c.name, c.kubeconfig)
      then c.stopped == old(c.stopped) && c.status == StatusAfter(wanted, c.name, c.kubeconfig, old(c.status))
      else c.stopped && c.status == old(c.status)
    ensures forall c :: c in clusters && c !in LastOnes(clusters) ==>
      c.stopped == old(c.stopped) && c.status == old(c.status)
    ensures r == clusters || (ok && Sorted(r) && DistinctNames(r))
    ensures ok ==> NamesAre(LastOnes(r), wanted)
    ensures ok ==> forall c :: c in LastOnes(clusters) ==>
      if Keeps(wanted, c.name, c.kubeconfig) then c in LastOnes(r) else c !in r
    ensures ok ==> forall c :: c in LastOnes(r) && c !in LastOnes(clusters) ==>
      fresh(c) && c.name in wanted && c.kubeconfig == wanted[c.name] && c.status == Unset && !c.stopped
    ensures r != clusters ==> forall c :: c in r ==> c in LastOnes(clusters) || (fresh(c) && !c.stopped)
  {
    ghost var live := LastOnes(clusters);
    LastOnesAre(clusters);
    var currentList := Current(clusters);
    var newClusters, delList, addList := Sift(currentList, clusters, live, wanted);
    CreatableAdded(live, wanted, newClusters, delList.m, addList, broken);
    ghost var replaced;
    ok, replaced, r := Replace(clusters, live, wanted, newClusters, delList.m, addList, broken);
    if replaced {
      LastOnesOfDistinct(r);
    }
  }

  /** What follows the loop; `live` are the clusters that the check uses. */
  method Replace(clusters: seq<Cluster>, ghost live: seq<Cluster>, wanted: map<string, string>,
                 newClusters: seq<Cluster>, delList: map<string, Cluster>, addList: map<string, string>,
                 broken: set<string>)
    returns (ok: bool, ghost replaced: bool, r: seq<Cluster>)
    requires Sifted(live, wanted, wanted.Keys, newClusters, delList, addList)
    requires forall n :: n in delList ==> !delList[n].stopped
    modifies delList.Values
    ensures ok <==> forall n :: n in addList ==> n !in broken
    ensures forall c :: c in live ==>
      c.status == old(c.status) &&
      if Keeps(wanted, c.name, c.kubeconfig) then c.stopped == old(c.stopped) else c.stopped
    ensures if replaced then ok && Sorted(r) && DistinctNames(r) && NamesAre(r, wanted) else r == clusters
    ensures ok && !replaced ==> NamesAre(live, wanted) && KeepsAll(live, wanted)
    ensures replaced ==> forall c :: c in live ==> (c in r <==> Keeps(wanted, c.name, c.kubeconfig))
    ensures replaced ==> forall c :: c in r && c !in live ==>
      fresh(c) && c.name in wanted && c.kubeconfig == wanted[c.name] && c.status == Unset && !c.stopped
  {
    if |delList| == 0 && |addList| == 0 {
      NothingToDo(live, wanted, newClusters, delList, addList);
      return true, false, clusters;
    }
    SiftedCovers(live, wanted, newClusters, delList, addList);
    ok, r := Swap(wanted, newClusters, delList, addList, broken);
    replaced := ok;
    if !ok {
      r := clusters;
    }
  }

  lemma {:induction false} CreatableAdded(clusters: seq<Cluster>, wanted: map<string, string>, kept: seq<Cluster>,
                                          del: map<string, Cluster>, add: map<string, string>, broken: set<string>)
    requires Sifted(clusters, wanted, wanted.Keys, kept, del, add)
    ensures Creatable(clusters, wanted, broken) <==> forall n :: n in add ==> n !in broken
  {
  }

  lemma {:induction false} SameClusters(a: seq<Cluster>, b: seq<Cluster>)
    requires multiset(a) == multiset(b)
    ensures forall c :: c in a ==> c in b
    ensures forall c :: c in b ==> c in a
  {
    assert forall c :: c in a ==> c in multiset(a);
    assert forall c :: c in b ==> c in multiset(b);
  }

  lemma {:induction false} NothingToDo(clusters: seq<Cluster>, wanted: map<string, string>, kept: seq<Cluster>,
                                       del: map<string, Cluster>, add: map<string, string>)
    requires Sifted(clusters, wanted, wanted.Keys, kept, del, add) && |del| == 0 && |add| == 0
    ensures NamesAre(clusters, wanted)
    ensures forall c :: c in clusters ==> c in kept
  {
  }

  /** The same for a sorted list, in terms of what is known of the clusters. */
  method CheckList(clusters: seq<Cluster>, wanted: map<string, string>, broken: set<string>)
    returns (ok: bool, r: seq<Cluster>)
    requires Sorted(clusters) && MayCheck(clusters, wanted)
    modifies clusters
    ensures ok <==> Creatable(LastOnes(clusters), wanted, broken)
    ensures Sorted(r) && (r != clusters ==> ok && DistinctNames(r))
    ensures ok ==> Checked(old(InfosOf(LastOnes(clusters))), wanted, InfosOf(LastOnes(r)))
    ensures forall c :: c in LastOnes(clusters) ==>
      if Keeps(wanted, c.name, c.kubeconfig) then c in r && c.stopped == old(c.stopped)
      else c.stopped && (c in r <==> !ok)
    ensures forall c :: c in clusters && c !in LastOnes(clusters) ==>
      c.stopped == old(c.stopped) && c.status == old(c.status)
    ensures forall c :: c in r ==>
      (fresh(c) && !c.stopped) || (c in clusters && (c in LastOnes(clusters) || r == clusters))
    ensures MayCheck(r, wanted) <==> ok || KeepsAll(LastOnes(clusters), wanted)
    ensures old(AllRunning(clusters)) ==> (AllRunning(r) <==> ok || KeepsAll(LastOnes(clusters), wanted))
  {
    ghost var live := LastOnes(clusters);
    ghost var before := InfosOf(live);
    LastOnesAre(clusters);
    ok, r := Renew(clusters, wanted, broken);
    if ok {
      LastOnesAre(r);
      OutcomeIsChecked(live, before, wanted, LastOnes(r));
    }
  }
}
