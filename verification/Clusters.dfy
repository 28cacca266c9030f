/** Managed clusters and what a periodic check makes of them: pkg/k8s/manager/manager.go and cluster.go. */
module Clusters {
  import opened Wrappers
  import opened Strings
  import opened Names
  import opened Texts

  /** Unset is the empty string of a cluster that was never checked. */
  datatype ClusterStatus = Unset | Ready | Offline | Maintaining

  class Cluster {
    const name: string
    const kubeconfig: string
    var status: ClusterStatus
    var stopped: bool

    constructor (name: string, kubeconfig: string)
      ensures this.name == name && this.kubeconfig == kubeconfig && status == Unset && !stopped
    {
      this.name, this.kubeconfig, status, stopped := name, kubeconfig, Unset, false;
    }

    /** Closing the stop channel a second time would panic. */
    method Stop()
      requires !stopped
      modifies this`stopped
      ensures stopped
    {
      stopped := true;
    }
  }

  datatype ConfigMap = ConfigMap(name: string, status: Option<string>, kubeconfig: Option<string>)

  function ConvertToKubeconfig(cm: ConfigMap): string {
    if cm.status == Some("Maintaining") then ""
    else if cm.kubeconfig.None? then ""
    else cm.kubeconfig.value
  }

  /** The kubeconfig expected of each cluster; empty for one under maintenance. */
  function Expected(cms: seq<ConfigMap>): map<string, string> {
    if cms == [] then map[]
    else Expected(cms[..|cms| - 1])[cms[|cms| - 1].name := ConvertToKubeconfig(cms[|cms| - 1])]
  }

  predicate EqualFold(a: string, b: string) { Lower(a) == Lower(b) }

  /** The connection to the cluster is kept. */
  predicate Keeps(wanted: map<string, string>, name: string, kubeconfig: string) {
    name in wanted && (EqualFold(wanted[name], kubeconfig) || wanted[name] == "")
  }

  /** A kept cluster is marked when its kubeconfig is withheld. */
  function StatusAfter(wanted: map<string, string>, name: string, kubeconfig: string,
                       status: ClusterStatus): ClusterStatus
    requires name in wanted
  {
    if !EqualFold(wanted[name], kubeconfig) && wanted[name] == "" then Maintaining else status
  }

  /** The configuration that counts for a name: the last one. */
  predicate IsLastOf(cms: seq<ConfigMap>, j: int, name: string) {
    0 <= j < |cms| && cms[j].name == name && forall k :: j < k < |cms| ==> cms[k].name != name
  }

  /** No kubeconfig is to be used: during maintenance, or because there is none. */
  predicate Withholds(cm: ConfigMap) {
    cm.status == Some("Maintaining") || cm.kubeconfig.None? || cm.kubeconfig.value == ""
  }

  lemma {:induction false} ExpectedOf(cms: seq<ConfigMap>, name: string)
    ensures name in Expected(cms) <==> exists j :: IsLastOf(cms, j, name)
    ensures forall j :: IsLastOf(cms, j, name) ==>
      Expected(cms)[name] == if Withholds(cms[j]) then "" else cms[j].kubeconfig.value
  {
    if cms != [] {
      var n := |cms| - 1;
      ExpectedOf(cms[..n], name);
      if cms[n].name == name {
        assert IsLastOf(cms, n, name);
      } else {
        assert forall j :: IsLastOf(cms, j, name) <==> IsLastOf(cms[..n], j, name);
      }
    }
  }

  /** A cluster is kept if and only if its configuration withholds the kubeconfig or has the same one up
      to the case of letters. In the first case it is marked, unless it never had a kubeconfig. */
  lemma {:induction false} KeptIff(cms: seq<ConfigMap>, name: string, kubeconfig: string, status: ClusterStatus)
    ensures Keeps(Expected(cms), name, kubeconfig) <==>
      exists j :: IsLastOf(cms, j, name) && (Withholds(cms[j]) || SameText(cms[j].kubeconfig.value, kubeconfig))
    ensures forall j :: IsLastOf(cms, j, name) && Keeps(Expected(cms), name, kubeconfig) ==>
      StatusAfter(Expected(cms), name, kubeconfig, status) ==
        if Withholds(cms[j]) && kubeconfig != "" then Maintaining else status
  {
    ExpectedOf(cms, name);
    if j :| IsLastOf(cms, j, name) {
      LowerMeans(Expected(cms)[name], kubeconfig);
    }
  }

  /** Equal but for the case of letters. */
  predicate SameText(a: string, b: string) { |a| == |b| && forall i :: 0 <= i < |a| ==> SameLetter(a[i], b[i]) }

  // ----- sorting -----

  function NamesOf(cs: seq<Cluster>): (r: seq<string>)
    ensures |r| == |cs| && forall i :: 0 <= i < |cs| ==> r[i] == cs[i].name
  {
    seq(|cs|, i requires 0 <= i < |cs| => cs[i].name)
  }

  /** Descending, repetitions allowed. */
  ghost predicate Sorted(cs: seq<Cluster>) { forall i, j :: 0 <= i < j < |cs| ==> !Less(cs[i].name, cs[j].name) }

  ghost predicate DistinctNames(cs: seq<Cluster>) { forall i, j :: 0 <= i < j < |cs| ==> cs[i].name != cs[j].name }

  method Insert(cs: seq<Cluster>, c: Cluster) returns (r: seq<Cluster>)
    requires Sorted(cs)
    ensures Sorted(r) && multiset(r) == multiset(cs) + multiset{c}
  {
    var i := 0;
    while i < |cs| && !Less(cs[i].name, c.name)
      invariant i <= |cs|
      invariant forall j :: 0 <= j < i ==> !Less(cs[j].name, c.name)
    {
      i := i + 1;
    }
    r := cs[..i] + [c] + cs[i..];
    assert cs == cs[..i] + cs[i..];
    forall j | i <= j < |cs|
      ensures !Less(c.name, cs[j].name)
    {
      SmallerBehind(cs, i, j, c.name);
    }
  }

  lemma {:induction false} SmallerBehind(cs: seq<Cluster>, i: nat, j: nat, name: string)
    requires Sorted(cs) && i <= j < |cs| && Less(cs[i].name, name)
    ensures !Less(name, cs[j].name)
  {
    if Less(name, cs[j].name) {
      LessIsTransitive(cs[i].name, name, cs[j].name);
      LessIsIrreflexive(cs[i].name);
    }
  }

  /** sort.Slice by descending name. */
  method Sort(cs: seq<Cluster>) returns (r: seq<Cluster>)
    ensures Sorted(r) && multiset(r) == multiset(cs)
  {
    r := [];
    for i := 0 to |cs|
      invariant Sorted(r) && multiset(r) == multiset(cs[..i])
    {
      r := Insert(r, cs[i]);
      assert cs[..i + 1] == cs[..i] + [cs[i]];
    }
    assert cs[..|cs|] == cs;
  }

  /** Sorted by different names means strictly decreasing. */
  lemma {:induction false} SortedDistinct(cs: seq<Cluster>)
    requires Sorted(cs)
    ensures DistinctNames(cs) <==> Decreasing(NamesOf(cs))
  {
    forall i, j | 0 <= i < j < |cs|
      ensures cs[i].name != cs[j].name <==> Less(NamesOf(cs)[j], NamesOf(cs)[i])
    {
      LessIsTotal(cs[i].name, cs[j].name);
      LessIsIrreflexive(cs[i].name);
    }
  }

  lemma {:induction false} PermutedDistinct(a: seq<Cluster>, b: seq<Cluster>)
    requires multiset(a) == multiset(b) && DistinctNames(a)
    ensures DistinctNames(b)
  {
    forall i, j | 0 <= i < j < |b|
      ensures b[i].name != b[j].name
    {
      if b[i].name == b[j].name {
        assert b[i] in multiset(a) && b[j] in multiset(a);
        OneOfAName(a, b[i], b[j]);
        assert b == b[..i] + [b[i]] + b[i + 1..j] + [b[j]] + b[j + 1..];
        assert multiset(b)[b[i]] >= 2;
        AtMostOnce(a, b[i]);
      }
    }
  }

  lemma {:induction false} OneOfAName(a: seq<Cluster>, x: Cluster, y: Cluster)
    requires DistinctNames(a) && x in a && y in a && x.name == y.name
    ensures x == y
  {
  }

  lemma {:induction false} AtMostOnce(a: seq<Cluster>, x: Cluster)
    requires DistinctNames(a)
    ensures multiset(a)[x] <= 1
  {
    if a != [] {
      var n := |a| - 1;
      AtMostOnce(a[..n], x);
      assert a == a[..n] + [a[n]];
      forall i | 0 <= i < n
        ensures a[i] != a[n]
      {
        assert a[i].name != a[n].name;
      }
    }
  }

  // ----- names that occur more than once -----

  predicate IsLastAt(cs: seq<Cluster>, j: int) {
    0 <= j < |cs| && forall k :: j < k < |cs| ==> cs[k].name != cs[j].name
  }

  /** Of several clusters with one name, the last: the one that a map by name holds in the end. */
  function LastOnes(cs: seq<Cluster>): (r: seq<Cluster>)
    ensures forall c :: c in r ==> c in cs
  {
    LastAmong(cs, |cs|)
  }

  function LastAmong(cs: seq<Cluster>, n: nat): (r: seq<Cluster>)
    requires n <= |cs|
    ensures forall c :: c in r ==> c in cs
  {
    if n == 0 then [] else LastAmong(cs, n - 1) + if IsLastAt(cs, n - 1) then [cs[n - 1]] else []
  }

  lemma {:induction false} LastAmongIn(cs: seq<Cluster>, n: nat, j: nat)
    requires j < n <= |cs| && IsLastAt(cs, j)
    ensures cs[j] in LastAmong(cs, n)
  {
    if j < n - 1 {
      LastAmongIn(cs, n - 1, j);
    }
  }

  lemma {:induction false} LastAmongAt(cs: seq<Cluster>, n: nat, c: Cluster) returns (j: nat)
    requires n <= |cs| && c in LastAmong(cs, n)
    ensures j < n && IsLastAt(cs, j) && cs[j] == c
  {
    if c in LastAmong(cs, n - 1) {
      j := LastAmongAt(cs, n - 1, c);
    } else {
      j := n - 1;
    }
  }

  lemma {:induction false} LastAmongAre(cs: seq<Cluster>, n: nat)
    requires n <= |cs|
    ensures DistinctNames(LastAmong(cs, n))
    ensures Sorted(cs) ==> Sorted(LastAmong(cs, n))
  {
    if n > 0 {
      LastAmongAre(cs, n - 1);
      var before := LastAmong(cs, n - 1);
      forall i | 0 <= i < |before|
        ensures IsLastAt(cs, n - 1) ==> before[i].name != cs[n - 1].name
        ensures Sorted(cs) ==> !Less(before[i].name, cs[n - 1].name)
      {
        var j := LastAmongAt(cs, n - 1, before[i]);
      }
    }
  }

  lemma {:induction false} LastOnesAre(cs: seq<Cluster>)
    ensures DistinctNames(LastOnes(cs))
    ensures Sorted(cs) ==> Sorted(LastOnes(cs))
    ensures forall c :: c in LastOnes(cs) <==> exists j :: IsLastAt(cs, j) && cs[j] == c
  {
    LastAmongAre(cs, |cs|);
    forall c
      ensures c in LastOnes(cs) <==> exists j :: IsLastAt(cs, j) && cs[j] == c
    {
      if c in LastOnes(cs) {
        var j := LastAmongAt(cs, |cs|, c);
      }
      if j :| IsLastAt(cs, j) && cs[j] == c {
        LastAmongIn(cs, |cs|, j);
      }
    }
  }

  lemma {:induction false} LastOnesOfDistinct(cs: seq<Cluster>)
    requires DistinctNames(cs)
    ensures LastOnes(cs) == cs
  {
    DistinctAreLast(cs, |cs|);
    assert cs[..|cs|] == cs;
  }

  lemma {:induction false} DistinctAreLast(cs: seq<Cluster>, n: nat)
    requires DistinctNames(cs) && n <= |cs|
    ensures LastAmong(cs, n) == cs[..n]
  {
    if n > 0 {
      DistinctAreLast(cs, n - 1);
    }
  }

  // ----- what a check does -----

  /** What is known of a cluster. */
  datatype Info = Info(name: string, kubeconfig: string, status: ClusterStatus)

  ghost function InfosOf(cs: seq<Cluster>): (r: seq<Info>)
    reads cs
    ensures |r| == |cs|
    ensures forall i :: 0 <= i < |cs| ==> r[i] == Info(cs[i].name, cs[i].kubeconfig, cs[i].status)
  {
    seq(|cs|, i requires 0 <= i < |cs| reads cs => Info(cs[i].name, cs[i].kubeconfig, cs[i].status))
  }

  function InfoNames(s: seq<Info>): (r: seq<string>)
    ensures |r| == |s| && forall i :: 0 <= i < |s| ==> r[i] == s[i].name
  {
    seq(|s|, i requires 0 <= i < |s| => s[i].name)
  }

  ghost predicate Holds(before: seq<Info>, wanted: map<string, string>, i: Info) {
    i in before && Keeps(wanted, i.name, i.kubeconfig)
  }

  /** The cluster of that name after a check: a kept one, or else a new one. */
  ghost predicate Justified(before: seq<Info>, wanted: map<string, string>, x: Info) {
    x.name in wanted &&
    ((exists b :: Holds(before, wanted, b) && b.name == x.name
        && x == b.(status := StatusAfter(wanted, b.name, b.kubeconfig, b.status)))
     || ((forall b :: Holds(before, wanted, b) ==> b.name != x.name) && x == Info(x.name, wanted[x.name], Unset)))
  }

  ghost predicate Checked(before: seq<Info>, wanted: map<string, string>, after: seq<Info>) {
    && Decreasing(InfoNames(after))
    && (forall n :: n in InfoNames(after) <==> n in wanted)
    && (forall x :: x in after ==> Justified(before, wanted, x))
  }

  /** The outcome does not depend on the order in which the maps are iterated. */
  lemma {:induction false} CheckIsDeterministic(before: seq<Info>, wanted: map<string, string>, a: seq<Info>,
                                                b: seq<Info>)
    requires Decreasing(InfoNames(before))
    requires Checked(before, wanted, a) && Checked(before, wanted, b)
    ensures a == b
  {
    DecreasingIsUnique(InfoNames(a), InfoNames(b));
    assert |a| == |InfoNames(a)| == |b|;
    forall i | 0 <= i < |a|
      ensures a[i] == b[i]
    {
      assert InfoNames(a)[i] == InfoNames(b)[i];
      assert a[i] in a && b[i] in b;
      SameInfo(before, wanted, a[i], b[i]);
    }
  }

  lemma {:induction false} SameInfo(before: seq<Info>, wanted: map<string, string>, x: Info, y: Info)
    requires Decreasing(InfoNames(before))
    requires Justified(before, wanted, x) && Justified(before, wanted, y) && x.name == y.name
    ensures x == y
  {
    if (exists b :: Holds(before, wanted, b) && b.name == x.name) {
      var b :| Holds(before, wanted, b) && b.name == x.name &&
        x == b.(status := StatusAfter(wanted, b.name, b.kubeconfig, b.status));
      var c :| Holds(before, wanted, c) && c.name == x.name &&
        y == c.(status := StatusAfter(wanted, c.name, c.kubeconfig, c.status));
      var i :| 0 <= i < |before| && before[i] == b;
      var j :| 0 <= j < |before| && before[j] == c;
      DecreasingDiffer(InfoNames(before), i, j);
    }
  }

  lemma {:induction false} DecreasingDiffer(s: seq<string>, i: nat, j: nat)
    requires Decreasing(s) && i < |s| && j < |s| && s[i] == s[j]
    ensures i == j
  {
    LessIsIrreflexive(s[i]);
  }

  /** A second check with the same configuration changes nothing. */
  lemma {:induction false} CheckSettles(before: seq<Info>, wanted: map<string, string>, a: seq<Info>, b: seq<Info>)
    requires Checked(before, wanted, a) && Checked(a, wanted, b)
    ensures a == b
    ensures forall x :: x in a ==> Keeps(wanted, x.name, x.kubeconfig)
  {
    forall x | x in a
      ensures Keeps(wanted, x.name, x.kubeconfig) && Justified(a, wanted, x)
    {
      KeptNext(before, wanted, x);
      assert Holds(a, wanted, x);
    }
    CheckIsDeterministic(a, wanted, a, b);
  }

  lemma {:induction false} KeptNext(before: seq<Info>, wanted: map<string, string>, x: Info)
    requires Justified(before, wanted, x)
    ensures Keeps(wanted, x.name, x.kubeconfig)
    ensures x == x.(status := StatusAfter(wanted, x.name, x.kubeconfig, x.status))
  {
  }
}
