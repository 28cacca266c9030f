/** The names of configuration nodes: ResolveServiceName in pkg/utils/utils.go:76-80, and the naming it
    gives to the configuration client. */
module ConfigNames {
  import opened PathCache
  import opened ConfigCache
  import opened ConfigRemovals

  const SUFFIX := ".configurators"

  function TrimSlashes(s: string): string {
    if s != "" && s[|s| - 1] == '/' then TrimSlashes(s[..|s| - 1]) else s
  }

  function LastElement(s: string): string {
    if s == "" || s[|s| - 1] == '/' then "" else LastElement(s[..|s| - 1]) + [s[|s| - 1]]
  }

  /** Go's path.Base. */
  function Base(path: string): string {
    if path == "" then "."
    else
      var e := LastElement(TrimSlashes(path));
      if e == "" then "/" else e
  }

  /** strings.Replace(s, SUFFIX, "", 1). */
  function WithoutFirst(s: string): string {
    if SUFFIX <= s then s[|SUFFIX|..] else if s == "" then "" else [s[0]] + WithoutFirst(s[1..])
  }

  function ResolveServiceName(path: string): string { WithoutFirst(Base(path)) }

  function PathOf(root: string, service: string): string { root + "/" + service + SUFFIX }

  // ----- which services a path can be resolved to -----

  /** Any number of suffixes, and nothing else. */
  predicate Suffixes(s: string) { s == "" || (SUFFIX <= s && Suffixes(s[|SUFFIX|..])) }

  /** After the first suffix in it, if any, there are only further ones. */
  predicate EndsInSuffixes(s: string) {
    Suffixes(s) || (s != "" && !(SUFFIX <= s) && EndsInSuffixes(s[1..]))
  }

  /** The path of a service is resolved to its name exactly for these. */
  predicate IsService(service: string) { '/' !in service && EndsInSuffixes(service) }

  lemma {:induction false} NoOverlap(s: string)
    requires s != "" && SUFFIX <= s + SUFFIX
    ensures SUFFIX <= s
  {
    assert (s + SUFFIX)[|s|] == SUFFIX[0];
    assert forall i :: 0 < i < |SUFFIX| ==> SUFFIX[i] != SUFFIX[0];
  }

  lemma {:induction false} SuffixesCommute(s: string)
    ensures s + SUFFIX == SUFFIX + s <==> Suffixes(s)
  {
    if s != "" {
      if s + SUFFIX == SUFFIX + s {
        assert SUFFIX <= s + SUFFIX;
        NoOverlap(s);
      }
      if SUFFIX <= s {
        var rest := s[|SUFFIX|..];
        SuffixesCommute(rest);
        assert s == SUFFIX + rest;
        assert (s + SUFFIX)[|SUFFIX|..] == rest + SUFFIX && (SUFFIX + s)[|SUFFIX|..] == SUFFIX + rest;
      }
    }
  }

  lemma {:induction false} CutExactly(s: string)
    ensures WithoutFirst(s + SUFFIX) == s <==> EndsInSuffixes(s)
  {
    if s == "" {
    } else if SUFFIX <= s {
      assert SUFFIX <= s + SUFFIX;
      assert s + SUFFIX == SUFFIX + (s + SUFFIX)[|SUFFIX|..];
      SuffixesCommute(s);
    } else {
      if SUFFIX <= s + SUFFIX {
        NoOverlap(s);
      }
      assert (s + SUFFIX)[1..] == s[1..] + SUFFIX;
      CutExactly(s[1..]);
      assert s == [s[0]] + s[1..];
      assert !Suffixes(s);
    }
  }

  lemma {:induction false} NoSlashLeft(s: string)
    ensures '/' !in LastElement(s)
    ensures '/' !in s ==> '/' !in WithoutFirst(s)
    decreases |s|
  {
    if s != "" {
      NoSlashLeft(s[..|s| - 1]);
      NoSlashLeft(s[1..]);
    }
  }

  lemma {:induction false} LastElementIs(dir: string, name: string)
    requires '/' !in name
    ensures LastElement(dir + "/" + name) == name
  {
    var s := dir + "/" + name;
    if name != "" {
      LastElementIs(dir, name[..|name| - 1]);
      assert s[..|s| - 1] == dir + "/" + name[..|name| - 1];
    }
  }

  /** A service's path is resolved to the service if and only if its name has no slash and nothing but
      further suffixes after a first one. */
  lemma {:induction false} ResolvesExactly(root: string, service: string)
    ensures ResolveServiceName(PathOf(root, service)) == service <==> IsService(service)
  {
    var path := PathOf(root, service);
    assert path[|path| - 1] == 's' && TrimSlashes(path) == path;
    if '/' in service {
      NoSlashLeft(path);
      NoSlashLeft(Base(path));
    } else {
      LastElementIs(root, service + SUFFIX);
      assert path == root + "/" + (service + SUFFIX);
      CutExactly(service);
    }
  }

  /** Slashes at the end of a path change nothing; without any element the path has a name all the same. */
  lemma {:induction false} SlashAtTheEnd(path: string)
    ensures ResolveServiceName("") == "." && ResolveServiceName("/") == "/"
    ensures path != "" ==> ResolveServiceName(path + "/") == ResolveServiceName(path)
  {
    assert TrimSlashes("/") == "";
    assert WithoutFirst(".") == "." && WithoutFirst("/") == "/";
    var s := path + "/";
    assert s[|s| - 1] == '/' && s[..|s| - 1] == path;
  }

  // ----- the client's naming -----

  /** A path under the root that is resolved to the service whose path it is. */
  predicate IsConfigurator(root: string, path: string) { path == PathOf(root, ResolveServiceName(path)) }

  function NamingUnder(root: string): Naming {
    Naming(key => PathOf(root, key), ResolveServiceName, path => IsConfigurator(root, path))
  }

  lemma {:induction false} PathsDiffer(root: string, a: string, b: string)
    ensures PathOf(root, a) == PathOf(root, b) <==> a == b
  {
    assert PathOf(root, a)[|root| + 1..][..|a|] == a;
    assert PathOf(root, b)[|root| + 1..][..|b|] == b;
  }

  /** The nodes are the paths of services, and such nodes meet what the theorems on removals ask. */
  lemma {:induction false} NamesFit(root: string)
    ensures ServicesOwned(NamingUnder(root)) && KeyedByService(NamingUnder(root))
    ensures forall service :: NamingUnder(root).isNode(PathOf(root, service)) <==> IsService(service)
    ensures forall p, d :: Fits(NamingUnder(root), p, d) <==>
      IsConfigurator(root, p) && (d.Doc? ==> d.key != "" && d.key == ResolveServiceName(p))
  {
    forall service
      ensures NamingUnder(root).isNode(PathOf(root, service)) <==> IsService(service)
    {
      ResolvesExactly(root, service);
      PathsDiffer(root, service, ResolveServiceName(PathOf(root, service)));
    }
    forall p, key
      ensures IsConfigurator(root, p) ==> (PathOf(root, key) == p <==> key == ResolveServiceName(p))
    {
      PathsDiffer(root, key, ResolveServiceName(p));
    }
  }

  /** Both theorems on removals, for the code's own naming: when nothing is pending the cache is exactly
      the set of nodes, the entry of a node with a readable configuration is the present one, under the
      service's name, and every entry with a name is that of a node. */
  lemma {:induction false} ServicesAreMirrored(root: string, nodes: map<string, ZNode>, listing: seq<string>,
                                               steps: seq<Step>)
    requires IsListing(listing, nodes) && forall p :: p in nodes ==> Fits(NamingUnder(root), p, nodes[p])
    requires IsHistory(NamingUnder(root), Start(nodes, listing), steps)
    requires IsTame(NamingUnder(root), Start(nodes, listing), steps)
    requires RemovesWatched(NamingUnder(root), Start(nodes, listing), steps)
    requires Settled(After(NamingUnder(root), Start(nodes, listing), steps))
    ensures var y := After(NamingUnder(root), Start(nodes, listing), steps);
      && (forall p :: IsCached(y.cache.cached, p) <==> p in y.cache.nodes)
      && (forall p :: p in y.cache.nodes && y.cache.nodes[p].Doc? ==>
           ResolveServiceName(p) in y.entries && y.entries[ResolveServiceName(p)] == y.cache.nodes[p])
      && (forall service :: service in y.entries && service != "" ==> PathOf(root, service) in y.cache.nodes)
  {
    var c := NamingUnder(root);
    NamesFit(root);
    CoherenceWithRemovals(c, nodes, listing, steps);
    EntriesHaveNodes(c, nodes, listing, steps);
    StartIsSound(c, nodes, listing);
    SoundAfter(c, Start(nodes, listing), steps);
    var y := After(c, Start(nodes, listing), steps);
    forall p | p in y.cache.nodes && y.cache.nodes[p].Doc?
      ensures ResolveServiceName(p) in y.entries && y.entries[ResolveServiceName(p)] == y.cache.nodes[p]
    {
      assert Fits(c, p, y.cache.nodes[p]) && Coherent(y, p);
    }
    forall service | service in y.entries && service != ""
      ensures PathOf(root, service) in y.cache.nodes
    {
      assert c.owner(service) == PathOf(root, service);
    }
  }
}
