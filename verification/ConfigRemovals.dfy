/** The configuration client when nodes are also removed and created again. */
module ConfigRemovals {
  import opened PathCache
  import opened ConfigCache

  /** What is written at a node's path has that path's keys, and a key at all. */
  predicate Fits(c: Naming, p: string, d: ZNode) {
    c.isNode(p) && (d.Doc? ==> d.key != "" && c.owner(d.key) == p)
  }

  /** The removal of p is still to be noticed, by the cache or by the client. */
  predicate Vanishing(y: System, p: string) {
    NodeDeleted(p) in y.cache.nodeEvents || Deleted(p) in y.cache.notes ||
    (y.consumer.Some? && y.consumer.value.note == Deleted(p))
  }

  /** A cached node is removed only while its data watch is armed, and a node is created again only
      after its removal has been noticed. */
  predicate Tame(c: Naming, y: System, t: Step) {
    t.Outside? ==>
      match t.a
      case Create(p, d) => Fits(c, p, d) && !Vanishing(y, p)
      case SetData(p, d) => Fits(c, p, d)
      case Remove(p) => IsCached(y.cache.cached, p) ==> Watches(y.cache.dataWatches, p) > 0
      case _ => true
  }

  ghost predicate IsTame(c: Naming, y: System, steps: seq<Step>)
    requires IsHistory(c, y, steps)
    decreases |steps|
  {
    steps == [] || (Tame(c, y, steps[0]) && IsTame(c, Do(c, y, steps[0]), steps[1..]))
  }

  /** A deleted node's entry is looked for under a key of that node. */
  ghost predicate ServicesOwned(c: Naming) { forall p :: c.isNode(p) ==> c.owner(c.service(p)) == p }

  ghost predicate CacheSound(s: State) {
    && s.service && s.childWatches + s.childEvents == 1
    && (forall p :: NodeDeleted(p) in s.nodeEvents ==> p !in s.nodes)
    && (forall n :: n in s.notes ==> !n.ChildrenReplaced?)
    && (forall p :: Deleted(p) in s.notes ==> p !in s.nodes)
    && (forall p :: IsCached(s.cached, p) && p in s.nodes ==>
         Watches(s.dataWatches, p) > 0 || DataChanged(p) in s.nodeEvents)
    && (forall p :: IsCached(s.cached, p) && p !in s.nodes ==> NodeDeleted(p) in s.nodeEvents)
    && (s.childWatches == 1 ==> forall p :: p in s.nodes ==> IsCached(s.cached, p) || p in s.addTasks)
  }

  ghost predicate ClientSound(c: Naming, y: System) {
    && (forall p :: p in y.cache.nodes ==> Fits(c, p, y.cache.nodes[p]))
    && (forall p :: Vanishing(y, p) ==> c.isNode(p))
    && (y.consumer.Some? ==>
        var f := y.consumer.value;
        && !f.note.ChildrenReplaced?
        && (f.note.Deleted? ==> f.note.path !in y.cache.nodes)
        && (f.data == Doc("", "") || f.data == Malformed || Fits(c, f.note.path, f.data)))
    && (forall p :: IsCached(y.cache.cached, p) && p in y.cache.nodes ==> Fresh(y, p))
  }

  ghost predicate Sound(c: Naming, y: System) { CacheSound(y.cache) && ClientSound(c, y) }

  // ----- the cache -----

  lemma {:induction false} ChangeKeepsCache(c: Naming, y: System, a: Action)
    requires CacheSound(y.cache) && Can(y, Outside(a)) && Tame(c, y, Outside(a)) &&
      (a.Create? || a.SetData? || a.Remove?)
    ensures CacheSound(Next(y.cache, a))
  {
    match a
    case Create(p, d) =>
    case SetData(p, d) =>
    case Remove(p) =>
  }

  lemma {:induction false} HandleKeepsCache(s: State, e: ZkEvent, listing: seq<string>)
    requires CacheSound(s) && Fired(s, e) && IsListing(listing, s.nodes)
    ensures CacheSound(AfterEvent(s, e, listing))
  {
    match e
    case ChildrenChanged =>
    case DataChanged(p) =>
    case NodeDeleted(p) =>
  }

  lemma {:induction false} TaskKeepsCache(s: State, a: Action)
    requires CacheSound(s) && Enabled(s, a) && (a.AddChild? || a.Take?)
    ensures CacheSound(Next(s, a))
  {
  }

  lemma {:induction false} OutsideKeepsCache(c: Naming, y: System, a: Action)
    requires CacheSound(y.cache) && Can(y, Outside(a)) && Tame(c, y, Outside(a))
    ensures CacheSound(Next(y.cache, a))
  {
    match a
    case Handle(e, listing) => HandleKeepsCache(y.cache, e, listing);
    case AddChild(p) => TaskKeepsCache(y.cache, a);
    case Take(note) =>
    case _ => ChangeKeepsCache(c, y, a);
  }

  // ----- the client -----

  lemma {:induction false} OutsideKeepsClient(c: Naming, y: System, a: Action)
    requires Sound(c, y) && Can(y, Outside(a)) && Tame(c, y, Outside(a))
    ensures ClientSound(c, Do(c, y, Outside(a)))
  {
    var z := Do(c, y, Outside(a));
    forall p | IsCached(z.cache.cached, p) && p in z.cache.nodes
      ensures Fresh(z, p)
    {
      OutsideKeepsNodeFresh(c, y, a, p);
    }
    forall p | Vanishing(z, p)
      ensures c.isNode(p)
    {
      VanishingWas(c, y, a, p);
    }
    assert forall p :: p in z.cache.nodes ==> Fits(c, p, z.cache.nodes[p]);
  }

  lemma {:induction false} VanishingWas(c: Naming, y: System, a: Action, p: string)
    requires Can(y, Outside(a)) && Vanishing(Do(c, y, Outside(a)), p)
    ensures Vanishing(y, p) || (p in y.cache.nodes && a == Remove(p))
  {
    match a
    case Handle(e, listing) =>
    case AddChild(q) =>
    case _ =>
  }

  lemma {:induction false} ChangeKeepsNodeFresh(c: Naming, y: System, a: Action, p: string)
    requires Sound(c, y) && Can(y, Outside(a)) && Tame(c, y, Outside(a)) && (a.Create? || a.SetData? || a.Remove?)
    requires var t := Next(y.cache, a); IsCached(t.cached, p) && p in t.nodes
    ensures Fresh(Do(c, y, Outside(a)), p)
  {
    if p in y.cache.nodes {
      assert Fresh(y, p);
    }
  }

  lemma {:induction false} HandleKeepsNodeFresh(c: Naming, y: System, e: ZkEvent, listing: seq<string>, p: string)
    requires Sound(c, y) && Can(y, Outside(Handle(e, listing)))
    requires var t := Next(y.cache, Handle(e, listing)); IsCached(t.cached, p) && p in t.nodes
    ensures Fresh(Do(c, y, Outside(Handle(e, listing))), p)
  {
    assert Fresh(y, p);
    if e == DataChanged(p) {
      assert Changed(p) in AfterEvent(y.cache, e, listing).notes;
    }
  }

  lemma {:induction false} AddKeepsNodeFresh(c: Naming, y: System, q: string, p: string)
    requires Sound(c, y) && Can(y, Outside(AddChild(q)))
    requires var t := Next(y.cache, AddChild(q)); IsCached(t.cached, p) && p in t.nodes
    ensures Fresh(Do(c, y, Outside(AddChild(q))), p)
  {
    if IsCached(y.cache.cached, p) {
      assert Fresh(y, p);
    } else {
      assert Added(p) in Next(y.cache, AddChild(q)).notes;
    }
  }

  lemma {:induction false} OutsideKeepsNodeFresh(c: Naming, y: System, a: Action, p: string)
    requires Sound(c, y) && Can(y, Outside(a)) && Tame(c, y, Outside(a))
    requires var t := Next(y.cache, a); IsCached(t.cached, p) && p in t.nodes
    ensures Fresh(Do(c, y, Outside(a)), p)
  {
    match a
    case Handle(e, listing) => HandleKeepsNodeFresh(c, y, e, listing, p);
    case AddChild(q) => AddKeepsNodeFresh(c, y, q, p);
    case Take(note) =>
    case _ => ChangeKeepsNodeFresh(c, y, a, p);
  }

  lemma {:induction false} FetchKeepsSound(c: Naming, y: System, note: Event)
    requires Sound(c, y) && Can(y, Fetch(note))
    ensures Sound(c, Do(c, y, Fetch(note)))
  {
    TaskKeepsCache(y.cache, Take(note));
    var z := Do(c, y, Fetch(note));
    forall p | IsCached(z.cache.cached, p) && p in z.cache.nodes
      ensures Fresh(z, p)
    {
      assert Fresh(y, p);
    }
  }

  lemma {:induction false} CommitKeepsSound(c: Naming, y: System)
    requires Sound(c, y) && Can(y, Commit) && ServicesOwned(c)
    ensures Sound(c, Do(c, y, Commit))
  {
    var z := Do(c, y, Commit);
    forall p | IsCached(z.cache.cached, p) && p in z.cache.nodes
      ensures Fresh(z, p)
    {
      CommitKeepsNodeFresh(c, y, p);
    }
  }

  lemma {:induction false} CommitKeepsNodeFresh(c: Naming, y: System, p: string)
    requires Sound(c, y) && Can(y, Commit) && ServicesOwned(c)
    requires IsCached(y.cache.cached, p) && p in y.cache.nodes
    ensures Fresh(Do(c, y, Commit), p)
  {
    assert Fresh(y, p);
    var note := y.consumer.value.note;
    if note.Deleted? {
      assert Vanishing(y, note.path);
      assert c.owner(c.service(note.path)) == note.path;
    }
  }

  lemma {:induction false} DoKeepsSound(c: Naming, y: System, t: Step)
    requires Sound(c, y) && Can(y, t) && Tame(c, y, t) && ServicesOwned(c)
    ensures Sound(c, Do(c, y, t))
  {
    match t
    case Outside(a) =>
      OutsideKeepsCache(c, y, a);
      OutsideKeepsClient(c, y, a);
    case Fetch(note) => FetchKeepsSound(c, y, note);
    case Commit => CommitKeepsSound(c, y);
  }

  lemma {:induction false} SoundAfter(c: Naming, y: System, steps: seq<Step>)
    requires Sound(c, y) && IsHistory(c, y, steps) && IsTame(c, y, steps) && ServicesOwned(c)
    ensures Sound(c, After(c, y, steps))
    decreases |steps|
  {
    if steps != [] {
      DoKeepsSound(c, y, steps[0]);
      SoundAfter(c, Do(c, y, steps[0]), steps[1..]);
    }
  }

  lemma {:induction false} StartIsSound(c: Naming, nodes: map<string, ZNode>, listing: seq<string>)
    requires IsListing(listing, nodes) && forall p :: p in nodes ==> Fits(c, p, nodes[p])
    ensures Sound(c, Start(nodes, listing))
  {
  }

  /** Coherence with removals: once nothing is pending the cache is exactly the set of nodes, every node
      is watched, and its entry is the parse of its present data. */
  lemma {:induction false} CoherenceWithRemovals(c: Naming, nodes: map<string, ZNode>, listing: seq<string>,
                                                 steps: seq<Step>)
    requires IsListing(listing, nodes) && (forall p :: p in nodes ==> Fits(c, p, nodes[p])) && ServicesOwned(c)
    requires IsHistory(c, Start(nodes, listing), steps) && IsTame(c, Start(nodes, listing), steps)
    ensures var y := After(c, Start(nodes, listing), steps);
      Settled(y) ==>
        && (forall p :: IsCached(y.cache.cached, p) <==> p in y.cache.nodes)
        && (forall p :: p in y.cache.nodes ==> Watches(y.cache.dataWatches, p) > 0 && Coherent(y, p))
  {
    StartIsSound(c, nodes, listing);
    SoundAfter(c, Start(nodes, listing), steps);
    var y := After(c, Start(nodes, listing), steps);
    if Settled(y) {
      forall p | p in y.cache.nodes
        ensures IsCached(y.cache.cached, p) && Watches(y.cache.dataWatches, p) > 0 && Coherent(y, p)
      {
        assert Fresh(y, p);
      }
    }
  }

  // ----- entries of removed nodes -----

  /** A node's configuration is keyed by the service name of its path, as the deletion assumes. */
  ghost predicate KeyedByService(c: Naming) {
    forall k :: k != "" && c.isNode(c.owner(k)) ==> c.service(c.owner(k)) == k
  }

  /** The client has an entry for p, or has read its data and is about to record them. */
  ghost predicate IsKnown(c: Naming, y: System, p: string) {
    (exists k :: k in y.entries && k != "" && c.owner(k) == p) || Holds(y, p)
  }

  /** Of the nodes it knows each is removed only while its data watch is armed. */
  ghost predicate RemovesWatched(c: Naming, y: System, steps: seq<Step>)
    requires IsHistory(c, y, steps)
    decreases |steps|
  {
    steps == [] ||
    (RemovalIsSeen(c, y, steps[0]) && RemovesWatched(c, Do(c, y, steps[0]), steps[1..]))
  }

  ghost predicate RemovalIsSeen(c: Naming, y: System, t: Step) {
    t.Outside? && t.a.Remove? && IsKnown(c, y, t.a.path) ==> Watches(y.cache.dataWatches, t.a.path) > 0
  }

  predicate Alive(y: System, p: string) { p in y.cache.nodes || Vanishing(y, p) }

  ghost predicate Accounted(c: Naming, y: System) {
    && (forall k :: k in y.entries && k != "" ==> c.isNode(c.owner(k)) && Alive(y, c.owner(k)))
    && (y.consumer.Some? && y.consumer.value.data.Doc? && y.consumer.value.data.key != "" ==>
        (y.consumer.value.note.Added? || y.consumer.value.note.Changed?) &&
        Alive(y, y.consumer.value.note.path))
  }

  lemma {:induction false} OutsideKeepsAlive(c: Naming, y: System, a: Action, p: string)
    requires Can(y, Outside(a)) && RemovalIsSeen(c, y, Outside(a)) && IsKnown(c, y, p) && Alive(y, p)
    ensures Alive(Do(c, y, Outside(a)), p)
  {
    match a
    case Handle(e, listing) =>
      if e == NodeDeleted(p) {
        assert Deleted(p) in AfterEvent(y.cache, e, listing).notes;
      }
    case _ =>
  }

  lemma {:induction false} DoKeepsAccounted(c: Naming, y: System, t: Step)
    requires Sound(c, y) && Accounted(c, y) && Can(y, t) && RemovalIsSeen(c, y, t) && KeyedByService(c)
    ensures Accounted(c, Do(c, y, t))
  {
    match t
    case Outside(a) =>
      forall p | IsKnown(c, y, p) && Alive(y, p)
        ensures Alive(Do(c, y, t), p)
      {
        OutsideKeepsAlive(c, y, a, p);
      }
    case Fetch(note) =>
      forall p | Alive(y, p)
        ensures Alive(Do(c, y, t), p)
      {
        if note == Deleted(p) {
          assert Do(c, y, t).consumer.value.note == Deleted(p);
        }
      }
    case Commit =>
      forall k | k in Do(c, y, t).entries && k != ""
        ensures Alive(Do(c, y, t), c.owner(k))
      {
        assert c.service(c.owner(k)) == k;
      }
  }

  lemma {:induction false} AccountedAfter(c: Naming, y: System, steps: seq<Step>)
    requires Sound(c, y) && Accounted(c, y) && IsHistory(c, y, steps)
    requires IsTame(c, y, steps) && RemovesWatched(c, y, steps) && ServicesOwned(c) && KeyedByService(c)
    ensures Accounted(c, After(c, y, steps))
    decreases |steps|
  {
    if steps != [] {
      DoKeepsSound(c, y, steps[0]);
      DoKeepsAccounted(c, y, steps[0]);
      AccountedAfter(c, Do(c, y, steps[0]), steps[1..]);
    }
  }

  /** No entry outlives its node, apart from the one that missing nodes are read as. */
  lemma {:induction false} EntriesHaveNodes(c: Naming, nodes: map<string, ZNode>, listing: seq<string>,
                                            steps: seq<Step>)
    requires IsListing(listing, nodes) && (forall p :: p in nodes ==> Fits(c, p, nodes[p]))
    requires ServicesOwned(c) && KeyedByService(c) && IsHistory(c, Start(nodes, listing), steps)
    requires IsTame(c, Start(nodes, listing), steps) && RemovesWatched(c, Start(nodes, listing), steps)
    ensures var y := After(c, Start(nodes, listing), steps);
      Settled(y) ==> forall k :: k in y.entries && k != "" ==> c.owner(k) in y.cache.nodes
  {
    StartIsSound(c, nodes, listing);
    AccountedAfter(c, Start(nodes, listing), steps);
  }

  // ----- why removals must be watched -----

  /** A watched node is rewritten, and removed before the rewriting is handled: it stays cached, with its
      entry, when nothing is pending any more. */
  lemma {:induction false} RemovalGoesUnnoticed(c: Naming, p: string, d: ZNode) returns (steps: seq<Step>, z: System)
    requires d.Doc? && d.key != ""
    ensures Leads(c, Watched(c, p, d, 0), steps, z)
    ensures Settled(z) && z.cache.nodes == map[] && IsCached(z.cache.cached, p) && d.key in z.entries
  {
    var rewrite, remove := Outside(SetData(p, d)), Outside(Remove(p));
    var y0 := Watched(c, p, d, 0);
    var y1 := Do(c, y0, rewrite);
    assert y1.cache == State(true, map[p := d], 1, 0, map[], [DataChanged(p)], [], map[p := true], [], 0);
    var y2 := Do(c, y1, remove);
    assert y2.cache == State(true, map[], 0, 1, map[], [DataChanged(p)], [], map[p := true], [], 0);
    steps, z := TooLate(c, y2, p);
    steps := [remove] + steps;
    LeadsCons(c, y1, remove, steps[1..], z);
    steps := [rewrite] + steps;
    LeadsCons(c, y0, rewrite, steps[1..], z);
  }

  /** The rewriting is handled when the node is gone. */
  lemma {:induction false} TooLate(c: Naming, y: System, p: string) returns (steps: seq<Step>, z: System)
    requires y.cache == State(true, map[], 0, 1, map[], [DataChanged(p)], [], map[p := true], [], 0)
    requires y.consumer.None?
    ensures Leads(c, y, steps, z)
    ensures Settled(z) && z.cache.nodes == map[] && IsCached(z.cache.cached, p)
    ensures forall k :: k in y.entries ==> k in z.entries
  {
    var children, data := Outside(Handle(ChildrenChanged, [])), Outside(Handle(DataChanged(p), []));
    var y1 := Do(c, y, children);
    assert y1.cache == y.cache.(childWatches := 1, childEvents := 0, zkEventCounter := 1);
    var y2 := Do(c, y1, data);
    assert y2.cache == y1.cache.(nodeEvents := [], notes := [Changed(p)], zkEventCounter := 2);
    var y3 := Do(c, y2, Fetch(Changed(p)));
    z := Do(c, y3, Commit);
    LeadsCons(c, y3, Commit, [], z);
    LeadsCons(c, y2, Fetch(Changed(p)), [Commit] + [], z);
    steps := [data] + ([Fetch(Changed(p))] + ([Commit] + []));
    LeadsCons(c, y1, data, steps[1..], z);
    steps := [children] + steps;
    LeadsCons(c, y, children, steps[1..], z);
  }
}
