/** The configuration client (pkg/adapter/configcenter/zk/client.go) consuming a path cache in
    watchAndAddChildren mode. Its loop reads a node's data and writes the cache at two moments, with
    ZooKeeper, the path cache and the worker pool moving in between. */
module ConfigCache {
  import opened Wrappers
  import opened PathCache

  /** Which path a configuration key belongs to, the name ResolveServiceName takes from a path, and which
      paths the nodes have. */
  datatype Naming = Naming(owner: string -> string, service: string -> string, isNode: string -> bool)

  datatype Fetched = Fetched(note: Event, data: ZNode)

  datatype System = System(cache: State, consumer: Option<Fetched>, entries: map<string, ZNode>)

  datatype Step = Outside(a: Action) | Fetch(note: Event) | Commit

  /** getData: a missing node reads as no bytes, which parse to an empty configuration. */
  function Read(nodes: map<string, ZNode>, p: string): ZNode {
    if p in nodes then nodes[p] else Doc("", "")
  }

  function FetchedFor(nodes: map<string, ZNode>, note: Event): Fetched {
    Fetched(note, if note.Added? || note.Changed? then Read(nodes, note.path) else Malformed)
  }

  function AfterCommit(c: Naming, y: System): System
    requires y.consumer.Some?
  {
    var f := y.consumer.value;
    var idle := y.(consumer := None);
    match f.note
    case Deleted(p) =>
      idle.(cache := y.cache.(cached := y.cache.cached[p := false]), entries := y.entries - {c.service(p)})
    case ChildrenReplaced(_) => idle
    case _ => if f.data.Doc? then idle.(entries := y.entries[f.data.key := f.data]) else idle
  }

  ghost predicate Can(y: System, t: Step) {
    match t
    case Outside(a) => !a.Take? && Enabled(y.cache, a)
    case Fetch(note) => y.consumer.None? && note in y.cache.notes
    case Commit => y.consumer.Some?
  }

  ghost function Do(c: Naming, y: System, t: Step): System
    requires Can(y, t)
  {
    match t
    case Outside(a) => y.(cache := Next(y.cache, a))
    case Fetch(note) =>
      System(Next(y.cache, Take(note)), Some(FetchedFor(y.cache.nodes, note)), y.entries)
    case Commit => AfterCommit(c, y)
  }

  ghost predicate IsHistory(c: Naming, y: System, steps: seq<Step>)
    decreases |steps|
  {
    steps == [] || (Can(y, steps[0]) && IsHistory(c, Do(c, y, steps[0]), steps[1..]))
  }

  ghost function After(c: Naming, y: System, steps: seq<Step>): System
    requires IsHistory(c, y, steps)
    decreases |steps|
  {
    if steps == [] then y else After(c, Do(c, y, steps[0]), steps[1..])
  }

  /** ZooKeeper only creates and rewrites nodes, and what it writes at a path has that path's keys. */
  predicate GrowOnly(c: Naming, t: Step) {
    t.Outside? && !t.a.Handle? && !t.a.AddChild? && !t.a.Take? ==>
      !t.a.Remove? && (t.a.data.Doc? ==> c.owner(t.a.data.key) == t.a.path)
  }

  /** No event, task or notification is pending. */
  predicate Settled(y: System) {
    y.cache.childEvents == 0 && y.cache.nodeEvents == [] && y.cache.addTasks == [] &&
    y.cache.notes == [] && y.consumer.None?
  }

  ghost predicate Owned(c: Naming, nodes: map<string, ZNode>) {
    forall p :: p in nodes && nodes[p].Doc? ==> c.owner(nodes[p].key) == p
  }

  /** The entry under the node's present key is the parse of its present data. */
  predicate Coherent(y: System, p: string)
    requires p in y.cache.nodes
  {
    var d := y.cache.nodes[p];
    d.Doc? ==> d.key in y.entries && y.entries[d.key] == d
  }

  predicate Holds(y: System, p: string) {
    y.consumer.Some? && (y.consumer.value.note.Added? || y.consumer.value.note.Changed?) &&
    y.consumer.value.note.path == p
  }

  /** Something still under way will bring the entry for p up to date, or it is up to date. */
  predicate Fresh(y: System, p: string)
    requires p in y.cache.nodes
  {
    || Added(p) in y.cache.notes || Changed(p) in y.cache.notes || DataChanged(p) in y.cache.nodeEvents
    || (Holds(y, p) && y.consumer.value.data == y.cache.nodes[p])
    || (!Holds(y, p) && Coherent(y, p))
  }

  ghost predicate CacheInv(s: State) {
    && s.service && s.childWatches + s.childEvents == 1
    && (forall e :: e in s.nodeEvents ==> e.DataChanged? && e.path in s.nodes)
    && (forall n :: n in s.notes ==> (n.Added? || n.Changed?) && n.path in s.nodes)
    && (forall p :: p in s.cached ==> s.cached[p] && p in s.nodes)
    && (forall p :: p in s.addTasks ==> p in s.nodes)
    && (s.childWatches == 1 ==> forall p :: p in s.nodes ==> p in s.cached || p in s.addTasks)
    && (forall p :: p in s.cached ==> Watches(s.dataWatches, p) > 0 || DataChanged(p) in s.nodeEvents)
  }

  ghost predicate Inv(c: Naming, y: System) {
    && CacheInv(y.cache)
    && Owned(c, y.cache.nodes)
    && (y.consumer.Some? ==>
        var f := y.consumer.value;
        && (f.note.Added? || f.note.Changed?) && f.note.path in y.cache.nodes
        && (f.data.Doc? ==> c.owner(f.data.key) == f.note.path))
    && (forall k :: k in y.entries ==> c.owner(k) in y.cache.nodes && y.entries[k].Doc? && y.entries[k].key == k)
    && (forall p :: p in y.cache.cached ==> Fresh(y, p))
  }

  lemma {:induction false} HandleKeepsCacheInv(s: State, e: ZkEvent, listing: seq<string>)
    requires CacheInv(s) && Fired(s, e) && IsListing(listing, s.nodes)
    ensures CacheInv(AfterEvent(s, e, listing))
  {
  }

  lemma {:induction false} NextKeepsCacheInv(s: State, a: Action)
    requires CacheInv(s) && Enabled(s, a) && !a.Remove?
    ensures CacheInv(Next(s, a))
  {
    match a
    case Create(p, d) =>
    case SetData(p, d) => SetDataKeepsCacheInv(s, p, d);
    case Handle(e, listing) => HandleKeepsCacheInv(s, e, listing);
    case AddChild(p) =>
    case Take(note) =>
  }

  lemma {:induction false} SetDataKeepsCacheInv(s: State, p: string, d: ZNode)
    requires CacheInv(s) && p in s.nodes
    ensures CacheInv(Next(s, SetData(p, d)))
  {
  }

  lemma {:induction false} OutsideKeepsFresh(c: Naming, y: System, a: Action, p: string)
    requires Inv(c, y) && Can(y, Outside(a)) && !a.Remove? && p in y.cache.cached
    ensures p in Next(y.cache, a).nodes && Fresh(Do(c, y, Outside(a)), p)
  {
    assert Fresh(y, p);
    if a.Handle? && a.event == DataChanged(p) {
      assert Changed(p) in Next(y.cache, a).notes;
    }
  }

  lemma {:induction false} OutsideKeepsInv(c: Naming, y: System, a: Action)
    requires Inv(c, y) && Can(y, Outside(a)) && GrowOnly(c, Outside(a))
    ensures Inv(c, Do(c, y, Outside(a)))
  {
    NextKeepsCacheInv(y.cache, a);
    var z := Do(c, y, Outside(a));
    forall p | p in z.cache.cached
      ensures Fresh(z, p)
    {
      if p in y.cache.cached {
        OutsideKeepsFresh(c, y, a, p);
      } else {
        assert a.AddChild? && a.path == p && Added(p) in z.cache.notes;
      }
    }
  }

  lemma {:induction false} FetchKeepsInv(c: Naming, y: System, note: Event)
    requires Inv(c, y) && Can(y, Fetch(note))
    ensures Inv(c, Do(c, y, Fetch(note)))
  {
    NextKeepsCacheInv(y.cache, Take(note));
    var z := Do(c, y, Fetch(note));
    forall p | p in z.cache.cached
      ensures Fresh(z, p)
    {
      assert Fresh(y, p);
    }
  }

  lemma {:induction false} CommitKeepsInv(c: Naming, y: System)
    requires Inv(c, y) && Can(y, Commit)
    ensures Inv(c, Do(c, y, Commit))
  {
    var z := Do(c, y, Commit);
    forall p | p in z.cache.cached
      ensures Fresh(z, p)
    {
      assert Fresh(y, p);
    }
  }

  lemma {:induction false} DoKeepsInv(c: Naming, y: System, t: Step)
    requires Inv(c, y) && Can(y, t) && GrowOnly(c, t)
    ensures Inv(c, Do(c, y, t))
  {
    match t
    case Outside(a) => OutsideKeepsInv(c, y, a);
    case Fetch(note) => FetchKeepsInv(c, y, note);
    case Commit => CommitKeepsInv(c, y);
  }

  lemma {:induction false} InvAfter(c: Naming, y: System, steps: seq<Step>)
    requires Inv(c, y) && IsHistory(c, y, steps) && (forall t <- steps :: GrowOnly(c, t))
    ensures Inv(c, After(c, y, steps))
    decreases |steps|
  {
    if steps != [] {
      DoKeepsInv(c, y, steps[0]);
      InvAfter(c, Do(c, y, steps[0]), steps[1..]);
    }
  }

  function Start(nodes: map<string, ZNode>, listing: seq<string>): System {
    System(Init(true, nodes, listing), None, map[])
  }

  /** Config cache coherence, over every grow-only history however its steps interleave. */
  lemma {:induction false} ConfigCoherence(c: Naming, nodes: map<string, ZNode>, listing: seq<string>, steps: seq<Step>)
    requires IsListing(listing, nodes) && Owned(c, nodes)
    requires IsHistory(c, Start(nodes, listing), steps) && (forall t <- steps :: GrowOnly(c, t))
    ensures var y := After(c, Start(nodes, listing), steps);
      && (forall k :: k in y.entries ==> c.owner(k) in y.cache.nodes)
      && (Settled(y) ==> forall p :: p in y.cache.nodes ==>
            IsCached(y.cache.cached, p) && Watches(y.cache.dataWatches, p) > 0 && Coherent(y, p))
  {
    InvAfter(c, Start(nodes, listing), steps);
    var y := After(c, Start(nodes, listing), steps);
    if Settled(y) {
      forall p | p in y.cache.nodes
        ensures IsCached(y.cache.cached, p) && Watches(y.cache.dataWatches, p) > 0 && Coherent(y, p)
      {
        assert p in y.cache.cached;
        assert Fresh(y, p);
      }
    }
  }

  // ----- settling -----

  /** The steps of the path cache and the client; the rest are ZooKeeper's. */
  predicate Internal(t: Step) { !t.Outside? || t.a.Handle? || t.a.AddChild? }

  lemma {:induction false} ListingLength(listing: seq<string>, nodes: set<string>)
    requires forall p :: p in listing <==> p in nodes
    requires forall i, j :: 0 <= i < j < |listing| ==> listing[i] != listing[j]
    ensures |listing| == |nodes|
  {
    if listing != [] {
      var k := |listing| - 1;
      assert forall p :: p in listing[..k] <==> p in nodes - {listing[k]};
      ListingLength(listing[..k], nodes - {listing[k]});
    }
  }

  lemma {:induction false} ListingExists(nodes: map<string, ZNode>) returns (listing: seq<string>)
    ensures IsListing(listing, nodes)
    decreases |nodes|
  {
    listing := [];
    if nodes != map[] {
      var p :| p in nodes;
      assert (nodes - {p}).Keys == nodes.Keys - {p} && |nodes - {p}| < |nodes|;
      var rest := ListingExists(nodes - {p});
      listing := [p] + rest;
    }
  }

  /** How much is under way: each fired child watch may schedule an addChild task per node, each
      task and event one notification, and each notification two consumer steps. */
  function Work(y: System): nat {
    var s := y.cache;
    (3 * |s.nodes| + 3) * s.childEvents + 3 * |s.nodeEvents| + 3 * |s.addTasks| + 2 * |s.notes|
    + if y.consumer.Some? then 1 else 0
  }

  lemma {:induction false} HandleChildrenWorks(s: State, listing: seq<string>)
    requires s.childEvents > 0 && IsListing(listing, s.nodes)
    ensures var t := AfterEvent(s, ChildrenChanged, listing);
      (3 * |s.nodes| + 3) * t.childEvents + 3 * |t.addTasks| + 2 * |t.notes|
      < (3 * |s.nodes| + 3) * s.childEvents + 3 * |s.addTasks| + 2 * |s.notes|
  {
    ListingLength(listing, s.nodes.Keys);
    assert |s.nodes.Keys| == |s.nodes|;
    var w := 3 * |s.nodes| + 3;
    assert w * (s.childEvents - 1) == w * s.childEvents - w;
  }

  lemma {:induction false} EventLoopWorks(s: State, a: Action)
    requires Enabled(s, a) && (a.AddChild? || (a.Handle? && !a.event.ChildrenChanged?))
    ensures var t := Next(s, a);
      && t.nodes == s.nodes && t.childEvents == s.childEvents
      && 3 * |t.nodeEvents| + 3 * |t.addTasks| + 2 * |t.notes|
         < 3 * |s.nodeEvents| + 3 * |s.addTasks| + 2 * |s.notes|
  {
  }

  lemma {:induction false} InternalWorks(c: Naming, y: System, t: Step)
    requires Internal(t) && Can(y, t)
    ensures Do(c, y, t).cache.nodes == y.cache.nodes
    ensures Work(Do(c, y, t)) < Work(y)
  {
    match t
    case Outside(a) =>
      if a.Handle? && a.event.ChildrenChanged? {
        HandleChildrenWorks(y.cache, a.listing);
      } else {
        EventLoopWorks(y.cache, a);
      }
    case Fetch(note) =>
    case Commit =>
  }

  lemma {:induction false} InternalPossible(y: System) returns (t: Step)
    requires !Settled(y)
    ensures Internal(t) && Can(y, t)
  {
    var s := y.cache;
    var listing := ListingExists(s.nodes);
    t := if s.childEvents > 0 then Outside(Handle(ChildrenChanged, listing))
         else if s.nodeEvents != [] then Outside(Handle(s.nodeEvents[0], listing))
         else if s.addTasks != [] then Outside(AddChild(s.addTasks[0]))
         else if y.consumer.Some? then Commit
         else Fetch(s.notes[0]);
  }

  /** Once ZooKeeper is quiet, whatever order the pending work runs in, it ends within Work(y) steps,
      and it can only stop in a settled state. */
  lemma {:induction false} SettlesWithinWork(c: Naming, y: System, steps: seq<Step>)
    requires IsHistory(c, y, steps) && (forall t <- steps :: Internal(t))
    ensures var z := After(c, y, steps);
      && |steps| + Work(z) <= Work(y)
      && (Settled(z) <==> !exists t :: Internal(t) && Can(z, t))
    decreases |steps|
  {
    if steps != [] {
      InternalWorks(c, y, steps[0]);
      SettlesWithinWork(c, Do(c, y, steps[0]), steps[1..]);
    } else if !Settled(y) {
      var t := InternalPossible(y);
    }
  }

  // ----- why the hypotheses are needed -----

  ghost predicate Leads(c: Naming, y: System, steps: seq<Step>, z: System) {
    IsHistory(c, y, steps) && After(c, y, steps) == z
  }

  lemma {:induction false} LeadsCons(c: Naming, y: System, t: Step, rest: seq<Step>, z: System)
    requires Can(y, t) && Leads(c, Do(c, y, t), rest, z)
    ensures Leads(c, y, [t] + rest, z)
  {
  }

  /** The one node p has been discovered, watched and consumed. */
  function Watched(c: Naming, p: string, d: ZNode, counter: nat): System {
    System(State(true, map[p := d], 1, 0, map[p := 1], [], [], map[p := true], [], counter), None,
           if d.Doc? then map[d.key := d] else map[])
  }

  /** The one scheduled addChild task runs and its notification is consumed. */
  lemma {:induction false} Discovers(c: Naming, y: System, p: string, d: ZNode) returns (steps: seq<Step>, z: System)
    requires y.consumer.None? && y.cache.addTasks == [p] && y.cache.notes == []
    requires p in y.cache.nodes && y.cache.nodes[p] == d
    ensures Leads(c, y, steps, z)
    ensures z.cache == AfterGetW(y.cache, p).(addTasks := [], cached := y.cache.cached[p := true])
    ensures z.consumer.None? && z.entries == if d.Doc? then y.entries[d.key := d] else y.entries
  {
    var y1 := Do(c, y, Outside(AddChild(p)));
    assert y1.cache.notes == [Added(p)];
    var y2 := Do(c, y1, Fetch(Added(p)));
    z := Do(c, y2, Commit);
    LeadsCons(c, y2, Commit, [], z);
    LeadsCons(c, y1, Fetch(Added(p)), [Commit] + [], z);
    steps := [Outside(AddChild(p))] + ([Fetch(Added(p))] + ([Commit] + []));
    LeadsCons(c, y, Outside(AddChild(p)), steps[1..], z);
  }

  lemma {:induction false} StartOfOne(p: string, d: ZNode)
    ensures Start(map[p := d], [p]) ==
      System(State(true, map[p := d], 1, 0, map[], [], [p], map[], [], 0), None, map[])
  {
    assert UncachedIn([p], map[]) == [p];
  }

  lemma {:induction false} NodeIsWatched(c: Naming, p: string, d: ZNode) returns (steps: seq<Step>)
    ensures Leads(c, Start(map[p := d], [p]), steps, Watched(c, p, d, 0))
  {
    StartOfOne(p, d);
    var y := System(State(true, map[p := d], 1, 0, map[], [], [p], map[], [], 0), None, map[]);
    var z;
    steps, z := Discovers(c, y, p, d);
    assert z == Watched(c, p, d, 0);
  }

  /** The removal is handled after the node is back. */
  lemma {:induction false} LateRemoval(c: Naming, p: string, d: ZNode, y: System) returns (steps: seq<Step>, z: System)
    requires y.cache == State(true, map[p := d], 1, 0, map[], [NodeDeleted(p)], [], map[p := true], [], 1)
    requires y.consumer.None?
    ensures Leads(c, y, steps, z)
    ensures z.cache == y.cache.(nodeEvents := [], cached := map[p := false], zkEventCounter := 2)
    ensures z.consumer.None?
  {
    var deleted := Outside(Handle(NodeDeleted(p), [p]));
    assert IsListing([p], y.cache.nodes);
    var y1 := Do(c, y, deleted);
    assert y1.cache ==
      y.cache.(nodeEvents := [], cached := map[p := false], notes := [Deleted(p)], zkEventCounter := 2);
    var y2 := Do(c, y1, Fetch(Deleted(p)));
    z := Do(c, y2, Commit);
    LeadsCons(c, y2, Commit, [], z);
    LeadsCons(c, y1, Fetch(Deleted(p)), [Commit] + [], z);
    steps := [deleted] + ([Fetch(Deleted(p))] + ([Commit] + []));
    LeadsCons(c, y, deleted, steps[1..], z);
  }

  /** A watched node removed and created again before its events are handled ends up unwatched and
      not cached, with nothing left to do; and rewriting it then starts no work either. */
  lemma {:induction false} RecreatedNodeIsLost(c: Naming, p: string, d: ZNode) returns (steps: seq<Step>, z: System)
    ensures Leads(c, Watched(c, p, d, 0), steps, z)
    ensures Settled(z) && z.cache.nodes == map[p := d] && !IsCached(z.cache.cached, p)
    ensures forall d' :: Settled(Do(c, z, Outside(SetData(p, d'))))
  {
    var remove, create := Outside(Remove(p)), Outside(Create(p, d));
    var children := Outside(Handle(ChildrenChanged, [p]));
    var y0 := Watched(c, p, d, 0);
    var y1 := Do(c, y0, remove);
    assert y1.cache == State(true, map[], 0, 1, map[], [NodeDeleted(p)], [], map[p := true], [], 0);
    var y2 := Do(c, y1, create);
    assert y2.cache == y1.cache.(nodes := map[p := d]);
    assert IsListing([p], y2.cache.nodes);
    var y3 := Do(c, y2, children);
    assert y3.cache == y2.cache.(childWatches := 1, childEvents := 0, zkEventCounter := 1) by {
      assert UncachedIn([p], map[p := true]) == [];
    }
    steps, z := LateRemoval(c, p, d, y3);
    steps := [children] + steps;
    LeadsCons(c, y2, children, steps[1..], z);
    steps := [create] + steps;
    LeadsCons(c, y1, create, steps[1..], z);
    steps := [remove] + steps;
    LeadsCons(c, y0, remove, steps[1..], z);
  }

  /** Two paths whose data use one key: the client settles with only one of them recorded. */
  lemma {:induction false} CollidingKeysLoseOne(c: Naming, p: string, q: string, k: string)
    returns (steps: seq<Step>, z: System)
    requires p != q
    ensures Leads(c, Watched(c, p, Doc(k, "1"), 0), steps, z)
    ensures Settled(z) && z.cache.nodes == map[p := Doc(k, "1"), q := Doc(k, "2")]
    ensures !Coherent(z, p)
  {
    var create, children := Outside(Create(q, Doc(k, "2"))), Outside(Handle(ChildrenChanged, [p, q]));
    var y0 := Watched(c, p, Doc(k, "1"), 0);
    var y1 := Do(c, y0, create);
    SecondChildIsListed(y1.cache, p, q);
    var y2 := Do(c, y1, children);
    steps, z := Discovers(c, y2, q, Doc(k, "2"));
    steps := [children] + steps;
    LeadsCons(c, y1, children, steps[1..], z);
    steps := [create] + steps;
    LeadsCons(c, y0, create, steps[1..], z);
    assert "1" != "2";
  }

  lemma {:induction false} SecondChildIsListed(s: State, p: string, q: string)
    requires p != q && s.service && s.childEvents == 1 && s.childWatches == 0
    requires s.nodes.Keys == {p, q} && s.cached == map[p := true] && s.addTasks == []
    ensures IsListing([p, q], s.nodes)
    ensures AfterEvent(s, ChildrenChanged, [p, q]) ==
      s.(childWatches := 1, childEvents := 0, addTasks := [q], zkEventCounter := s.zkEventCounter + 1)
  {
    assert forall x :: x in [p, q] <==> x in s.nodes.Keys;
    assert [p, q][..1] == [p] && UncachedIn([p], s.cached) == [];
    assert UncachedIn([p, q], s.cached) == [q];
  }

  // ----- the code -----

  class ConfigClient {
    const naming: Naming
    const rootPathCache: Cache
    var configEntries: map<string, ZNode>
    var current: Option<Fetched>   // the event the loop body is working on, with the data it read

    ghost function View(): System reads this, rootPathCache, rootPathCache.conn {
      System(rootPathCache.View(), current, configEntries)
    }

    constructor (naming: Naming, rootPathCache: Cache)
      ensures View() == System(rootPathCache.View(), None, map[])
    {
      this.naming, this.rootPathCache, configEntries, current := naming, rootPathCache, map[], None;
    }

    method GetData(path: string) returns (data: ZNode)
      ensures data == Read(rootPathCache.conn.nodes, path)
    {
      data := if path in rootPathCache.conn.nodes then rootPathCache.conn.nodes[path] else Doc("", "");
    }

    /** The loop receives an event and, unless a node went away, reads its data. */
    method Receive(event: Event)
      requires event in rootPathCache.notes && current.None?
      modifies this`current, rootPathCache`notes
      ensures View() == Do(naming, old(View()), Fetch(event))
    {
      rootPathCache.notes := Without(rootPathCache.notes, event);
      var data := Malformed;
      if event.Added? || event.Changed? {
        data := GetData(event.path);
      }
      current := Some(Fetched(event, data));
    }

    /** The rest of the loop body. */
    method Record()
      requires current.Some?
      modifies this, rootPathCache`Cached
      ensures View() == Do(naming, old(View()), Commit)
    {
      var event, data := current.value.note, current.value.data;
      current := None;
      if event.Added? || event.Changed? {
        if data.Malformed? {
          return;
        }
        configEntries := configEntries[data.key := data];
      } else if event.Deleted? {
        rootPathCache.Cached := rootPathCache.Cached[event.path := false];
        configEntries := configEntries - {naming.service(event.path)};
      }
    }
  }
}
