/** The path cache (pkg/adapter/zookeeper/pathcache.go) over a ZooKeeper whose watches fire once.

    A fired event stays with its watch's channel until the event loop handles it (the forward task
    may run at any time); addChild and notify tasks wait in bags because the worker pool runs them
    in any order. A bag is a sequence from which any element may be taken. A child is named by its
    full path, also in children mode. */
module PathCache {
  import opened Wrappers

  /** A node's bytes, up to what the YAML parser makes of them. */
  datatype ZNode = Malformed | Doc(key: string, body: string)

  datatype ZkEvent = ChildrenChanged | DataChanged(path: string) | NodeDeleted(path: string)

  /** What a GetW watch fires. */
  type NodeEvent = e: ZkEvent | !e.ChildrenChanged? witness NodeDeleted("")

  datatype Event =
    | Added(path: string)
    | Deleted(path: string)
    | Changed(path: string)
    | ChildrenReplaced(paths: seq<string>)

  datatype State = State(
    service: bool,                  // watchAndAddChildren mode; otherwise watchChildren mode
    nodes: map<string, ZNode>,      // the children of the watched node, in ZooKeeper
    childWatches: nat,              // armed ChildrenW watches
    childEvents: nat,               // fired ChildrenW watches not yet handled
    dataWatches: map<string, nat>,  // armed GetW watches
    nodeEvents: seq<NodeEvent>,       // fired GetW watches not yet handled
    addTasks: seq<string>,          // scheduled addChild tasks
    cached: map<string, bool>,
    notes: seq<Event>,              // scheduled notify tasks
    zkEventCounter: nat)

  /** The first three are ZooKeeper's, Handle and AddChild the event loop's, Take the consumer's. */
  datatype Action =
    | Create(path: string, data: ZNode)
    | SetData(path: string, data: ZNode)
    | Remove(path: string)
    | Handle(event: ZkEvent, listing: seq<string>)
    | AddChild(path: string)
    | Take(note: Event)

  predicate IsCached(cached: map<string, bool>, p: string) { p in cached && cached[p] }

  function Watches(watches: map<string, nat>, p: string): nat { if p in watches then watches[p] else 0 }

  /** A reply of ChildrenW: all the children, each once, in any order. */
  ghost predicate IsListing(listing: seq<string>, nodes: map<string, ZNode>) {
    (forall p :: p in listing <==> p in nodes) &&
    (forall i, j :: 0 <= i < j < |listing| ==> listing[i] != listing[j])
  }

  function FireChildWatches(s: State): State {
    s.(childWatches := 0, childEvents := s.childEvents + s.childWatches)
  }

  function FireDataWatches(s: State, e: NodeEvent): (t: State)
    ensures Watches(s.dataWatches, e.path) > 0 ==> e in t.nodeEvents
    ensures forall x :: x in s.nodeEvents ==> x in t.nodeEvents
    ensures forall x :: x in t.nodeEvents ==> x in s.nodeEvents || x == e
  {
    var copies := seq(Watches(s.dataWatches, e.path), _ => e);
    assert Watches(s.dataWatches, e.path) > 0 ==> copies[0] == e;
    s.(dataWatches := s.dataWatches - {e.path},
       nodeEvents := s.nodeEvents + copies)
  }

  function UncachedIn(listing: seq<string>, cached: map<string, bool>): (r: seq<string>)
    ensures forall p :: p in r <==> p in listing && !IsCached(cached, p)
    ensures |r| <= |listing|
  {
    if listing == [] then []
    else
      var p := listing[|listing| - 1];
      UncachedIn(listing[..|listing| - 1], cached) + if IsCached(cached, p) then [] else [p]
  }

  function AllTrue(paths: seq<string>): map<string, bool> { map p | p in paths :: true }

  function AfterWatchChildren(s: State, listing: seq<string>): State {
    var t := s.(childWatches := s.childWatches + 1);
    if s.service then t.(addTasks := s.addTasks + UncachedIn(listing, s.cached))
    else t.(cached := AllTrue(listing), notes := s.notes + [ChildrenReplaced(listing)])
  }

  function AfterGetW(s: State, p: string): State {
    if p in s.nodes then s.(dataWatches := s.dataWatches[p := Watches(s.dataWatches, p) + 1]) else s
  }

  function AfterNodeChanged(s: State, p: string): State {
    AfterGetW(s, p).(notes := s.notes + [Changed(p)])
  }

  function AfterChildDeleted(s: State, p: string): State {
    s.(cached := s.cached[p := false], notes := s.notes + [Deleted(p)])
  }

  predicate Fired(s: State, e: ZkEvent) {
    if e.ChildrenChanged? then s.childEvents > 0 else e in s.nodeEvents
  }

  function AfterEvent(s: State, e: ZkEvent, listing: seq<string>): State
    requires Fired(s, e)
  {
    var t := s.(zkEventCounter := s.zkEventCounter + 1);
    match e
    case ChildrenChanged => AfterWatchChildren(t.(childEvents := s.childEvents - 1), listing)
    case DataChanged(p) => AfterNodeChanged(t.(nodeEvents := Without<NodeEvent>(s.nodeEvents, e)), p)
    case NodeDeleted(p) => AfterChildDeleted(t.(nodeEvents := Without<NodeEvent>(s.nodeEvents, e)), p)
  }

  function AfterChildAdd(s: State, p: string): State
    requires p in s.addTasks
  {
    var t := AfterGetW(s.(addTasks := Without(s.addTasks, p)), p);
    if p in s.nodes then t.(cached := s.cached[p := true], notes := s.notes + [Added(p)]) else t
  }

  /** NewPathCache on a node that already has children. */
  function Init(service: bool, nodes: map<string, ZNode>, listing: seq<string>): State {
    AfterWatchChildren(State(service, nodes, 0, 0, map[], [], [], map[], [], 0), listing)
  }

  ghost predicate Enabled(s: State, a: Action) {
    match a
    case Create(p, _) => p !in s.nodes
    case SetData(p, _) => p in s.nodes
    case Remove(p) => p in s.nodes
    case Handle(e, listing) => Fired(s, e) && IsListing(listing, s.nodes)
    case AddChild(p) => p in s.addTasks
    case Take(note) => note in s.notes
  }

  ghost function Next(s: State, a: Action): State
    requires Enabled(s, a)
  {
    match a
    case Create(p, d) => FireChildWatches(s.(nodes := s.nodes[p := d]))
    case SetData(p, d) => FireDataWatches(s.(nodes := s.nodes[p := d]), DataChanged(p))
    case Remove(p) => FireDataWatches(FireChildWatches(s.(nodes := s.nodes - {p})), NodeDeleted(p))
    case Handle(e, listing) => AfterEvent(s, e, listing)
    case AddChild(p) => AfterChildAdd(s, p)
    case Take(note) => s.(notes := Without(s.notes, note))
  }

  ghost predicate IsRun(s: State, acts: seq<Action>)
    decreases |acts|
  {
    acts == [] || (Enabled(s, acts[0]) && IsRun(Next(s, acts[0]), acts[1..]))
  }

  ghost function Run(s: State, acts: seq<Action>): State
    requires IsRun(s, acts)
    decreases |acts|
  {
    if acts == [] then s else Run(Next(s, acts[0]), acts[1..])
  }

  // ----- the code -----

  /** The server side of the connection: its nodes and the one-shot watches registered on them. */
  class ZooKeeper {
    var nodes: map<string, ZNode>
    var childWatches: nat
    var childEvents: nat
    var dataWatches: map<string, nat>
    var nodeEvents: seq<NodeEvent>

    constructor (nodes: map<string, ZNode>)
      ensures this.nodes == nodes && childWatches == childEvents == 0
      ensures dataWatches == map[] && nodeEvents == []
    {
      this.nodes, childWatches, childEvents, dataWatches, nodeEvents := nodes, 0, 0, map[], [];
    }

    method ChildrenW() returns (children: seq<string>)
      modifies this`childWatches
      ensures childWatches == old(childWatches) + 1
      ensures IsListing(children, nodes)
    {
      childWatches := childWatches + 1;
      children := [];
      var rest := nodes.Keys;
      while rest != {}
        invariant rest <= nodes.Keys
        invariant forall p :: p in children <==> p in nodes && p !in rest
        invariant forall i, j :: 0 <= i < j < |children| ==> children[i] != children[j]
        decreases rest
      {
        var p :| p in rest;
        children, rest := children + [p], rest - {p};
      }
    }

    method GetW(p: string) returns (ok: bool)
      modifies this`dataWatches
      ensures ok <==> p in nodes
      ensures ok ==> dataWatches == old(dataWatches)[p := Watches(old(dataWatches), p) + 1]
      ensures !ok ==> dataWatches == old(dataWatches)
    {
      ok := p in nodes;
      if ok {
        dataWatches := dataWatches[p := Watches(dataWatches, p) + 1];
      }
    }
  }

  class Cache {
    const conn: ZooKeeper
    const isSvcPath: bool
    var Cached: map<string, bool>
    var zkEventCounter: nat
    var addTasks: seq<string>
    var notes: seq<Event>

    ghost function View(): State reads this, conn {
      State(isSvcPath, conn.nodes, conn.childWatches, conn.childEvents, conn.dataWatches,
            conn.nodeEvents, addTasks, Cached, notes, zkEventCounter)
    }

    constructor (conn: ZooKeeper, isSvcPath: bool)
      requires conn.childWatches == conn.childEvents == 0
      requires conn.dataWatches == map[] && conn.nodeEvents == []
      modifies conn
      ensures conn == this.conn
      ensures exists seen :: IsListing(seen, conn.nodes) && View() == Init(isSvcPath, old(conn.nodes), seen)
    {
      this.conn, this.isSvcPath := conn, isSvcPath;
      Cached, zkEventCounter, addTasks, notes := map[], 0, [], [];
      new;
      var _ := WatchByMode();
    }

    method WatchByMode() returns (seen: seq<string>)
      modifies this`addTasks, this`Cached, this`notes, conn`childWatches
      ensures IsListing(seen, conn.nodes)
      ensures View() == AfterWatchChildren(old(View()), seen)
    {
      if isSvcPath {
        seen := WatchAndAddChildren();
      } else {
        seen := WatchChildren();
      }
    }

    method WatchAndAddChildren() returns (children: seq<string>)
      requires isSvcPath
      modifies this`addTasks, conn`childWatches
      ensures IsListing(children, conn.nodes)
      ensures View() == AfterWatchChildren(old(View()), children)
    {
      children := conn.ChildrenW();
      ScheduleAddChildren(children);
    }

    method ScheduleAddChildren(children: seq<string>)
      modifies this`addTasks
      ensures addTasks == old(addTasks) + UncachedIn(children, Cached)
    {
      for i := 0 to |children|
        invariant addTasks == old(addTasks) + UncachedIn(children[..i], Cached)
      {
        var fp := children[i];
        assert children[..i + 1][..i] == children[..i];
        if !(fp in Cached && Cached[fp]) {
          addTasks := addTasks + [fp];
        }
      }
      assert children[..|children|] == children;
    }

    method WatchChildren() returns (children: seq<string>)
      requires !isSvcPath
      modifies this`Cached, this`notes, conn`childWatches
      ensures IsListing(children, conn.nodes)
      ensures View() == AfterWatchChildren(old(View()), children)
    {
      children := conn.ChildrenW();
      var cached: map<string, bool> := map[];
      for i := 0 to |children|
        invariant cached == AllTrue(children[..i])
      {
        cached := cached[children[i] := true];
        assert children[..i + 1] == children[..i] + [children[i]];
      }
      assert children[..|children|] == children;
      Cached := cached;
      notes := notes + [ChildrenReplaced(children)];
    }

    method Watch(path: string) returns (ok: bool)
      modifies conn`dataWatches
      ensures ok <==> path in conn.nodes
      ensures View() == AfterGetW(old(View()), path)
    {
      ok := conn.GetW(path);
    }

    method OnChildAdd(child: string)
      requires child in addTasks
      modifies this`addTasks, this`Cached, this`notes, conn`dataWatches
      ensures View() == AfterChildAdd(old(View()), child)
    {
      addTasks := Without(addTasks, child);
      var ok := Watch(child);
      if !ok {
        return;
      }
      Cached := Cached[child := true];
      notes := notes + [Added(child)];
    }

    method OnEvent(event: ZkEvent) returns (seen: seq<string>)
      requires Fired(View(), event)
      modifies this, conn`childEvents, conn`nodeEvents, conn`childWatches, conn`dataWatches
      ensures event.ChildrenChanged? ==> IsListing(seen, conn.nodes)
      ensures View() == AfterEvent(old(View()), event, seen)
    {
      seen := [];
      zkEventCounter := zkEventCounter + 1;
      if event.ChildrenChanged? {
        conn.childEvents := conn.childEvents - 1;
        seen := WatchByMode();
        return;
      }
      conn.nodeEvents := Without<NodeEvent>(conn.nodeEvents, event);
      if event.DataChanged? {
        OnNodeChanged(event.path);
      } else {
        OnChildDeleted(event.path);
      }
    }

    method OnNodeChanged(path: string)
      modifies this`notes, conn`dataWatches
      ensures View() == AfterNodeChanged(old(View()), path)
    {
      var _ := Watch(path);
      notes := notes + [Changed(path)];
    }

    method OnChildDeleted(child: string)
      modifies this`Cached, this`notes
      ensures View() == AfterChildDeleted(old(View()), child)
    {
      Cached := Cached[child := false];
      notes := notes + [Deleted(child)];
    }
  }
}
