/** What the path cache guarantees in watchChildren mode, over every interleaving of node creations,
    rewrites and removals with watch events, handlers and deliveries. */
module ChildrenMirror {
  import opened PathCache

  lemma {:induction false} RunAppend(s: State, acts: seq<Action>, a: Action)
    requires IsRun(s, acts + [a])
    ensures IsRun(s, acts) && Enabled(Run(s, acts), a)
    ensures Run(s, acts + [a]) == Next(Run(s, acts), a)
    decreases |acts|
  {
    if acts != [] {
      assert (acts + [a])[1..] == acts[1..] + [a];
      RunAppend(Next(s, acts[0]), acts[1..], a);
    }
  }

  lemma {:induction false} RunPrefix(s: State, acts: seq<Action>, i: nat)
    requires IsRun(s, acts) && i <= |acts|
    ensures IsRun(s, acts[..i])
    decreases |acts|
  {
    if i > 0 {
      assert acts[..i][1..] == acts[1..][..i - 1];
      RunPrefix(Next(s, acts[0]), acts[1..], i - 1);
    }
  }

  ghost predicate Inv(s: State) {
    && s.childWatches + s.childEvents == 1
    && (!s.service ==>
      && s.dataWatches == map[] && s.nodeEvents == [] && s.addTasks == []
      && (forall n :: n in s.notes ==> n.ChildrenReplaced?)
      && (s.childWatches == 1 ==>
          forall p :: (p in s.cached <==> p in s.nodes) && (IsCached(s.cached, p) <==> p in s.nodes)))
  }

  lemma {:induction false} NextKeepsInv(s: State, a: Action)
    requires Inv(s) && Enabled(s, a)
    ensures Inv(Next(s, a))
  {
    if a.SetData? {
      assert s.nodes[a.path := a.data].Keys == s.nodes.Keys;
    }
  }

  lemma {:induction false} InvRuns(s: State, acts: seq<Action>)
    requires Inv(s) && IsRun(s, acts)
    ensures Inv(Run(s, acts))
    decreases |acts|
  {
    if acts != [] {
      NextKeepsInv(s, acts[0]);
      InvRuns(Next(s, acts[0]), acts[1..]);
    }
  }

  lemma {:induction false} InitInv(service: bool, nodes: map<string, ZNode>, listing: seq<string>)
    requires IsListing(listing, nodes)
    ensures Inv(Init(service, nodes, listing))
  {
  }

  /** In either mode there is always exactly one child watch: armed, or fired and not yet handled.
      In watchChildren mode, while it is armed the cache is exactly the child set. */
  lemma {:induction false} MirrorsChildren(service: bool, nodes: map<string, ZNode>, listing: seq<string>,
                                           acts: seq<Action>)
    requires IsListing(listing, nodes) && IsRun(Init(service, nodes, listing), acts)
    ensures var s := Run(Init(service, nodes, listing), acts);
      && s.childWatches + s.childEvents == 1
      && (!service && s.childWatches == 1 ==>
          forall p :: (p in s.cached <==> p in s.nodes) && (IsCached(s.cached, p) <==> p in s.nodes))
  {
    InitInv(service, nodes, listing);
    InvRuns(Init(service, nodes, listing), acts);
    ModeIsFixed(Init(service, nodes, listing), acts);
  }

  lemma {:induction false} ModeIsFixed(s: State, acts: seq<Action>)
    requires IsRun(s, acts)
    ensures Run(s, acts).service == s.service
    decreases |acts|
  {
    if acts != [] {
      ModeIsFixed(Next(s, acts[0]), acts[1..]);
    }
  }

  // ----- what is delivered -----

  /** The list was the exact child set after the first j actions, for some j <= upTo. */
  ghost predicate WasChildSet(s: State, acts: seq<Action>, upTo: nat, paths: seq<string>)
    requires IsRun(s, acts) && upTo <= |acts|
  {
    exists j :: 0 <= j <= upTo && IsRun(s, acts[..j]) && IsListing(paths, Run(s, acts[..j]).nodes)
  }

  lemma {:induction false} WasChildSetLater(s: State, acts: seq<Action>, i: nat, paths: seq<string>)
    requires IsRun(s, acts) && i <= |acts| && IsRun(s, acts[..i])
    requires WasChildSet(s, acts[..i], i, paths)
    ensures WasChildSet(s, acts, i, paths)
  {
    var j :| 0 <= j <= i && IsRun(s, acts[..i][..j]) && IsListing(paths, Run(s, acts[..i][..j]).nodes);
    assert acts[..i][..j] == acts[..j];
  }

  lemma {:induction false} PendingListsAreSnapshots(nodes: map<string, ZNode>, listing: seq<string>, acts: seq<Action>)
    requires IsListing(listing, nodes) && IsRun(Init(false, nodes, listing), acts)
    ensures var s := Init(false, nodes, listing);
      forall n :: n in Run(s, acts).notes ==> n.ChildrenReplaced? && WasChildSet(s, acts, |acts|, n.paths)
    decreases |acts|
  {
    var s := Init(false, nodes, listing);
    InitInv(false, nodes, listing);
    InvRuns(s, acts);
    ModeIsFixed(s, acts);
    if acts == [] {
      assert acts[..0] == acts && Run(s, acts) == s;
      assert IsRun(s, acts[..0]) && IsListing(listing, Run(s, acts[..0]).nodes);
    } else {
      var k := |acts| - 1;
      var before := acts[..k];
      assert before + [acts[k]] == acts;
      RunAppend(s, before, acts[k]);
      PendingListsAreSnapshots(nodes, listing, before);
      forall n | n in Run(s, acts).notes
        ensures WasChildSet(s, acts, |acts|, n.paths)
      {
        if n in Run(s, before).notes {
          WasChildSetLater(s, acts, k, n.paths);
        } else {
          assert acts[..|acts|] == acts;
          InvRuns(s, before);
          ModeIsFixed(s, before);
          assert acts[k].Handle? && IsListing(n.paths, Run(s, acts[..|acts|]).nodes);
        }
      }
    }
  }

  /** Every delivered ChildrenReplaced list was the exact child set at one earlier moment. */
  lemma {:induction false} DeliveredListsAreSnapshots(nodes: map<string, ZNode>, listing: seq<string>,
                                                      acts: seq<Action>, i: nat)
    requires IsListing(listing, nodes) && IsRun(Init(false, nodes, listing), acts)
    requires i < |acts| && acts[i].Take?
    ensures acts[i].note.ChildrenReplaced?
    ensures WasChildSet(Init(false, nodes, listing), acts, i, acts[i].note.paths)
  {
    var s := Init(false, nodes, listing);
    RunPrefix(s, acts, i + 1);
    assert acts[..i + 1] == acts[..i] + [acts[i]];
    RunAppend(s, acts[..i], acts[i]);
    PendingListsAreSnapshots(nodes, listing, acts[..i]);
    RunPrefix(s, acts, i);
    WasChildSetLater(s, acts, i, acts[i].note.paths);
  }

  /** A list of the present children of s is waiting, or was delivered by one of the actions. */
  ghost predicate Announced(s: State, acts: seq<Action>) {
    exists l :: IsListing(l, s.nodes) &&
      (ChildrenReplaced(l) in s.notes || Take(ChildrenReplaced(l)) in acts)
  }

  lemma {:induction false} NextKeepsAnnounced(s: State, acts: seq<Action>, a: Action)
    requires Inv(s) && !s.service && Enabled(s, a)
    requires s.childWatches == 1 ==> Announced(s, acts)
    requires Next(s, a).childWatches == 1
    ensures Announced(Next(s, a), acts + [a])
  {
  }

  /** While the watch is armed, the present child set has been announced: no change is missed. */
  lemma {:induction false} PresentChildrenAreAnnounced(nodes: map<string, ZNode>, listing: seq<string>,
                                                       acts: seq<Action>)
    requires IsListing(listing, nodes) && IsRun(Init(false, nodes, listing), acts)
    ensures var s := Run(Init(false, nodes, listing), acts);
      s.childWatches == 1 ==> Announced(s, acts)
    decreases |acts|
  {
    var s := Init(false, nodes, listing);
    if acts == [] {
      assert IsListing(listing, s.nodes) && ChildrenReplaced(listing) in s.notes;
    } else {
      var k := |acts| - 1;
      var before := acts[..k];
      assert before + [acts[k]] == acts;
      RunAppend(s, before, acts[k]);
      PresentChildrenAreAnnounced(nodes, listing, before);
      InitInv(false, nodes, listing);
      InvRuns(s, before);
      ModeIsFixed(s, before);
      if Run(s, acts).childWatches == 1 {
        NextKeepsAnnounced(Run(s, before), before, acts[k]);
      }
    }
  }

  // ----- deliveries in order -----

  /** The delivered notifications, in order. */
  function Delivered(acts: seq<Action>): seq<Event> {
    if acts == [] then []
    else Delivered(acts[..|acts| - 1]) + if acts[|acts| - 1].Take? then [acts[|acts| - 1].note] else []
  }

  /** Every delivery takes the oldest notification. */
  ghost predicate InOrder(s: State, acts: seq<Action>)
    requires IsRun(s, acts)
    decreases |acts|
  {
    acts == [] ||
    (var before, last := acts[..|acts| - 1], acts[|acts| - 1];
     && IsRun(s, before) && InOrder(s, before)
     && (last.Take? ==> Run(s, before).notes != [] && Run(s, before).notes[0] == last.note))
  }

  /** The newest of the announcements, delivered or waiting, lists the present children. */
  ghost predicate NewestIsCurrent(s: State, delivered: seq<Event>) {
    var all := delivered + s.notes;
    all != [] && all[|all| - 1].ChildrenReplaced? && IsListing(all[|all| - 1].paths, s.nodes)
  }

  lemma {:induction false} NextKeepsNewest(s: State, delivered: seq<Event>, a: Action)
    requires Inv(s) && !s.service && Enabled(s, a) && (a.Take? ==> s.notes[0] == a.note)
    requires s.childWatches == 1 ==> NewestIsCurrent(s, delivered)
    requires Next(s, a).childWatches == 1
    ensures NewestIsCurrent(Next(s, a), delivered + if a.Take? then [a.note] else [])
  {
    var t := Next(s, a);
    if a.Handle? {
      assert t.notes[|t.notes| - 1] == ChildrenReplaced(a.listing);
    } else if a.Take? {
      assert t.notes == s.notes[1..];
      assert (delivered + [a.note]) + t.notes == delivered + s.notes;
    } else {
      assert t.notes == s.notes;
    }
  }

  lemma {:induction false} NewestAnnouncement(nodes: map<string, ZNode>, listing: seq<string>, acts: seq<Action>)
    requires IsListing(listing, nodes) && IsRun(Init(false, nodes, listing), acts)
    requires InOrder(Init(false, nodes, listing), acts)
    ensures var s := Run(Init(false, nodes, listing), acts);
      s.childWatches == 1 ==> NewestIsCurrent(s, Delivered(acts))
    decreases |acts|
  {
    var s := Init(false, nodes, listing);
    if acts != [] {
      var k := |acts| - 1;
      var before := acts[..k];
      assert before + [acts[k]] == acts;
      RunAppend(s, before, acts[k]);
      NewestAnnouncement(nodes, listing, before);
      InitInv(false, nodes, listing);
      InvRuns(s, before);
      ModeIsFixed(s, before);
      if Run(s, acts).childWatches == 1 {
        NextKeepsNewest(Run(s, before), Delivered(before), acts[k]);
      }
    }
  }

  /** If notifications are delivered in the order in which they were scheduled, then once nothing is
      pending the last delivered list is the list of the present children. */
  lemma {:induction false} InOrderLastDeliveryIsCurrent(nodes: map<string, ZNode>, listing: seq<string>,
                                                        acts: seq<Action>)
    requires IsListing(listing, nodes) && IsRun(Init(false, nodes, listing), acts)
    requires InOrder(Init(false, nodes, listing), acts)
    requires var s := Run(Init(false, nodes, listing), acts); s.childEvents == 0 && s.notes == []
    ensures var s, delivered := Run(Init(false, nodes, listing), acts), Delivered(acts);
      && delivered != [] && delivered[|delivered| - 1].ChildrenReplaced?
      && IsListing(delivered[|delivered| - 1].paths, s.nodes)
  {
    MirrorsChildren(false, nodes, listing, acts);
    NewestAnnouncement(nodes, listing, acts);
    assert Delivered(acts) + [] == Delivered(acts);
  }

  lemma {:induction false} RunCons(s: State, a: Action, rest: seq<Action>)
    requires Enabled(s, a) && IsRun(Next(s, a), rest)
    ensures IsRun(s, [a] + rest) && Run(s, [a] + rest) == Run(Next(s, a), rest)
  {
  }

  /** Deliveries may overtake each other: a settled run whose last delivery is an old child set. */
  lemma {:induction false} LastDeliveryMayBeStale(d: ZNode) returns (acts: seq<Action>)
    ensures IsRun(Init(false, map[], []), acts)
    ensures var s := Run(Init(false, map[], []), acts);
      && s.childEvents == 0 && s.nodeEvents == [] && s.notes == [] && s.childWatches == 1
      && acts != [] && acts[|acts| - 1] == Take(ChildrenReplaced([]))
      && !IsListing([], s.nodes)
  {
    var none, one := ChildrenReplaced([]), ChildrenReplaced(["a"]);
    assert none != one by { assert |none.paths| != |one.paths|; }
    var s0 := Init(false, map[], []);
    var s1 := Next(s0, Create("a", d));
    assert IsListing(["a"], s1.nodes);
    var s2 := Next(s1, Handle(ChildrenChanged, ["a"]));
    assert s2.notes == [none, one];
    var s3 := Next(s2, Take(one));
    assert s3.notes == [none] by { assert [none, one][1..] == [one]; }
    var s4 := Next(s3, Take(none));
    acts := [Take(none)];
    RunCons(s3, Take(none), []);
    acts := [Take(one)] + acts;
    RunCons(s2, Take(one), acts[1..]);
    acts := [Handle(ChildrenChanged, ["a"])] + acts;
    RunCons(s1, Handle(ChildrenChanged, ["a"]), acts[1..]);
    acts := [Create("a", d)] + acts;
    RunCons(s0, Create("a", d), acts[1..]);
    assert "a" in s4.nodes;
  }
}
