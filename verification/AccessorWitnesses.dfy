/** Runs in which an accessor's object goes wrong. */
module AccessorWitnesses {
  import opened Wrappers
  import opened Subsets
  import opened Strings
  import opened Names
  import opened Accessors
  import opened AccessorRuns
  import opened AccessorSettling

  lemma {:induction false} Extend(run: seq<Action>, a: Action)
    requires IsRun(run) && Enabled(After(run), a)
    ensures IsRun(run + [a]) && After(run + [a]) == Next(After(run), a)
    ensures (run + [a])[..|run|] == run
  {
    assert (run + [a])[..|run|] == run;
  }

  function Event(service: string, app: string): Action { Receive(service, [map["app" := app]], [app]) }

  lemma {:induction false} EventMentions(service: string, app: string, other: string)
    requires app != ""
    ensures Mentions(Event(service, app), app, other) <==> service == other
  {
    var labels: Labels := map["app" := app];
    assert labels in Event(service, app).instances && "app" in labels && labels["app"] == app;
  }

  lemma {:induction false} ReceiveOne(run: seq<Action>, service: string, app: string) returns (next: seq<Action>)
    requires IsRun(run) && app != ""
    ensures IsRun(next) && next == run + [Event(service, app)]
    ensures IsCalm(run) ==> IsCalm(next)
    ensures var s, t := After(run), After(next);
      && t.todo == s.todo + [app] && t.scans == s.scans && t.flight == s.flight && t.objects == s.objects
      && (forall a :: Scoped(t.mapping, a) == Scoped(s.mapping, a) + if a == app then {service} else {})
  {
    var labels: Labels := map["app" := app];
    assert AppsOf([labels]) == {app} by {
      assert [labels][..0] == [];
    }
    assert ChangedScopes([labels]) == {app} by {
      assert labels in [labels];
    }
    Extend(run, Event(service, app));
    next := run + [Event(service, app)];
  }

  lemma {:induction false} LookOne(run: seq<Action>, app: string) returns (next: seq<Action>)
    requires IsRun(run) && After(run).todo != [] && After(run).todo[0] == app
    ensures IsRun(next) && next == run + [Look(app)]
    ensures IsCalm(run) && !InHand(After(run), app) ==> IsCalm(next)
    ensures After(next) == After(run).(todo := After(run).todo[1..],
                                       scans := After(run).scans + [Scan(app, Scoped(After(run).mapping, app))])
  {
    Extend(run, Look(app));
    next := run + [Look(app)];
  }

  lemma {:induction false} FinishOne(run: seq<Action>, scan: Scan, services: set<string>) returns (next: seq<Action>)
    requires IsRun(run) && After(run).scans == [scan]
    requires scan.atStart <= services <= Scoped(After(run).mapping, scan.scope)
    ensures IsRun(next) && next == run + [Finish(scan, services)]
    ensures IsCalm(run) ==> IsCalm(next)
    ensures After(next) == After(run).(scans := [], flight := After(run).flight + [Snapshot(scan.scope, services)])
  {
    Extend(run, Finish(scan, services));
    next := run + [Finish(scan, services)];
  }

  /** A write by a task that has seen the first `seen` versions. */
  lemma {:induction false} WriteSeen(run: seq<Action>, shot: Snapshot, list: seq<string>, seen: nat)
    returns (next: seq<Action>)
    requires IsRun(run) && shot in After(run).flight && IsEnumeration(list, shot.services) && shot.scope != ""
    requires seen <= |VersionsOf(After(run), FormatToDNS1123(shot.scope))|
    ensures IsRun(next) && next == run + [Write(shot, list, Some(seen))]
    ensures IsCalm(run) ==> IsCalm(next)
    ensures var s, name := After(run), FormatToDNS1123(shot.scope);
      After(next) == s.(flight := Without(s.flight, shot),
                        objects := s.objects[name := Written(VersionsOf(s, name), list, Some(seen))])
  {
    assert |FormatToDNS1123(shot.scope)| > 0;
    Extend(run, Write(shot, list, Some(seen)));
    next := run + [Write(shot, list, Some(seen))];
  }

  /** A write by a task that has seen the object as it is. */
  lemma {:induction false} WriteOne(run: seq<Action>, shot: Snapshot, list: seq<string>) returns (next: seq<Action>)
    requires IsRun(run) && shot in After(run).flight && IsEnumeration(list, shot.services) && shot.scope != ""
    requires var versions := VersionsOf(After(run), FormatToDNS1123(shot.scope));
      versions == [] || versions[|versions| - 1] != list
    ensures IsRun(next) && run <= next && |next| == |run| + 1 && next[|run|].Write?
    ensures IsCalm(run) ==> IsCalm(next)
    ensures var s, name := After(run), FormatToDNS1123(shot.scope);
      After(next) == s.(flight := Without(s.flight, shot),
                        objects := s.objects[name := VersionsOf(s, name) + [list]])
  {
    next := WriteSeen(run, shot, list, |VersionsOf(After(run), FormatToDNS1123(shot.scope))|);
  }

  /** Two services arrive while a task is ranging; it yields the second and not the first. The object
      then lists services that at no moment were those of the scope. */
  lemma {:induction false} SpecWasNeverTheRelation(app: string) returns (run: seq<Action>)
    requires app != ""
    ensures IsRun(run) && VersionsOf(After(run), FormatToDNS1123(app)) == [["a", "c"]]
    ensures forall k, services :: 0 <= k <= |run| && services == ScopedAt(run, k, app) ==>
      !IsEnumeration(["a", "c"], services)
  {
    run := SkipsTheSecond(app);
    forall k | 0 <= k <= |run|
      ensures "c" in ScopedAt(run, k, app) ==> "b" in ScopedAt(run, k, app)
    {
      PrefixIsRun(run, k);
      RelationIsExact(run[..k], app, "c");
      RelationIsExact(run[..k], app, "b");
      SecondBeforeThird(run, k, app);
    }
    assert "c" in ["a", "c"] && "b" !in ["a", "c"];
  }

  /** Every mention of the third service directly follows one of the second. */
  ghost predicate InThisOrder(run: seq<Action>, app: string) {
    forall i :: 0 <= i < |run| && Mentions(run[i], app, "c") ==> 0 < i && Mentions(run[i - 1], app, "b")
  }

  lemma {:induction false} SecondBeforeThird(run: seq<Action>, k: nat, app: string)
    requires InThisOrder(run, app) && k <= |run|
    ensures Seen(run[..k], app, "c") ==> Seen(run[..k], app, "b")
  {
    if i :| 0 <= i < k && Mentions(run[..k][i], app, "c") {
      assert Mentions(run[..k][i - 1], app, "b");
    }
  }

  lemma {:induction false} StillInOrder(run: seq<Action>, a: Action, app: string)
    requires InThisOrder(run, app)
    requires Mentions(a, app, "c") ==> run != [] && Mentions(run[|run| - 1], app, "b")
    ensures InThisOrder(run + [a], app)
  {
  }

  lemma {:induction false} SkipsTheSecond(app: string) returns (run: seq<Action>)
    requires app != ""
    ensures IsRun(run) && InThisOrder(run, app)
    ensures VersionsOf(After(run), FormatToDNS1123(app)) == [["a", "c"]]
  {
    run := ThreeArrive(app);
    StillInOrder(run, Finish(Scan(app, {"a"}), {"a", "c"}), app);
    run := FinishOne(run, Scan(app, {"a"}), {"a", "c"});
    assert Less("a", "c");
    StillInOrder(run, Write(Snapshot(app, {"a", "c"}), ["a", "c"], Some(0)), app);
    run := WriteSeen(run, Snapshot(app, {"a", "c"}), ["a", "c"], 0);
  }

  lemma {:induction false} ThreeArrive(app: string) returns (run: seq<Action>)
    requires app != ""
    ensures IsRun(run) && InThisOrder(run, app) && After(run).scans == [Scan(app, {"a"})]
    ensures {"a", "c"} <= Scoped(After(run).mapping, app) && After(run).objects == map[]
  {
    var first := OneLookedUp(app);
    EventMentions("b", app, "c");
    EventMentions("b", app, "b");
    StillInOrder(first, Event("b", app), app);
    var second := ReceiveOne(first, "b", app);
    StillInOrder(second, Event("c", app), app);
    run := ReceiveOne(second, "c", app);
  }

  lemma {:induction false} OneLookedUp(app: string) returns (run: seq<Action>)
    requires app != ""
    ensures IsRun(run) && InThisOrder(run, app) && After(run).objects == map[]
    ensures After(run).scans == [Scan(app, {"a"})] && Scoped(After(run).mapping, app) == {"a"}
  {
    EventMentions("a", app, "c");
    StillInOrder([], Event("a", app), app);
    var received := ReceiveOne([], "a", app);
    assert Scoped(After(received).mapping, app) == {} + {"a"} == {"a"};
    StillInOrder(received, Look(app), app);
    run := LookOne(received, app);
  }

  lemma {:induction false} NewerIsWritten(app: string) returns (run: seq<Action>)
    requires app != ""
    ensures IsRun(run) && VersionsOf(After(run), FormatToDNS1123(app)) == [["a", "b"]]
    ensures var s := After(run);
      && s.todo == [] && s.scans == [] && s.flight == [Snapshot(app, {"a"})] && Scoped(s.mapping, app) == {"a", "b"}
  {
    var older, newer := Snapshot(app, {"a"}), Snapshot(app, {"a", "b"});
    assert older != newer by { assert "b" in newer.services && "b" !in older.services; }
    assert Less("a", "b");
    run := BothCollected(app);
    run := WriteOne(run, newer, ["a", "b"]);
  }

  /** Two tasks of one scope overlap, and the older snapshot is written last: a service stays missing. */
  lemma {:induction false} OverlapLosesAService(app: string) returns (run: seq<Action>)
    requires app != ""
    ensures IsRun(run) && Settled(After(run)) && Seen(run, app, "b") && !IsRight(run, app)
  {
    var written := NewerIsWritten(app);
    assert ["a", "b"] != ["a"];
    run := WriteOne(written, Snapshot(app, {"a"}), ["a"]);
    assert VersionsOf(After(run), FormatToDNS1123(app)) == [["a", "b"], ["a"]];
    RelationIsExact(run, app, "b");
    RightIsEnumeration(run, app);
    assert "b" !in ["a"] && "b" in {"a", "b"};
  }

  /** An event of the application, up to the collection of its services. */
  lemma {:induction false} CollectOne(run: seq<Action>, service: string, app: string) returns (next: seq<Action>)
    requires IsRun(run) && app != "" && After(run).todo == [] && After(run).scans == []
    ensures IsRun(next) && |next| > |run| && Mentions(next[|run|], app, service)
    ensures IsCalm(run) && After(run).flight == [] ==> IsCalm(next)
    ensures var s, t := After(run), After(next);
      && t.todo == [] && t.scans == [] && t.objects == s.objects
      && t.flight == s.flight + [Snapshot(app, Scoped(s.mapping, app) + {service})]
      && (forall a :: Scoped(t.mapping, a) == Scoped(s.mapping, a) + if a == app then {service} else {})
  {
    var services := Scoped(After(run).mapping, app) + {service};
    EventMentions(service, app, service);
    next := ReceiveOne(run, service, app);
    next := LookOne(next, app);
    next := FinishOne(next, Scan(app, services), services);
  }

  lemma {:induction false} BothCollected(app: string) returns (run: seq<Action>)
    requires app != ""
    ensures IsRun(run)
    ensures var s := After(run);
      && s.todo == [] && s.scans == [] && s.flight == [Snapshot(app, {"a"}), Snapshot(app, {"a", "b"})]
      && Scoped(s.mapping, app) == {"a", "b"} && s.objects == map[]
  {
    assert Scoped(INIT.mapping, app) + {"a"} == {"a"} && {"a"} + {"b"} == {"a", "b"};
    run := CollectOne([], "a", app);
    run := CollectOne(run, "b", app);
  }

  /** A first event of the application, handled undisturbed. */
  lemma {:induction false} ServeOne(run: seq<Action>, service: string, app: string) returns (next: seq<Action>)
    requires IsRun(run) && IsCalm(run) && Settled(After(run)) && app != "" && Scoped(After(run).mapping, app) == {}
    requires [service] !in VersionsOf(After(run), FormatToDNS1123(app))
    ensures IsRun(next) && IsCalm(next) && Settled(After(next))
    ensures var s, t, name := After(run), After(next), FormatToDNS1123(app);
      && t.objects == s.objects[name := VersionsOf(s, name) + [[service]]]
      && (forall a :: Scoped(t.mapping, a) == Scoped(s.mapping, a) + if a == app then {service} else {})
  {
    assert Scoped(After(run).mapping, app) + {service} == {service};
    next := CollectOne(run, service, app);
    next := WriteOne(next, Snapshot(app, {service}), [service]);
  }

  /** Two applications whose objects have one name: a calm, settled run that leaves the first wrong. */
  lemma {:induction false} SharedObjectIsWrong(x: string, y: string) returns (run: seq<Action>)
    requires x != y && x != "" && y != "" && FormatToDNS1123(x) == FormatToDNS1123(y)
    ensures IsRun(run) && IsCalm(run) && Settled(After(run)) && Seen(run, x, "a") && !IsRight(run, x)
  {
    run := ServeOne([], "a", x);
    assert ["a"][0] != ["b"][0];
    run := ServeOne(run, "b", y);
    RelationIsExact(run, x, "a");
    assert "a" in Scoped(After(run).mapping, x);
    assert VersionsOf(After(run), FormatToDNS1123(x)) == [["a"], ["b"]];
  }

  lemma {:induction false} OneWrittenOneCollected(app: string) returns (run: seq<Action>)
    requires app != ""
    ensures IsRun(run) && IsCalm(run) && VersionsOf(After(run), FormatToDNS1123(app)) == [["a"]]
    ensures var s := After(run);
      && s.todo == [] && s.scans == [] && s.flight == [Snapshot(app, {"a", "b"})]
      && Scoped(s.mapping, app) == {"a", "b"}
  {
    var first := ServeOne([], "a", app);
    var s := After(first);
    assert Scoped(s.mapping, app) == {} + {"a"};
    assert Scoped(s.mapping, app) + {"b"} == {"a", "b"};
    assert VersionsOf(s, FormatToDNS1123(app)) == [["a"]];
    run := CollectOne(first, "b", app);
  }

  /** One task strictly after the other. The second still reads that there is no object, so its creation
      is refused: all is done, and a service seen is missing. */
  lemma {:induction false} StaleReadLosesAService(app: string) returns (run: seq<Action>)
    requires app != ""
    ensures IsRun(run) && IsCalm(run) && Settled(After(run)) && Seen(run, app, "b") && !IsRight(run, app)
  {
    run := OneWrittenOneCollected(app);
    assert Less("a", "b");
    assert Refused([["a"]], ["a", "b"], Some(0));
    run := WriteSeen(run, Snapshot(app, {"a", "b"}), ["a", "b"], 0);
    RelationIsExact(run, app, "b");
    RightIsEnumeration(run, app);
    assert "b" !in ["a"] && "b" in {"a", "b"};
  }
}
