/** What the ServiceAccessor objects say once all tasks are done: each scope's object is decided by the
    scope's last task, and by whether its write was refused. */
module AccessorSettling {
  import opened Wrappers
  import opened Subsets
  import opened Strings
  import opened Names
  import opened Accessors
  import opened AccessorRuns

  ghost predicate Within(run: seq<Action>, scopes: set<string>) {
    forall i :: 0 <= i < |run| && run[i].Receive? ==> ChangedScopes(run[i].instances) <= scopes
  }

  /** Some task has the scope in hand. */
  ghost predicate InHand(s: State, scope: string) {
    (exists scan :: scan in s.scans && scan.scope == scope) || (exists shot :: shot in s.flight && shot.scope == scope)
  }

  /** No task takes up a scope that another one has in hand. */
  ghost predicate IsCalm(run: seq<Action>)
    requires IsRun(run)
    decreases |run|
  {
    run == [] ||
    (IsCalm(run[..|run| - 1]) &&
     (run[|run| - 1].Look? ==> !InHand(After(run[..|run| - 1]), run[|run| - 1].scope)))
  }

  ghost predicate Known(s: State, scopes: set<string>) {
    && (forall x :: x in s.todo ==> x in scopes)
    && (forall scan :: scan in s.scans ==> scan.scope in scopes)
    && (forall shot :: shot in s.flight ==> shot.scope in scopes)
    && (forall a :: a in s.mapping ==> a in scopes && a != "")
  }

  lemma {:induction false} AppsAreScopes(instances: seq<Labels>, a: string)
    requires a in AppsOf(instances)
    ensures a in ChangedScopes(instances) && a != ""
  {
    AppsOfMembers(instances, a);
    var i :| 0 <= i < |instances| && AppOf(instances[i]) == a;
    assert instances[i] in instances;
  }

  lemma {:induction false} NextKeepsKnown(s: State, a: Action, scopes: set<string>)
    requires Known(s, scopes) && Enabled(s, a)
    requires a.Receive? ==> ChangedScopes(a.instances) <= scopes
    ensures Known(Next(s, a), scopes)
  {
    if a.Receive? {
      forall x | x in AppsOf(a.instances)
        ensures x in scopes && x != ""
      {
        AppsAreScopes(a.instances, x);
      }
    }
  }

  // ----- what the last task intends -----

  /** What the last of the scope's tasks to end had collected. */
  ghost function LastEnded(run: seq<Action>, x: string): Option<set<string>> {
    if run == [] then None
    else
      var a := run[|run| - 1];
      if a.Write? && a.shot.scope == x then Some(a.shot.services) else LastEnded(run[..|run| - 1], x)
  }

  /** A scope not waiting to be looked up is current: with the task that is about to write it, or with
      the one that ended last. */
  ghost predicate Current(s: State, x: string, ended: Option<set<string>>) {
    x in s.todo ||
    ((forall scan :: scan in s.scans && scan.scope == x ==> scan.atStart == Scoped(s.mapping, x))
     && (forall shot :: shot in s.flight && shot.scope == x ==> shot.services == Scoped(s.mapping, x))
     && (InHand(s, x) || (ended.Some? && ended.value == Scoped(s.mapping, x))))
  }

  lemma {:induction false} NextKeepsCurrent(s: State, a: Action, x: string, ended: Option<set<string>>)
    requires Enabled(s, a) && (a.Look? ==> !InHand(s, a.scope))
    requires x in s.mapping ==> Current(s, x, ended)
    requires x in Next(s, a).mapping
    ensures Current(Next(s, a), x, if a.Write? && a.shot.scope == x then Some(a.shot.services) else ended)
  {
    match a
    case Receive(service, instances, _) => ReceiveKeepsCurrent(s, a, x, ended);
    case Look(scope) => LookKeepsCurrent(s, scope, x, ended);
    case Finish(scan, services) => FinishKeepsCurrent(s, scan, services, x, ended);
    case Write(shot, list, seen) => WriteKeepsCurrent(s, a, x, ended);
  }

  lemma {:induction false} ReceiveKeepsCurrent(s: State, a: Action, x: string, ended: Option<set<string>>)
    requires a.Receive? && Enabled(s, a) && (x in s.mapping ==> Current(s, x, ended)) && x in Next(s, a).mapping
    ensures Current(Next(s, a), x, ended)
  {
    if x in AppsOf(a.instances) {
      AppsAreScopes(a.instances, x);
    } else {
      assert Scoped(Next(s, a).mapping, x) == Scoped(s.mapping, x);
    }
  }

  lemma {:induction false} LookKeepsCurrent(s: State, scope: string, x: string, ended: Option<set<string>>)
    requires Enabled(s, Look(scope)) && !InHand(s, scope) && Current(s, x, ended)
    ensures Current(Next(s, Look(scope)), x, ended)
  {
    var t := Next(s, Look(scope));
    if x == scope {
      assert Scan(x, Scoped(s.mapping, x)) in t.scans;
    } else if x !in s.todo {
      if scan :| scan in s.scans && scan.scope == x {
        assert scan in t.scans;
      }
    }
  }

  lemma {:induction false} FinishKeepsCurrent(s: State, scan: Scan, services: set<string>, x: string,
                                              ended: Option<set<string>>)
    requires Enabled(s, Finish(scan, services)) && Current(s, x, ended)
    ensures Current(Next(s, Finish(scan, services)), x, ended)
  {
    var t := Next(s, Finish(scan, services));
    if x !in s.todo {
      if scan.scope == x {
        assert services == Scoped(s.mapping, x);
        assert Snapshot(x, services) in t.flight;
      } else {
        if other :| other in s.scans && other.scope == x {
          assert other in t.scans;
        }
        if shot :| shot in s.flight && shot.scope == x {
          assert shot in t.flight;
        }
      }
    }
  }

  lemma {:induction false} WriteKeepsCurrent(s: State, a: Action, x: string, ended: Option<set<string>>)
    requires a.Write? && Enabled(s, a) && Current(s, x, ended)
    ensures Current(Next(s, a), x, if a.shot.scope == x then Some(a.shot.services) else ended)
  {
    if x !in s.todo && a.shot.scope != x {
      if other :| other in s.flight && other.scope == x {
        assert other in Next(s, a).flight;
      }
    }
  }

  // ----- one task at a time -----

  ghost predicate AtMostOne<T(!new)>(bag: seq<T>, p: T -> bool) {
    forall i, j :: 0 <= i < j < |bag| ==> !p(bag[i]) || !p(bag[j])
  }

  lemma {:induction false} WithoutTheOne<T(!new)>(bag: seq<T>, e: T, p: T -> bool)
    requires e in bag && AtMostOne(bag, p)
    ensures AtMostOne(Without(bag, e), p)
    ensures p(e) ==> forall y :: y in Without(bag, e) ==> !p(y)
  {
    if bag[0] != e {
      WithoutTheOne(bag[1..], e, p);
      var rest := Without(bag[1..], e);
      forall j | 0 <= j < |rest|
        ensures !p(bag[0]) || !p(rest[j])
      {
        assert rest[j] in bag[1..];
      }
      assert Without(bag, e) == [bag[0]] + rest;
    }
  }

  ghost function ScanOf(x: string): Scan -> bool { (scan: Scan) => scan.scope == x }

  ghost function ShotOf(x: string): Snapshot -> bool { (shot: Snapshot) => shot.scope == x }

  /** At most one task has the scope in hand. */
  ghost predicate Alone(s: State, x: string) {
    && AtMostOne(s.scans, ScanOf(x)) && AtMostOne(s.flight, ShotOf(x))
    && forall scan, shot :: scan in s.scans && shot in s.flight ==> scan.scope != x || shot.scope != x
  }

  lemma {:induction false} NextKeepsAlone(s: State, a: Action, x: string)
    requires Enabled(s, a) && Alone(s, x) && (a.Look? ==> !InHand(s, a.scope))
    ensures Alone(Next(s, a), x)
  {
    match a
    case Receive(_, _, _) =>
    case Look(scope) =>
    case Finish(scan, services) => WithoutTheOne(s.scans, scan, ScanOf(x));
    case Write(shot, list, seen) => WithoutTheOne(s.flight, shot, ShotOf(x));
  }

  // ----- the versions of an object -----

  function Members(list: seq<string>): set<string> { set y | y in list }

  /** What the current version lists. */
  function Listed(versions: seq<seq<string>>): set<string> {
    if versions == [] then {} else Members(versions[|versions| - 1])
  }

  ghost predicate Growing(versions: seq<seq<string>>) {
    && (forall i :: 0 <= i < |versions| ==> Increasing(versions[i]))
    && (forall i, j :: 0 <= i <= j < |versions| ==> Members(versions[i]) <= Members(versions[j]))
  }

  /** The versions of the scope's object only grow, and no task will write less than the current one. */
  ghost predicate Grown(s: State, x: string) {
    var versions := VersionsOf(s, FormatToDNS1123(x));
    && Growing(versions) && Listed(versions) <= Scoped(s.mapping, x)
    && (forall scan :: scan in s.scans && scan.scope == x ==> Listed(versions) <= scan.atStart)
    && (forall shot :: shot in s.flight && shot.scope == x ==>
         Listed(versions) <= shot.services <= Scoped(s.mapping, x))
  }

  lemma {:induction false} WrittenGrows(versions: seq<seq<string>>, list: seq<string>, seen: Option<nat>)
    requires Growing(versions) && Increasing(list) && Listed(versions) <= Members(list)
    requires seen.Some? ==> seen.value <= |versions|
    ensures Growing(Written(versions, list, seen)) && Listed(Written(versions, list, seen)) <= Members(list)
  {
    var after := versions + [list];
    forall i | 0 <= i < |versions|
      ensures Members(after[i]) <= Members(list)
    {
      assert Members(versions[i]) <= Members(versions[|versions| - 1]);
    }
  }

  lemma {:induction false} NextKeepsGrown(s: State, a: Action, scopes: set<string>, x: string)
    requires Separate(scopes) && Known(s, scopes) && Enabled(s, a) && x in scopes
    requires Alone(s, x) && Grown(s, x)
    ensures Grown(Next(s, a), x)
  {
    match a
    case Receive(service, instances, _) => assert Scoped(s.mapping, x) <= Scoped(Next(s, a).mapping, x);
    case Look(scope) =>
    case Finish(scan, services) =>
    case Write(shot, list, seen) =>
      WithoutTheOne(s.flight, shot, ShotOf(x));
      if shot.scope == x {
        assert Members(list) == shot.services;
        WrittenGrows(VersionsOf(s, FormatToDNS1123(x)), list, seen);
        assert forall other :: other in Next(s, a).flight ==> !ShotOf(x)(other);
      } else {
        assert FormatToDNS1123(shot.scope) != FormatToDNS1123(x);
      }
  }

  /** A write is lost when it is refused and the object did not list the wanted services already. */
  predicate Lost(versions: seq<seq<string>>, list: seq<string>, seen: Option<nat>)
    requires seen.Some? ==> seen.value <= |versions|
  {
    Refused(versions, list, seen) && (versions == [] || versions[|versions| - 1] != list)
  }

  /** In particular, a task that changes nothing because an old version lists the same loses nothing. */
  lemma {:induction false} LostExactly(versions: seq<seq<string>>, list: seq<string>, seen: Option<nat>)
    requires Growing(versions) && Increasing(list) && Listed(versions) <= Members(list)
    requires seen.Some? ==> seen.value <= |versions|
    ensures var after := Written(versions, list, seen);
      after != [] && after[|after| - 1] == list <==> !Lost(versions, list, seen)
  {
    if seen.Some? && Unchanged(versions, list, seen.value) {
      var last := versions[|versions| - 1];
      assert Members(versions[seen.value - 1]) <= Members(last);
      assert forall y :: y in last <==> y in Members(last);
      assert forall y :: y in list <==> y in Members(list);
      IncreasingIsUnique(last, list);
    }
  }

  // ----- settling -----

  /** The write of the scope's last task to end was lost. */
  ghost predicate LastWasLost(run: seq<Action>, x: string)
    requires IsRun(run)
    decreases |run|
  {
    run != [] &&
    var before, a := run[..|run| - 1], run[|run| - 1];
    if a.Write? && a.shot.scope == x then Lost(VersionsOf(After(before), FormatToDNS1123(x)), a.list, a.seen)
    else LastWasLost(before, x)
  }

  /** The object is what the scope's last task intended, unless its write was lost. */
  ghost predicate Decided(run: seq<Action>, x: string)
    requires IsRun(run)
  {
    var versions, ended := VersionsOf(After(run), FormatToDNS1123(x)), LastEnded(run, x);
    ended.Some? ==>
      (versions != [] && IsEnumeration(versions[|versions| - 1], ended.value) <==> !LastWasLost(run, x))
  }

  lemma {:induction false} WriteDecides(run: seq<Action>, x: string)
    requires IsRun(run) && run != [] && run[|run| - 1].Write? && run[|run| - 1].shot.scope == x && x != ""
    requires Alone(After(run[..|run| - 1]), x) && Grown(After(run[..|run| - 1]), x)
    ensures Decided(run, x)
  {
    var s, a := After(run[..|run| - 1]), run[|run| - 1];
    var versions := VersionsOf(s, FormatToDNS1123(x));
    assert |FormatToDNS1123(x)| > 0;
    assert Members(a.list) == a.shot.services;
    LostExactly(versions, a.list, a.seen);
    var after := Written(versions, a.list, a.seen);
    if after != [] && IsEnumeration(after[|after| - 1], a.shot.services) {
      EnumerationIsUnique(after[|after| - 1], a.list, a.shot.services);
    }
  }

  /** Calm runs keep all of it. */
  ghost predicate CalmInv(run: seq<Action>, scopes: set<string>)
    requires IsRun(run)
  {
    var s := After(run);
    && Known(s, scopes)
    && (forall x :: x in scopes ==> Alone(s, x) && Grown(s, x) && (x != "" ==> Decided(run, x)))
    && (forall x :: x in s.mapping ==> Current(s, x, LastEnded(run, x)))
  }

  lemma {:induction false} NextKeepsVersions(s: State, a: Action, name: string)
    requires Enabled(s, a) && (a.Write? ==> FormatToDNS1123(a.shot.scope) != name)
    ensures VersionsOf(Next(s, a), name) == VersionsOf(s, name)
  {
  }

  lemma {:induction false} StepKeepsDecided(run: seq<Action>, scopes: set<string>, x: string)
    requires IsRun(run) && run != [] && Separate(scopes) && Known(After(run[..|run| - 1]), scopes)
    requires x in scopes && x != "" && Decided(run[..|run| - 1], x)
    requires Alone(After(run[..|run| - 1]), x) && Grown(After(run[..|run| - 1]), x)
    ensures Decided(run, x)
  {
    var a := run[|run| - 1];
    if a.Write? && a.shot.scope == x {
      WriteDecides(run, x);
    } else {
      assert a.Write? ==> a.shot in After(run[..|run| - 1]).flight;
      NextKeepsVersions(After(run[..|run| - 1]), a, FormatToDNS1123(x));
      assert LastEnded(run, x) == LastEnded(run[..|run| - 1], x);
      assert LastWasLost(run, x) == LastWasLost(run[..|run| - 1], x);
    }
  }

  lemma {:induction false} StepKeepsScope(run: seq<Action>, scopes: set<string>, x: string)
    requires IsRun(run) && run != [] && Separate(scopes) && CalmInv(run[..|run| - 1], scopes) && x in scopes
    requires run[|run| - 1].Look? ==> !InHand(After(run[..|run| - 1]), run[|run| - 1].scope)
    ensures Alone(After(run), x) && Grown(After(run), x) && (x != "" ==> Decided(run, x))
  {
    var s, a := After(run[..|run| - 1]), run[|run| - 1];
    NextKeepsAlone(s, a, x);
    NextKeepsGrown(s, a, scopes, x);
    if x != "" {
      StepKeepsDecided(run, scopes, x);
    }
  }

  lemma {:induction false} CalmRunsKeepInv(run: seq<Action>, scopes: set<string>)
    requires IsRun(run) && Within(run, scopes) && Separate(scopes) && IsCalm(run)
    ensures CalmInv(run, scopes)
  {
    if run == [] {
    } else {
      var n := |run| - 1;
      assert forall i :: 0 <= i < n ==> run[..n][i] == run[i];
      CalmRunsKeepInv(run[..n], scopes);
      var s := After(run[..n]);
      NextKeepsKnown(s, run[n], scopes);
      forall x | x in scopes
        ensures Alone(After(run), x) && Grown(After(run), x) && (x != "" ==> Decided(run, x))
      {
        StepKeepsScope(run, scopes, x);
      }
      forall x | x in After(run).mapping
        ensures Current(After(run), x, LastEnded(run, x))
      {
        NextKeepsCurrent(s, run[n], x, LastEnded(run[..n], x));
      }
    }
  }

  predicate Settled(s: State) { s.todo == [] && s.scans == [] && s.flight == [] }

  /** The object of the application lists exactly the services seen with it. */
  ghost predicate IsRight(run: seq<Action>, app: string)
    requires IsRun(run)
  {
    var versions := VersionsOf(After(run), FormatToDNS1123(app));
    && versions != [] && Increasing(versions[|versions| - 1])
    && forall service :: service in versions[|versions| - 1] <==> Seen(run, app, service)
  }

  lemma {:induction false} RightIsEnumeration(run: seq<Action>, app: string)
    requires IsRun(run)
    ensures var versions := VersionsOf(After(run), FormatToDNS1123(app));
      IsRight(run, app) <==>
        versions != [] && IsEnumeration(versions[|versions| - 1], Scoped(After(run).mapping, app))
  {
    forall service
      ensures service in Scoped(After(run).mapping, app) <==> Seen(run, app, service)
    {
      RelationIsExact(run, app, service);
    }
  }

  /** When all tasks are done, a scope's object enumerates exactly the services seen with that
      application if and only if the write of the scope's last task was not lost, provided that scopes
      differ in their object names and that no two tasks had one scope in hand. Events may arrive at any
      time, also while a task is ranging over the scope, and reads may be of any age. */
  lemma {:induction false} AccessorsSettle(run: seq<Action>, scopes: set<string>, app: string)
    requires IsRun(run) && Within(run, scopes) && Separate(scopes) && IsCalm(run)
    requires Settled(After(run)) && app in After(run).mapping
    ensures IsRight(run, app) <==> !LastWasLost(run, app)
  {
    CalmRunsKeepInv(run, scopes);
    SettledAfterLast(After(run), app, LastEnded(run, app));
    assert Decided(run, app);
    RightIsEnumeration(run, app);
  }

  lemma {:induction false} SettledAfterLast(s: State, x: string, ended: Option<set<string>>)
    requires Settled(s) && Current(s, x, ended)
    ensures ended.Some? && ended.value == Scoped(s.mapping, x)
  {
  }

  /** Every last attempt of a task has read the object as it was. */
  ghost predicate ReadsAreFresh(run: seq<Action>)
    requires IsRun(run)
    decreases |run|
  {
    run == [] ||
    var before, a := run[..|run| - 1], run[|run| - 1];
    ReadsAreFresh(before) &&
    (a.Write? ==> a.seen.Some? && a.seen.value == |VersionsOf(After(before), FormatToDNS1123(a.shot.scope))|)
  }

  lemma {:induction false} FreshIsNotLost(run: seq<Action>, x: string)
    requires IsRun(run) && ReadsAreFresh(run)
    ensures !LastWasLost(run, x)
  {
    if run != [] {
      FreshIsNotLost(run[..|run| - 1], x);
    }
  }

  /** With a cache that keeps up nothing is lost. */
  lemma {:induction false} FreshReadsSettle(run: seq<Action>, scopes: set<string>, app: string)
    requires IsRun(run) && Within(run, scopes) && Separate(scopes) && IsCalm(run) && ReadsAreFresh(run)
    requires Settled(After(run)) && app in After(run).mapping
    ensures IsRight(run, app)
  {
    AccessorsSettle(run, scopes, app);
    FreshIsNotLost(run, app);
  }
}
