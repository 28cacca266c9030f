/** The accessor relation over every interleaving of registry events and handler tasks. A task fetches
    the services of a scope as a Go map that the registry goes on changing, ranges over it without the
    registry's lock, and writes the object later still, by what an informer's cache says of it. */
module AccessorRuns {
  import opened Wrappers
  import opened Subsets
  import opened Names
  import opened Accessors

  /** A task ranging over a scope's services, with those that were there when it started. */
  datatype Scan = Scan(scope: string, atStart: set<string>)

  /** What a task has collected. */
  datatype Snapshot = Snapshot(scope: string, services: set<string>)

  /** `todo` are the scopes of notified events still to be looked up, `objects` the AccessHosts that each
      ServiceAccessor has had so far, by object name. Nobody else writes these objects. */
  datatype State = State(mapping: Mapping, todo: seq<string>, scans: seq<Scan>, flight: seq<Snapshot>,
                         objects: map<string, seq<seq<string>>>)

  /** Receive is replaceAccessorInstances; `scopes` lists the scopes the event changes in some order. Write
      ends a task: `seen` counts the versions of the object that the cache knew of at its last attempt,
      None if that failed for a reason of its own. */
  datatype Action =
    | Receive(service: string, instances: seq<Labels>, scopes: seq<string>)
    | Look(scope: string)
    | Finish(scan: Scan, services: set<string>)
    | Write(shot: Snapshot, list: seq<string>, seen: Option<nat>)

  const INIT := State(map[], [], [], [], map[])

  function VersionsOf(s: State, name: string): seq<seq<string>> { if name in s.objects then s.objects[name] else [] }

  /** A task that has seen no object creates it; one that has seen the wanted list changes nothing; any
      other updates the version it has seen. The API server accepts a creation only if there is no object,
      and an update only of the current version. */
  predicate Refused(versions: seq<seq<string>>, list: seq<string>, seen: Option<nat>)
    requires seen.Some? ==> seen.value <= |versions|
  {
    seen.None? ||
    (if seen.value == 0 then versions != [] else versions[seen.value - 1] != list && seen.value < |versions|)
  }

  predicate Unchanged(versions: seq<seq<string>>, list: seq<string>, seen: nat)
    requires seen <= |versions|
  {
    seen > 0 && versions[seen - 1] == list
  }

  function Written(versions: seq<seq<string>>, list: seq<string>, seen: Option<nat>): seq<seq<string>>
    requires seen.Some? ==> seen.value <= |versions|
  {
    if Refused(versions, list, seen) || Unchanged(versions, list, seen.value) then versions else versions + [list]
  }

  /** Ranging over a map yields every entry that is there throughout, and may or may not yield one that
      is inserted meanwhile; entries are never removed. */
  ghost predicate Enabled(s: State, a: Action) {
    match a
    case Receive(_, instances, scopes) => forall x :: x in scopes <==> x in ChangedScopes(instances)
    case Look(scope) => scope in s.todo
    case Finish(scan, services) => scan in s.scans && scan.atStart <= services <= Scoped(s.mapping, scan.scope)
    case Write(shot, list, seen) =>
      shot in s.flight && IsEnumeration(list, shot.services) &&
      (seen.Some? ==> seen.value <= |VersionsOf(s, FormatToDNS1123(shot.scope))|)
  }

  ghost function Next(s: State, a: Action): State
    requires Enabled(s, a)
  {
    match a
    case Receive(service, instances, scopes) =>
      s.(mapping := WithAccessor(s.mapping, service, AppsOf(instances)), todo := s.todo + scopes)
    case Look(scope) =>
      s.(todo := Without(s.todo, scope), scans := s.scans + [Scan(scope, Scoped(s.mapping, scope))])
    case Finish(scan, services) =>
      s.(scans := Without(s.scans, scan), flight := s.flight + [Snapshot(scan.scope, services)])
    case Write(shot, list, seen) =>
      var name := FormatToDNS1123(shot.scope);
      s.(flight := Without(s.flight, shot),
         objects := if name == "" then s.objects else s.objects[name := Written(VersionsOf(s, name), list, seen)])
  }

  ghost predicate IsRun(run: seq<Action>)
    decreases |run|, 0
  {
    run == [] || (IsRun(run[..|run| - 1]) && Enabled(After(run[..|run| - 1]), run[|run| - 1]))
  }

  ghost function After(run: seq<Action>): State
    requires IsRun(run)
    decreases |run|, 1
  {
    if run == [] then INIT else Next(After(run[..|run| - 1]), run[|run| - 1])
  }

  // ----- the relation -----

  /** Some event of the run names the service with an instance of the application. */
  ghost predicate Seen(run: seq<Action>, app: string, service: string) {
    exists i :: 0 <= i < |run| && Mentions(run[i], app, service)
  }

  predicate Mentions(a: Action, app: string, service: string) {
    a.Receive? && a.service == service && app != "" && exists l :: l in a.instances && "app" in l && l["app"] == app
  }

  lemma {:induction false} MentionsIs(a: Action, app: string, service: string)
    requires a.Receive?
    ensures Mentions(a, app, service) <==> a.service == service && app in AppsOf(a.instances)
  {
    AppsOfMembers(a.instances, app);
    if i :| 0 <= i < |a.instances| && AppOf(a.instances[i]) == app {
      assert a.instances[i] in a.instances;
    }
  }

  /** The mapping is exactly the set of pairs seen so far, whatever the order and number of the events. */
  lemma {:induction false} RelationIsExact(run: seq<Action>, app: string, service: string)
    requires IsRun(run)
    ensures service in Scoped(After(run).mapping, app) <==> Seen(run, app, service)
  {
    if run == [] {
    } else {
      var n := |run| - 1;
      RelationIsExact(run[..n], app, service);
      if run[n].Receive? {
        MentionsIs(run[n], app, service);
      }
      SeenGrows(run, app, service);
    }
  }

  lemma {:induction false} SeenGrows(run: seq<Action>, app: string, service: string)
    requires run != []
    ensures Seen(run, app, service) <==> Seen(run[..|run| - 1], app, service) || Mentions(run[|run| - 1], app, service)
  {
  }

  // ----- what is written -----

  lemma {:induction false} PrefixIsRun(run: seq<Action>, k: nat)
    requires IsRun(run) && k <= |run|
    ensures IsRun(run[..k])
  {
    if k < |run| {
      assert run[..|run| - 1][..k] == run[..k];
      PrefixIsRun(run[..|run| - 1], k);
    } else {
      assert run[..k] == run;
    }
  }

  /** The services of the scope before action k. */
  ghost function ScopedAt(run: seq<Action>, k: nat, scope: string): set<string>
    requires IsRun(run) && k <= |run|
  {
    PrefixIsRun(run, k);
    Scoped(After(run[..k]).mapping, scope)
  }

  lemma {:induction false} ScopedAtPrefix(run: seq<Action>, k: nat, scope: string)
    requires IsRun(run) && run != [] && k < |run|
    ensures IsRun(run[..|run| - 1]) && ScopedAt(run[..|run| - 1], k, scope) == ScopedAt(run, k, scope)
  {
    assert run[..|run| - 1][..k] == run[..k];
  }

  ghost predicate StartedAt(run: seq<Action>, j: nat, scan: Scan)
    requires IsRun(run)
  {
    j < |run| && run[j] == Look(scan.scope) && ScopedAt(run, j, scan.scope) == scan.atStart
  }

  /** A task of the run looked the scope up at action j, had collected the services at action k, and so
      collected all that were there at j and nothing that was not there at k. */
  ghost predicate CollectedAt(run: seq<Action>, j: nat, k: nat, shot: Snapshot)
    requires IsRun(run)
  {
    && j < k < |run| && run[j] == Look(shot.scope)
    && run[k].Finish? && run[k].scan.scope == shot.scope && run[k].services == shot.services
    && ScopedAt(run, j, shot.scope) <= shot.services <= ScopedAt(run, k, shot.scope)
  }

  ghost predicate Started(run: seq<Action>, scan: Scan)
    requires IsRun(run)
  {
    exists j :: StartedAt(run, j, scan)
  }

  ghost predicate Collected(run: seq<Action>, shot: Snapshot)
    requires IsRun(run)
  {
    exists j, k :: CollectedAt(run, j, k, shot)
  }

  lemma {:induction false} StillStarted(run: seq<Action>, scan: Scan)
    requires IsRun(run) && run != [] && Started(run[..|run| - 1], scan)
    ensures Started(run, scan)
  {
    var j :| StartedAt(run[..|run| - 1], j, scan);
    ScopedAtPrefix(run, j, scan.scope);
    assert StartedAt(run, j, scan);
  }

  lemma {:induction false} StillCollected(run: seq<Action>, shot: Snapshot)
    requires IsRun(run) && run != [] && Collected(run[..|run| - 1], shot)
    ensures Collected(run, shot)
  {
    var j, k :| CollectedAt(run[..|run| - 1], j, k, shot);
    ScopedAtPrefix(run, j, shot.scope);
    ScopedAtPrefix(run, k, shot.scope);
    assert CollectedAt(run, j, k, shot);
  }

  ghost predicate TasksAreSound(run: seq<Action>)
    requires IsRun(run)
  {
    && (forall scan :: scan in After(run).scans ==> Started(run, scan))
    && (forall shot :: shot in After(run).flight ==> Collected(run, shot))
  }

  lemma {:induction false} TaskSteps(run: seq<Action>)
    requires IsRun(run) && run != [] && TasksAreSound(run[..|run| - 1])
    ensures TasksAreSound(run)
  {
    var before, a := run[..|run| - 1], run[|run| - 1];
    forall scan | scan in After(run).scans
      ensures Started(run, scan)
    {
      if scan in After(before).scans {
        StillStarted(run, scan);
      } else {
        assert StartedAt(run, |before|, scan);
      }
    }
    forall shot | shot in After(run).flight
      ensures Collected(run, shot)
    {
      if shot in After(before).flight {
        StillCollected(run, shot);
      } else {
        var j :| StartedAt(before, j, a.scan);
        ScopedAtPrefix(run, j, shot.scope);
        assert CollectedAt(run, j, |before|, shot);
      }
    }
  }

  /** The list was written for a scope of that object name, from what a task had collected. */
  ghost predicate Justified(run: seq<Action>, name: string, list: seq<string>)
    requires IsRun(run)
  {
    exists shot: Snapshot ::
      FormatToDNS1123(shot.scope) == name && Collected(run, shot) && IsEnumeration(list, shot.services)
  }

  lemma {:induction false} StillJustified(run: seq<Action>, name: string, list: seq<string>)
    requires IsRun(run) && run != [] && Justified(run[..|run| - 1], name, list)
    ensures Justified(run, name, list)
  {
    var shot: Snapshot :| FormatToDNS1123(shot.scope) == name && Collected(run[..|run| - 1], shot) &&
      IsEnumeration(list, shot.services);
    StillCollected(run, shot);
  }

  /** Every version of every object enumerates, strictly increasing, a set between what the relation was
      when a task looked a scope of that name up and what it was when that task had finished. */
  lemma {:induction false} SpecsAreBetween(run: seq<Action>)
    requires IsRun(run)
    ensures TasksAreSound(run)
    ensures forall name, list :: list in VersionsOf(After(run), name) ==> Justified(run, name, list)
  {
    if run == [] {
    } else {
      var before, a := run[..|run| - 1], run[|run| - 1];
      SpecsAreBetween(before);
      TaskSteps(run);
      forall name, list | list in VersionsOf(After(run), name)
        ensures Justified(run, name, list)
      {
        if list in VersionsOf(After(before), name) {
          StillJustified(run, name, list);
        } else {
          StillCollected(run, a.shot);
        }
      }
    }
  }
}
