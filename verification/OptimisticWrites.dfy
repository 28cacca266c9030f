/** How the event handler writes a ConfiguredService (ReplaceInstances in
    pkg/adapter/handler/kube_singlecluster_handler.go:70-96): read, possibly from a stale cache, then
    create or update with the version read, retried on conflict, amid other writers. */
module OptimisticWrites {
  import opened Wrappers

  /** `meta` is everything of the object but its spec. */
  datatype Stored<M, S> = Absent | Present(meta: M, spec: S)

  datatype Author = Other | Created(task: nat) | UpdatedFrom(task: nat, version: nat)

  datatype Entry<M, S> = Entry(stored: Stored<M, S>, author: Author)

  /** Where a handler call is: about to read, holding a version, or finished. */
  datatype Phase = Reading | Holding(version: nat) | Committed | Failed

  /** `want` is the spec the event was converted to. */
  datatype Task<S> = Task(want: S, phase: Phase, attempts: nat)

  /** The object's versions, the last one current, and all handler calls so far. */
  datatype System<M, S> = System(log: seq<Entry<M, S>>, tasks: seq<Task<S>>)

  datatype Action<M, S> = Write(stored: Stored<M, S>) | Begin(want: S) | Get(task: nat, version: nat) | Put(task: nat)

  /** retry.DefaultRetry allows five attempts. */
  const ATTEMPTS := 5

  function Current<M, S>(log: seq<Entry<M, S>>): Stored<M, S>
    requires log != []
  {
    log[|log| - 1].stored
  }

  predicate Enabled<M, S>(y: System<M, S>, a: Action<M, S>) {
    y.log != [] &&
    match a
    case Write(_) => true
    case Begin(_) => true
    case Get(i, v) => i < |y.tasks| && y.tasks[i].phase.Reading? && v < |y.log|
    case Put(i) => i < |y.tasks| && y.tasks[i].phase.Holding? && y.tasks[i].phase.version < |y.log|
  }

  /** What the API server appends for the task holding version v, if it accepts the write: creation
      needs the object to be absent, an update needs v to be current. `initial` is the metadata of a
      newly created object. */
  function Accepted<M, S>(initial: M, log: seq<Entry<M, S>>, i: nat, v: nat, want: S): Option<Entry<M, S>>
    requires v < |log|
  {
    if log[v].stored.Absent? then
      if Current(log).Absent? then Some(Entry(Present(initial, want), Created(i))) else None
    else if v == |log| - 1 then Some(Entry(Present(log[v].stored.meta, want), UpdatedFrom(i, v)))
    else None
  }

  /** A refused write is retried only on a conflict: not when the object exists already (create) or no
      longer exists (update), and not after the last attempt. */
  predicate Retries<M, S>(log: seq<Entry<M, S>>, v: nat, attempts: nat)
    requires v < |log|
  {
    log[v].stored.Present? && Current(log).Present? && attempts + 1 < ATTEMPTS
  }

  function Next<M, S>(initial: M, y: System<M, S>, a: Action<M, S>): System<M, S>
    requires Enabled(y, a)
  {
    match a
    case Write(o) => y.(log := y.log + [Entry(o, Other)])
    case Begin(want) => y.(tasks := y.tasks + [Task(want, Reading, 0)])
    case Get(i, v) => y.(tasks := y.tasks[i := y.tasks[i].(phase := Holding(v))])
    case Put(i) =>
      var t := y.tasks[i];
      match Accepted(initial, y.log, i, t.phase.version, t.want)
      case Some(e) => System(y.log + [e], y.tasks[i := t.(phase := Committed)])
      case None =>
        y.(tasks := y.tasks[i := t.(phase := if Retries(y.log, t.phase.version, t.attempts) then Reading else Failed,
                                    attempts := t.attempts + 1)])
  }

  predicate IsRun<M, S>(initial: M, y: System<M, S>, run: seq<Action<M, S>>)
    decreases |run|
  {
    run == [] || (Enabled(y, run[0]) && IsRun(initial, Next(initial, y, run[0]), run[1..]))
  }

  function Run<M, S>(initial: M, y: System<M, S>, run: seq<Action<M, S>>): System<M, S>
    requires IsRun(initial, y, run)
    decreases |run|
  {
    if run == [] then y else Run(initial, Next(initial, y, run[0]), run[1..])
  }

  function Start<M, S>(o: Stored<M, S>): System<M, S> { System([Entry(o, Other)], []) }

  // ----- every entry -----

  predicate By(a: Author, i: nat) { !a.Other? && a.task == i }

  /** Entry k is justified: a handler call's update carries its converted spec and the metadata of the
      version it read, which is the one directly before. */
  ghost predicate Justified<M, S>(initial: M, y: System<M, S>, k: nat)
    requires k < |y.log|
  {
    match y.log[k].author
    case Other => true
    case Created(i) =>
      i < |y.tasks| && 0 < k && y.log[k - 1].stored.Absent? &&
      y.log[k].stored == Present(initial, y.tasks[i].want)
    case UpdatedFrom(i, v) =>
      && i < |y.tasks| && 0 < k && v == k - 1 && y.log[v].stored.Present?
      && y.log[k].stored == Present(y.log[v].stored.meta, y.tasks[i].want)
  }

  /** A call has written once if it is committed, and never otherwise. */
  ghost predicate WritesOnce<M, S>(y: System<M, S>, i: nat)
    requires i < |y.tasks|
  {
    && (y.tasks[i].phase.Committed? ==> exists k :: 0 <= k < |y.log| && By(y.log[k].author, i))
    && (forall k :: 0 <= k < |y.log| && By(y.log[k].author, i) ==> y.tasks[i].phase.Committed?)
    && (forall j, k :: 0 <= j < |y.log| && 0 <= k < |y.log| && By(y.log[j].author, i) && By(y.log[k].author, i) ==>
         j == k)
  }

  ghost predicate Inv<M, S>(initial: M, y: System<M, S>) {
    && y.log != []
    && (forall k :: 0 <= k < |y.log| ==> Justified(initial, y, k))
    && (forall i :: 0 <= i < |y.tasks| ==> WritesOnce(y, i) && y.tasks[i].attempts <= ATTEMPTS)
    && (forall i :: 0 <= i < |y.tasks| && (y.tasks[i].phase.Reading? || y.tasks[i].phase.Holding?) ==>
         y.tasks[i].attempts < ATTEMPTS)
  }

  lemma {:induction false} NextKeepsJustified<M, S>(initial: M, y: System<M, S>, a: Action<M, S>, k: nat)
    requires Inv(initial, y) && Enabled(y, a) && k < |Next(initial, y, a).log|
    ensures Justified(initial, Next(initial, y, a), k)
  {
    if k < |y.log| {
      assert Justified(initial, y, k);
    }
  }

  lemma {:induction false} NextKeepsWritesOnce<M, S>(initial: M, y: System<M, S>, a: Action<M, S>, i: nat)
    requires Inv(initial, y) && Enabled(y, a) && i < |Next(initial, y, a).tasks|
    ensures WritesOnce(Next(initial, y, a), i)
  {
    var z := Next(initial, y, a);
    assert forall k :: 0 <= k < |y.log| ==> z.log[k] == y.log[k];
    if i < |y.tasks| {
      assert WritesOnce(y, i);
      if z.tasks[i].phase.Committed? {
        if y.tasks[i].phase.Committed? {
          var k :| 0 <= k < |y.log| && By(y.log[k].author, i);
          assert By(z.log[k].author, i);
        } else {
          assert By(z.log[|y.log|].author, i);
        }
      }
    } else {
      forall k | 0 <= k < |z.log|
        ensures !By(z.log[k].author, i)
      {
        assert Justified(initial, y, k);
      }
    }
  }

  lemma {:induction false} NextKeepsInv<M, S>(initial: M, y: System<M, S>, a: Action<M, S>)
    requires Inv(initial, y) && Enabled(y, a)
    ensures Inv(initial, Next(initial, y, a))
  {
    var z := Next(initial, y, a);
    forall k | 0 <= k < |z.log|
      ensures Justified(initial, z, k)
    {
      NextKeepsJustified(initial, y, a, k);
    }
    forall i | 0 <= i < |z.tasks|
      ensures WritesOnce(z, i)
    {
      NextKeepsWritesOnce(initial, y, a, i);
    }
  }

  lemma {:induction false} RunKeepsInv<M, S>(initial: M, y: System<M, S>, run: seq<Action<M, S>>)
    requires Inv(initial, y) && IsRun(initial, y, run)
    ensures Inv(initial, Run(initial, y, run))
    decreases |run|
  {
    if run != [] {
      NextKeepsInv(initial, y, run[0]);
      RunKeepsInv(initial, Next(initial, y, run[0]), run[1..]);
    }
  }

  /** Under every interleaving: each write of a handler call is its converted event on top of exactly
      the version it read, which nobody has touched in between; no call writes twice, and a call that
      gives up or is unfinished has written nothing. */
  lemma {:induction false} NoUnreadWriteIsLost<M, S>(initial: M, o: Stored<M, S>, run: seq<Action<M, S>>)
    requires IsRun(initial, Start(o), run)
    ensures var y := Run(initial, Start(o), run);
      && (forall k :: 0 <= k < |y.log| ==> Justified(initial, y, k))
      && (forall i :: 0 <= i < |y.tasks| ==> WritesOnce(y, i) && y.tasks[i].attempts <= ATTEMPTS)
  {
    RunKeepsInv(initial, Start(o), run);
  }

  lemma {:induction false} RunCons<M, S>(initial: M, y: System<M, S>, a: Action<M, S>, rest: seq<Action<M, S>>)
    requires Enabled(y, a) && IsRun(initial, Next(initial, y, a), rest)
    ensures IsRun(initial, y, [a] + rest)
    ensures Run(initial, y, [a] + rest) == Run(initial, Next(initial, y, a), rest)
  {
  }

  /** A call on its own, whose one attempt reads version v. */
  lemma {:induction false} OneCall<M, S>(initial: M, y: System<M, S>, want: S, v: nat, rest: seq<Action<M, S>>)
    returns (run: seq<Action<M, S>>, z: System<M, S>)
    requires v < |y.log|
    ensures z == Next(initial, y.(tasks := y.tasks + [Task(want, Holding(v), 0)]), Put(|y.tasks|))
    ensures IsRun(initial, z, rest) ==> IsRun(initial, y, run) && Run(initial, y, run) == Run(initial, z, rest)
  {
    var i := |y.tasks|;
    var y1 := Next(initial, y, Begin(want));
    var y2 := Next(initial, y1, Get(i, v));
    assert y2 == y.(tasks := y.tasks + [Task(want, Holding(v), 0)]);
    z := Next(initial, y2, Put(i));
    run := [Begin(want)] + ([Get(i, v)] + ([Put(i)] + rest));
    if IsRun(initial, z, rest) {
      RunCons(initial, y2, Put(i), rest);
      RunCons(initial, y1, Get(i, v), [Put(i)] + rest);
      RunCons(initial, y, Begin(want), [Get(i, v)] + ([Put(i)] + rest));
    }
  }

  /** Two calls, one strictly after the other. The second still reads that there is no object, gives up,
      and its event is never written. */
  lemma {:induction false} StaleReadGivesUp<M, S>(initial: M, first: S, second: S) returns (run: seq<Action<M, S>>)
    ensures IsRun(initial, Start(Absent), run)
    ensures var y := Run(initial, Start(Absent), run);
      && y.log != [] && Current(y.log) == Present(initial, first)
      && y.tasks == [Task(first, Committed, 0), Task(second, Failed, 1)]
  {
    var y := System([Entry(Absent, Other), Entry(Present(initial, first), Created(0))], [Task(first, Committed, 0)]);
    var rest, z := OneCall(initial, y, second, 0, []);
    assert z == y.(tasks := [Task(first, Committed, 0), Task(second, Failed, 1)]);
    var once;
    run, once := OneCall(initial, Start(Absent), first, 0, rest);
    assert once == y;
  }

  // ----- the metadata -----

  /** The metadata most recently set by anybody but an update of the handler. */
  function LastMeta<M, S>(log: seq<Entry<M, S>>): Option<M> {
    if log == [] then None
    else
      var e := log[|log| - 1];
      if e.author.UpdatedFrom? then LastMeta(log[..|log| - 1])
      else if e.stored.Present? then Some(e.stored.meta)
      else None
  }

  function MetaOf<M, S>(o: Stored<M, S>): Option<M> { if o.Present? then Some(o.meta) else None }

  /** In every run every version of the object has the metadata that its other writers, or its creation,
      gave it last. */
  lemma {:induction false} MetadataIsKept<M, S>(initial: M, o: Stored<M, S>, run: seq<Action<M, S>>, n: nat)
    requires IsRun(initial, Start(o), run) && 0 < n <= |Run(initial, Start(o), run).log|
    ensures var log := Run(initial, Start(o), run).log; LastMeta(log[..n]) == MetaOf(log[n - 1].stored)
  {
    RunKeepsInv(initial, Start(o), run);
    MetadataIn(initial, Run(initial, Start(o), run), n);
  }

  lemma {:induction false} MetadataIn<M, S>(initial: M, y: System<M, S>, n: nat)
    requires Inv(initial, y) && 0 < n <= |y.log|
    ensures LastMeta(y.log[..n]) == MetaOf(y.log[n - 1].stored)
  {
    assert y.log[..n][..n - 1] == y.log[..n - 1];
    assert Justified(initial, y, n - 1);
    if y.log[n - 1].author.UpdatedFrom? {
      MetadataIn(initial, y, n - 1);
    }
  }

  // ----- the code -----

  class Server<M(0), S(0)> {
    var log: seq<Entry<M, S>>

    constructor (o: Stored<M, S>)
      ensures log == [Entry(o, Other)]
    {
      log := [Entry(o, Other)];
    }

    /** Any number of writes by anybody else. */
    method Others()
      requires log != []
      modifies this
      ensures old(log) <= log && forall k :: |old(log)| <= k < |log| ==> log[k].author.Other?
    {
      var writes: seq<Stored<M, S>> := *;
      for i := 0 to |writes|
        invariant old(log) <= log && forall k :: |old(log)| <= k < |log| ==> log[k].author.Other?
      {
        log := log + [Entry(writes[i], Other)];
      }
    }
  }

  /** One attempt of a call: the version it read, and the log when its write arrived. */
  datatype Attempt<M, S> = Attempt(seen: nat, before: seq<Entry<M, S>>) {
    predicate Valid() { seen < |before| }

    predicate FoundNothing() requires Valid() { before[seen].stored.Absent? }

    predicate NothingThere() requires Valid() { before[|before| - 1].stored.Absent? }

    /** It creates an object where there is none, or updates the version that is current. */
    predicate Succeeds() requires Valid() {
      if FoundNothing() then NothingThere() else seen == |before| - 1
    }

    /** The object has been changed, but is still there. */
    predicate Conflicts() requires Valid() { !FoundNothing() && !NothingThere() && seen < |before| - 1 }
  }

  /** When a call's attempt ends it, and how. */
  lemma {:induction false} PutOutcome<M, S>(initial: M, y: System<M, S>, i: nat)
    requires Enabled(y, Put(i))
    ensures var t, a := y.tasks[i], Attempt(y.tasks[i].phase.version, y.log);
      var z := Next(initial, y, Put(i));
      && (z.tasks[i].phase.Committed? <==> a.Succeeds())
      && (z.tasks[i].phase.Reading? <==> a.Conflicts() && t.attempts + 1 < 5)
      && (z.tasks[i].phase.Failed? <==> !a.Succeeds() && (a.Conflicts() ==> t.attempts + 1 >= 5))
      && (a.Succeeds() <==> z.log != y.log)
  {
  }

  /** Entry k was written by the call i for the wanted spec, on top of the entry before it. */
  ghost predicate WrittenBy<M, S>(initial: M, log: seq<Entry<M, S>>, k: nat, i: nat, want: S)
    requires 0 < k < |log|
  {
    || (log[k - 1].stored.Absent? && log[k] == Entry(Present(initial, want), Created(i)))
    || (log[k - 1].stored.Present? && log[k] == Entry(Present(log[k - 1].stored.meta, want), UpdatedFrom(i, k - 1)))
  }

  // ----- runs, step by step -----

  ghost predicate Reaches<M(!new), S(!new)>(initial: M, y: System<M, S>, z: System<M, S>) {
    exists run :: IsRun(initial, y, run) && Run(initial, y, run) == z
  }

  lemma {:induction false} RunSnoc<M, S>(initial: M, y: System<M, S>, run: seq<Action<M, S>>, a: Action<M, S>)
    requires IsRun(initial, y, run) && Enabled(Run(initial, y, run), a)
    ensures IsRun(initial, y, run + [a])
    ensures Run(initial, y, run + [a]) == Next(initial, Run(initial, y, run), a)
    decreases |run|
  {
    if run != [] {
      assert (run + [a])[1..] == run[1..] + [a];
      RunSnoc(initial, Next(initial, y, run[0]), run[1..], a);
    }
  }

  lemma {:induction false} ReachesStep<M(!new), S(!new)>(initial: M, y: System<M, S>, z: System<M, S>, a: Action<M, S>)
    requires Reaches(initial, y, z) && Enabled(z, a)
    ensures Reaches(initial, y, Next(initial, z, a))
  {
    var run :| IsRun(initial, y, run) && Run(initial, y, run) == z;
    RunSnoc(initial, y, run, a);
  }

  /** The log as others go on writing. */
  ghost predicate OthersOnly<M, S>(log: seq<Entry<M, S>>, more: seq<Entry<M, S>>) {
    log <= more && forall k :: |log| <= k < |more| ==> more[k].author.Other?
  }

  lemma {:induction false} ReachesOthers<M(!new), S(!new)>(initial: M, y: System<M, S>, z: System<M, S>,
                                                           more: seq<Entry<M, S>>)
    requires Reaches(initial, y, z) && z.log != [] && OthersOnly(z.log, more)
    ensures Reaches(initial, y, z.(log := more))
    decreases |more|
  {
    if more == z.log {
      assert z.(log := more) == z;
    } else {
      var n := |more| - 1;
      ReachesOthers(initial, y, z, more[..n]);
      ReachesStep(initial, y, z.(log := more[..n]), Write(more[n].stored));
      assert more == more[..n] + [more[n]];
    }
  }

  /** The entry that call i appends. */
  function NewEntry<M, S>(initial: M, log: seq<Entry<M, S>>, i: nat, want: S): Entry<M, S>
    requires log != []
  {
    var current := Current(log);
    if current.Absent? then Entry(Present(initial, want), Created(i))
    else Entry(Present(current.meta, want), UpdatedFrom(i, |log| - 1))
  }

  /** One more entry, written by the call. */
  ghost predicate Committing<M, S>(initial: M, log: seq<Entry<M, S>>, before: seq<Entry<M, S>>, i: nat, want: S) {
    before != [] && |log| == |before| + 1 && before <= log && WrittenBy(initial, log, |before|, i, want)
  }

  /** Of a call that has met nothing but conflicts. */
  function PhaseAfter(attempts: nat): Phase { if attempts < ATTEMPTS then Reading else Failed }

  /** The closure, run once. `n` attempts of the call have been conflicts. */
  method TryOnce<M(0,!new), S(0,!new)>(server: Server<M, S>, initial: M, i: nat, want: S,
                                       ghost start: System<M, S>, ghost tasks: seq<Task<S>>, ghost n: nat)
    returns (committed: bool, conflict: bool, ghost a: Attempt<M, S>)
    requires server.log != [] && |tasks| == i
    requires Reaches(initial, start, System(server.log, tasks + [Task(want, Reading, n)]))
    modifies server
    ensures a.Valid() && OthersOnly(old(server.log), a.before)
    ensures (committed <==> a.Succeeds()) && (conflict <==> a.Conflicts())
    ensures if committed then Committing(initial, server.log, a.before, i, want) else server.log == a.before
    ensures Reaches(initial, start,
      System(server.log, tasks + [if committed then Task(want, Committed, n)
                                  else Task(want, if conflict then PhaseAfter(n + 1) else Failed, n + 1)]))
  {
    ghost var y := System(server.log, tasks + [Task(want, Reading, n)]);
    server.Others();
    ReachesOthers(initial, start, y, server.log);
    var version :| 0 <= version < |server.log|;   // the cache may be behind
    var found := server.log[version].stored;
    y := Reads(initial, start, y.(log := server.log), i, version);
    server.Others();
    ReachesOthers(initial, start, y, server.log);
    y := Writes(initial, start, y.(log := server.log), i);
    a := Attempt(version, server.log);
    var current := server.log[|server.log| - 1].stored;
    if found.Absent? {
      if current.Absent? {
        server.log := server.log + [Entry(Present(initial, want), Created(i))];
      }
      return current.Absent?, false, a;
    }
    if version == |server.log| - 1 {
      server.log := server.log + [Entry(found.(spec := want), UpdatedFrom(i, version))];
      return true, false, a;
    }
    return false, current.Present?, a;
  }

  /** The closure under RetryOnConflict, with other writers in between: a run of the system in which
      call i, begun last, ends. `tasks` are the calls so far. Every attempt before the last is a
      conflict; the last one succeeds, or the call gives up because a write was refused for good or for
      the fifth conflict. */
  method ReplaceInstances<M(0,!new), S(0,!new)>(server: Server<M, S>, initial: M, i: nat, want: S,
                                                 ghost tasks: seq<Task<S>>)
    returns (committed: bool, ghost attempts: seq<Attempt<M, S>>)
    requires server.log != [] && |tasks| == i
    modifies server
    ensures 1 <= |attempts| <= 5 && forall a <- attempts :: a.Valid() && OthersOnly(old(server.log), a.before)
    ensures forall j :: 0 <= j < |attempts| - 1 ==> attempts[j].Conflicts()
    ensures var last := attempts[|attempts| - 1];
      && (committed <==> last.Succeeds())
      && (if committed then Committing(initial, server.log, last.before, i, want) else server.log == last.before)
      && (committed || last.FoundNothing() != last.NothingThere() || (last.Conflicts() && |attempts| == 5))
    ensures Reaches(initial, System(old(server.log), tasks),
      System(server.log, tasks + [if committed then Task(want, Committed, |attempts| - 1)
                                  else Task(want, Failed, |attempts|)]))
  {
    ghost var start := System(server.log, tasks);
    attempts := [];
    BeginsRun(initial, start, want);
    for attempt := 0 to ATTEMPTS
      invariant |attempts| == attempt && OthersOnly(old(server.log), server.log)
      invariant forall a <- attempts :: a.Valid() && OthersOnly(old(server.log), a.before) && a.Conflicts()
      invariant Reaches(initial, start, System(server.log, tasks + [Task(want, PhaseAfter(attempt), attempt)]))
      invariant attempts != [] ==> attempts[attempt - 1].before == server.log
    {
      ghost var a;
      var conflict;
      committed, conflict, a := TryOnce(server, initial, i, want, start, tasks, attempt);
      attempts := attempts + [a];
      if !conflict {
        return;
      }
    }
    committed := false;
  }

  lemma {:induction false} BeginsRun<M(!new), S(!new)>(initial: M, y: System<M, S>, want: S)
    requires y.log != []
    ensures Reaches(initial, y, y.(tasks := y.tasks + [Task(want, Reading, 0)]))
  {
    assert IsRun(initial, y, []) && Run(initial, y, []) == y;
    ReachesStep(initial, y, y, Begin(want));
  }

  lemma {:induction false} Reads<M(!new), S(!new)>(initial: M, start: System<M, S>, y: System<M, S>, i: nat,
                                                   version: nat)
    returns (z: System<M, S>)
    requires Reaches(initial, start, y) && |y.tasks| == i + 1 && y.tasks[i].phase.Reading? && version < |y.log|
    ensures Reaches(initial, start, z)
    ensures z == y.(tasks := y.tasks[..i] + [y.tasks[i].(phase := Holding(version))])
  {
    ReachesStep(initial, start, y, Get(i, version));
    z := Next(initial, y, Get(i, version));
    assert z.tasks == y.tasks[..i] + [y.tasks[i].(phase := Holding(version))];
  }

  lemma {:induction false} Writes<M(!new), S(!new)>(initial: M, start: System<M, S>, y: System<M, S>, i: nat)
    returns (z: System<M, S>)
    requires Reaches(initial, start, y) && |y.tasks| == i + 1 && y.log != []
    requires y.tasks[i].phase.Holding? && y.tasks[i].phase.version < |y.log|
    ensures Reaches(initial, start, z)
    ensures var t, a := y.tasks[i], Attempt(y.tasks[i].phase.version, y.log);
      z == if a.Succeeds() then System(y.log + [NewEntry(initial, y.log, i, t.want)],
                                       y.tasks[..i] + [t.(phase := Committed)])
           else y.(tasks := y.tasks[..i] + [t.(phase := if a.Conflicts() then PhaseAfter(t.attempts + 1) else Failed,
                                               attempts := t.attempts + 1)])
  {
    ReachesStep(initial, start, y, Put(i));
    z := Next(initial, y, Put(i));
    assert z.tasks == y.tasks[..i] + [z.tasks[i]];
  }
}
