/** The debouncer (pkg/adapter/debounce/debounce.go): one goroutine selecting over a request channel,
    a one-shot timer and the channel on which a finished push reports back. */
module Debounce {
  import opened Wrappers

  /** Durations and instants are integers (nanoseconds); `merge` is Request.Merge. */
  datatype Setting<!R> = Setting(wait: int, maxWait: int, merge: (R, R) -> R)

  /** What one call of pushFn was given and when; `stamps` are the times at which the requests of the batch
      were put, `released` is the completion of the push before it. */
  datatype Push<R> = Push(value: R, batch: seq<R>, stamps: seq<int>, start: int, last: int, at: int,
                          released: Option<int>)

  /** The locals of the loop, its environment (clock, goroutines inside pushFn, free channel) and,
      in the last five fields, the history the theorems are about. */
  datatype State<R> = State(
    now: int, req: Option<R>, events: nat, start: int, last: int, timer: Option<int>, free: bool,
    running: seq<R>, tokens: nat,
    received: seq<R>, pending: seq<R>, stamps: seq<int>, pushes: seq<Push<R>>, doneAt: Option<int>)

  /** Put and Tick belong to the environment, Done is a push goroutine finishing, Free and Timer are
      the two other arms of the select statement. */
  datatype Action<R> = Put(r: R) | Timer | Free | Done(k: nat) | Tick(d: nat)

  function Max(a: int, b: int): int { if a < b then b else a }

  function Init<R>(now: int): State<R> {
    State(now, None, 0, 0, 0, None, true, [], 0, [], [], [], [], None)
  }

  function Merged<R>(c: Setting<R>, batch: seq<R>): R
    requires batch != []
  {
    if |batch| == 1 then batch[0]
    else c.merge(Merged(c, batch[..|batch| - 1]), batch[|batch| - 1])
  }

  predicate Ripe<R>(c: Setting<R>, s: State<R>) {
    s.now - s.last >= c.wait || s.now - s.start >= c.maxWait
  }

  function AfterPushWorker<R>(c: Setting<R>, s: State<R>): State<R> {
    if !Ripe(c, s) then s.(timer := Some(s.now + Max(0, c.wait - (s.now - s.last))))
    else if s.req.None? then s
    else s.(free := false, running := s.running + [s.req.value], req := None, events := 0,
            pending := [], stamps := [],
            pushes := s.pushes + [Push(s.req.value, s.pending, s.stamps, s.start, s.last, s.now, s.doneAt)])
  }

  function AfterPut<R>(c: Setting<R>, s: State<R>, r: R): State<R> {
    var first := s.events == 0;
    s.(last := s.now,
       timer := if first then Some(s.now + Max(0, c.wait)) else s.timer,
       start := if first then s.now else s.start,
       events := s.events + 1,
       req := Some(if s.req.None? then r else c.merge(s.req.value, r)),
       received := s.received + [r], pending := s.pending + [r], stamps := s.stamps + [s.now])
  }

  function AfterTimer<R>(c: Setting<R>, s: State<R>): State<R> {
    var fired := s.(timer := None);
    if s.free then AfterPushWorker(c, fired) else fired
  }

  function AfterFree<R>(c: Setting<R>, s: State<R>): State<R>
    requires s.tokens > 0
  {
    AfterPushWorker(c, s.(tokens := s.tokens - 1, free := true))
  }

  predicate Enabled<R>(s: State<R>, a: Action<R>) {
    match a
    case Put(_) => true
    case Timer => s.timer.Some? && s.timer.value <= s.now
    case Free => s.tokens > 0
    case Done(k) => k < |s.running|
    case Tick(_) => true
  }

  function Next<R>(c: Setting<R>, s: State<R>, a: Action<R>): State<R>
    requires Enabled(s, a)
  {
    match a
    case Put(r) => AfterPut(c, s, r)
    case Timer => AfterTimer(c, s)
    case Free => AfterFree(c, s)
    case Done(k) =>
      s.(running := s.running[..k] + s.running[k + 1..], tokens := s.tokens + 1, doneAt := Some(s.now))
    case Tick(d) => s.(now := s.now + d)
  }

  /** Every schedule: the select arms, the requests, the pushes and the clock interleave freely. */
  predicate IsRun<R>(c: Setting<R>, s: State<R>, acts: seq<Action<R>>)
    decreases |acts|
  {
    acts == [] || (Enabled(s, acts[0]) && IsRun(c, Next(c, s, acts[0]), acts[1..]))
  }

  function Run<R>(c: Setting<R>, s: State<R>, acts: seq<Action<R>>): State<R>
    requires IsRun(c, s, acts)
    decreases |acts|
  {
    if acts == [] then s else Run(c, Next(c, s, acts[0]), acts[1..])
  }

  /** Time passes only when no timer is overdue and no free signal is waiting. */
  predicate Urgent<R>(s: State<R>, a: Action<R>) {
    a.Tick? ==> s.tokens == 0 && (s.timer.Some? ==> s.now + a.d <= s.timer.value)
  }

  predicate IsUrgentRun<R>(c: Setting<R>, s: State<R>, acts: seq<Action<R>>)
    decreases |acts|
  {
    acts == [] ||
    (Enabled(s, acts[0]) && Urgent(s, acts[0]) && IsUrgentRun(c, Next(c, s, acts[0]), acts[1..]))
  }

  // ----- safety over all runs -----

  function Batches<R>(pushes: seq<Push<R>>): seq<R> {
    if pushes == [] then [] else Batches(pushes[..|pushes| - 1]) + pushes[|pushes| - 1].batch
  }

  /** The push was allowed: the batch had been quiet for `wait` or was `maxWait` old. */
  predicate NotEarly<R>(c: Setting<R>, p: Push<R>) {
    p.at - p.last >= c.wait || p.at - p.start >= c.maxWait
  }

  /** The clock was started by the first request and set by every later one. */
  predicate Clocked(stamps: seq<int>, start: int, last: int) {
    stamps != [] && start == stamps[0] && last == stamps[|stamps| - 1]
  }

  ghost predicate Safe<R(!new)>(c: Setting<R>, s: State<R>) {
    && s.received == Batches(s.pushes) + s.pending
    && s.events == |s.pending|
    && (s.req.None? <==> s.pending == [])
    && (s.req.Some? ==> s.req.value == Merged(c, s.pending) && Clocked(s.stamps, s.start, s.last))
    && |s.stamps| == |s.pending|
    && (forall p <- s.pushes :: p.batch != [] && p.value == Merged(c, p.batch) && NotEarly(c, p))
    && (forall p <- s.pushes :: |p.stamps| == |p.batch| && Clocked(p.stamps, p.start, p.last))
    && |s.running| + s.tokens <= 1
    && (s.free <==> |s.running| + s.tokens == 0)
    && (s.running != [] ==> s.pushes != [] && s.running[0] == s.pushes[|s.pushes| - 1].value)
    && (s.req.Some? ==> s.timer.Some? || !s.free)
  }

  lemma {:induction false} PushWorkerKeepsSafe<R(!new)>(c: Setting<R>, s: State<R>)
    requires Safe(c, s.(timer := Some(0))) && s.free
    ensures Safe(c, AfterPushWorker(c, s))
  {
  }

  lemma {:induction false} PutKeepsSafe<R(!new)>(c: Setting<R>, s: State<R>, r: R)
    requires Safe(c, s)
    ensures Safe(c, AfterPut(c, s, r))
  {
  }

  lemma {:induction false} NextKeepsSafe<R(!new)>(c: Setting<R>, s: State<R>, a: Action<R>)
    requires Safe(c, s) && Enabled(s, a)
    ensures Safe(c, Next(c, s, a))
  {
    match a
    case Put(r) => PutKeepsSafe(c, s, r);
    case Timer =>
      if s.free { PushWorkerKeepsSafe(c, s.(timer := None)); }
    case Free => PushWorkerKeepsSafe(c, s.(tokens := s.tokens - 1, free := true));
    case Done(k) =>
    case Tick(d) =>
  }

  lemma {:induction false} SafeRuns<R(!new)>(c: Setting<R>, s: State<R>, acts: seq<Action<R>>)
    requires Safe(c, s) && IsRun(c, s, acts)
    ensures Safe(c, Run(c, s, acts))
    decreases |acts|
  {
    if acts != [] {
      NextKeepsSafe(c, s, acts[0]);
      SafeRuns(c, Next(c, s, acts[0]), acts[1..]);
    }
  }

  /** Safety of every schedule from a fresh debouncer. */
  lemma {:induction false} Conservation<R(!new)>(c: Setting<R>, now: int, acts: seq<Action<R>>)
    requires IsRun(c, Init<R>(now), acts)
    ensures var s := Run(c, Init<R>(now), acts);
      && s.received == Batches(s.pushes) + s.pending
      && (forall p <- s.pushes :: p.batch != [] && p.value == Merged(c, p.batch) && NotEarly(c, p))
      && (forall p <- s.pushes :: |p.stamps| == |p.batch| && Clocked(p.stamps, p.start, p.last))
      && (s.pending != [] ==> s.req == Some(Merged(c, s.pending)))
      && |s.running| <= 1 && (s.running != [] ==> s.tokens == 0)
      && (s.pending != [] ==> s.timer.Some? || |s.running| + s.tokens == 1)
  {
    SafeRuns(c, Init<R>(now), acts);
  }

  /** `received` is the list of the requests put, in order. */
  function Puts<R>(acts: seq<Action<R>>): seq<R> {
    if acts == [] then [] else (if acts[0].Put? then [acts[0].r] else []) + Puts(acts[1..])
  }

  lemma {:induction false} ReceivedIsPuts<R>(c: Setting<R>, s: State<R>, acts: seq<Action<R>>)
    requires IsRun(c, s, acts)
    ensures Run(c, s, acts).received == s.received + Puts(acts)
    decreases |acts|
  {
    if acts != [] {
      ReceivedIsPuts(c, Next(c, s, acts[0]), acts[1..]);
    }
  }

  /** The times at which they were put. */
  function PutTimes<R>(now: int, acts: seq<Action<R>>): seq<int>
    decreases |acts|
  {
    if acts == [] then []
    else
      (if acts[0].Put? then [now] else []) + PutTimes(if acts[0].Tick? then now + acts[0].d else now, acts[1..])
  }

  function Stamps<R>(pushes: seq<Push<R>>): seq<int> {
    if pushes == [] then [] else Stamps(pushes[..|pushes| - 1]) + pushes[|pushes| - 1].stamps
  }

  /** When all the requests so far were put. */
  function AllStamps<R>(s: State<R>): seq<int> { Stamps(s.pushes) + s.stamps }

  lemma {:induction false} PushKeepsStamps<R>(c: Setting<R>, s: State<R>)
    requires s.req.None? ==> s.stamps == []
    ensures var t := AfterPushWorker(c, s); (t.req.None? ==> t.stamps == []) && AllStamps(t) == AllStamps(s)
  {
    var t := AfterPushWorker(c, s);
    if t.pushes != s.pushes {
      assert t.pushes[..|t.pushes| - 1] == s.pushes;
      assert Stamps(t.pushes) == AllStamps(s);
    }
  }

  lemma {:induction false} StampsStep<R>(c: Setting<R>, s: State<R>, a: Action<R>)
    requires Enabled(s, a) && (s.req.None? ==> s.stamps == [])
    ensures var t := Next(c, s, a);
      && (t.req.None? ==> t.stamps == [])
      && AllStamps(t) == AllStamps(s) + if a.Put? then [s.now] else []
  {
    match a
    case Put(r) => Regroup(Stamps(s.pushes), s.stamps, [s.now]);
    case Timer =>
      if s.free {
        PushKeepsStamps(c, s.(timer := None));
      }
    case Free => PushKeepsStamps(c, s.(tokens := s.tokens - 1, free := true));
    case Done(k) =>
    case Tick(d) =>
  }

  /** The stamps of the pushed batches and of the pending one are those times, in order. */
  lemma {:induction false} StampsArePutTimes<R>(c: Setting<R>, s: State<R>, acts: seq<Action<R>>)
    requires IsRun(c, s, acts) && (s.req.None? ==> s.stamps == [])
    ensures AllStamps(Run(c, s, acts)) == AllStamps(s) + PutTimes(s.now, acts)
    decreases |acts|
  {
    if acts != [] {
      var t, put := Next(c, s, acts[0]), if acts[0].Put? then [s.now] else [];
      StampsStep(c, s, acts[0]);
      StampsArePutTimes(c, t, acts[1..]);
      assert PutTimes(s.now, acts) == put + PutTimes(t.now, acts[1..]);
      Regroup(AllStamps(s), put, PutTimes(t.now, acts[1..]));
    }
  }

  lemma {:induction false} Regroup(a: seq<int>, b: seq<int>, c: seq<int>)
    ensures (a + b) + c == a + (b + c)
  {
  }

  // ----- the latency bound -----

  function Deadline<R>(c: Setting<R>, start: int): int {
    start + Max(0, c.wait) + Max(0, c.maxWait)
  }

  /** When the batch has been quiet for `wait`. */
  function QuietAt<R>(c: Setting<R>, last: int): int { last + Max(0, c.wait) }

  predicate NotLate<R>(c: Setting<R>, p: Push<R>) {
    (p.at <= Deadline(c, p.start) && p.at <= QuietAt(c, p.last)) || p.released == Some(p.at)
  }

  ghost predicate Timely<R(!new)>(c: Setting<R>, s: State<R>) {
    && (s.req.Some? ==> s.start <= s.last <= s.now)
    && (s.timer.Some? ==> s.now <= s.timer.value)
    && (s.req.Some? && s.timer.Some? ==> s.timer.value <= Deadline(c, s.start) && s.timer.value <= QuietAt(c, s.last))
    && (s.tokens > 0 ==> s.doneAt == Some(s.now))
    && (forall p <- s.pushes :: NotLate(c, p))
  }

  lemma {:induction false} NextKeepsTimely<R(!new)>(c: Setting<R>, s: State<R>, a: Action<R>)
    requires Safe(c, s) && Timely(c, s) && Enabled(s, a) && Urgent(s, a)
    ensures Timely(c, Next(c, s, a))
  {
    var t := Next(c, s, a);
    if (a.Timer? || a.Free?) && t.pushes != s.pushes {
      assert NotLate(c, t.pushes[|s.pushes|]);
    }
  }

  lemma {:induction false} TimelyRuns<R(!new)>(c: Setting<R>, s: State<R>, acts: seq<Action<R>>)
    requires Safe(c, s) && Timely(c, s) && IsUrgentRun(c, s, acts)
    ensures IsRun(c, s, acts)
    ensures Safe(c, Run(c, s, acts)) && Timely(c, Run(c, s, acts))
    decreases |acts|
  {
    if acts != [] {
      NextKeepsSafe(c, s, acts[0]);
      NextKeepsTimely(c, s, acts[0]);
      TimelyRuns(c, Next(c, s, acts[0]), acts[1..]);
    }
  }

  /** With timers and channels served at once, each batch is handed over by its deadline or at the
      very moment the previous push completes; the deadline has passed neither when the batch has been
      quiet for `wait` nor later than `maxWait` and `wait` after its start. A batch that waits with no
      push in flight is never past it. */
  lemma {:induction false} Latency<R(!new)>(c: Setting<R>, now: int, acts: seq<Action<R>>)
    requires IsUrgentRun(c, Init<R>(now), acts)
    ensures IsRun(c, Init<R>(now), acts)
    ensures var s := Run(c, Init<R>(now), acts);
      && (forall p <- s.pushes :: NotLate(c, p) && NotEarly(c, p))
      && (s.pending != [] && s.free ==> s.now <= Deadline(c, s.start) && s.now <= QuietAt(c, s.last))
  {
    TimelyRuns(c, Init<R>(now), acts);
  }

  /** When a timer fires or a push has finished, the pending batch is pushed at once if and only if no push
      is in flight and the batch has been quiet for `wait` or is `maxWait` old. */
  lemma {:induction false} PushesIff<R>(c: Setting<R>, s: State<R>, a: Action<R>)
    requires Enabled(s, a) && (a.Timer? || a.Free?)
    ensures var t := Next(c, s, a);
      if s.req.Some? && (s.free || a.Free?) && (s.now - s.last >= c.wait || s.now - s.start >= c.maxWait)
      then |t.pushes| == |s.pushes| + 1 && t.running == s.running + [s.req.value] && t.req == None
      else t.pushes == s.pushes && t.running == s.running && t.req == s.req
  {
  }

  /** A timer that has fired is not due again at once, so that the loop lets time pass. */
  lemma {:induction false} TimerFiresOnce<R>(c: Setting<R>, s: State<R>)
    requires Enabled(s, Timer)
    ensures var t := Next(c, s, Timer); t.timer.Some? ==> t.timer.value > t.now
  {
  }

  // ----- the loop itself -----

  /** The history fields. */
  datatype Past<R> = Past(received: seq<R>, pending: seq<R>, stamps: seq<int>, pushes: seq<Push<R>>,
                          doneAt: Option<int>) {
    function Put(r: R, now: int): Past<R> {
      Past(received + [r], pending + [r], stamps + [now], pushes, doneAt)
    }

    function Pushed(value: R, start: int, last: int, now: int): Past<R> {
      Past(received, [], [], pushes + [Push(value, pending, stamps, start, last, now, doneAt)], doneAt)
    }
  }

  class Debouncer<R> {
    const setting: Setting<R>
    var clock: int
    var req: Option<R>
    var debounceEvents: nat
    var startTime: int
    var lastUpdateTime: int
    var timeChan: Option<int>
    var free: bool
    var pushing: seq<R>
    var freeCh: nat
    ghost var past: Past<R>

    ghost function View(): State<R> reads this {
      State(clock, req, debounceEvents, startTime, lastUpdateTime, timeChan, free, pushing, freeCh,
            past.received, past.pending, past.stamps, past.pushes, past.doneAt)
    }

    constructor (setting: Setting<R>, now: int)
      ensures this.setting == setting && View() == Init(now)
    {
      this.setting := setting;
      clock, req, debounceEvents, startTime, lastUpdateTime := now, None, 0, 0, 0;
      timeChan, free, pushing, freeCh := None, true, [], 0;
      past := Past([], [], [], [], None);
    }

    method PushWorker()
      modifies this
      ensures View() == AfterPushWorker(setting, old(View()))
    {
      var lastUpdateDuration := clock - lastUpdateTime;
      if lastUpdateDuration >= setting.wait || clock - startTime >= setting.maxWait {
        if req.Some? {
          free := false;
          pushing := pushing + [req.value];
          past := past.Pushed(req.value, startTime, lastUpdateTime, clock);
          req, debounceEvents := None, 0;
        }
      } else {
        timeChan := Some(clock + Max(0, setting.wait - lastUpdateDuration));
      }
    }

    method OnFree()
      requires freeCh > 0
      modifies this
      ensures View() == AfterFree(setting, old(View()))
    {
      freeCh := freeCh - 1;
      free := true;
      PushWorker();
    }

    method OnRequest(r: R)
      modifies this
      ensures View() == AfterPut(setting, old(View()), r)
    {
      past := past.Put(r, clock);
      lastUpdateTime := clock;
      if debounceEvents == 0 {
        timeChan := Some(clock + Max(0, setting.wait));
        startTime := lastUpdateTime;
      }
      debounceEvents := debounceEvents + 1;
      if req.None? {
        req := Some(r);
      } else {
        req := Some(setting.merge(req.value, r));
      }
    }

    method OnTimer()
      requires timeChan.Some? && timeChan.value <= clock
      modifies this
      ensures View() == AfterTimer(setting, old(View()))
    {
      timeChan := None;
      if free {
        PushWorker();
      }
    }

    /** The for-select loop under one schedule of arms and environment steps. */
    method Start(schedule: seq<Action<R>>)
      requires IsRun(setting, View(), schedule)
      modifies this
      ensures View() == Run(setting, old(View()), schedule)
    {
      var i := 0;
      while i < |schedule|
        invariant 0 <= i <= |schedule|
        invariant IsRun(setting, View(), schedule[i..])
        invariant Run(setting, View(), schedule[i..]) == Run(setting, old(View()), schedule)
      {
        ghost var rest := schedule[i..];
        Select(schedule[i]);
        assert rest[1..] == schedule[i + 1..];
        i := i + 1;
      }
    }

    method Select(a: Action<R>)
      requires Enabled(View(), a)
      modifies this
      ensures View() == Next(setting, old(View()), a)
    {
      match a {
        case Put(r) => OnRequest(r);
        case Timer => OnTimer();
        case Free => OnFree();
        case Done(k) =>
          pushing := pushing[..k] + pushing[k + 1..];
          freeCh := freeCh + 1;
          past := past.(doneAt := Some(clock));
        case Tick(d) => clock := clock + d;
      }
    }
  }
}
