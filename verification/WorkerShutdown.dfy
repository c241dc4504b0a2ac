/** Shutdown, preemption and the worker loop of `launch_workers`
    (ai4s/jobq/orchestration/manager.py, ai4s/jobq/scheduled_events.py).

    One event is what happens between two `await` points; signals and the
    preemption poll may come between any two. `pull_and_execute` is reduced to
    the way it ends. */
module WorkerShutdown {
  import opened Basics

  // ---- events and flags shared by all workers ----

  /** `shutdown_event`, `hard_stop_event`, the two nonlocal flags, the handler's
      `_scheduled_event_initiated_by_us`, and whether the event loop was told to stop. */
  datatype Control = Control(
    shutdown: bool, hard: bool, resume: bool, passSignal: bool, initiatedByUs: bool, loopStopped: bool)

  const INITIAL := Control(false, false, true, true, false, false)

  /** The callers of `shutdown_handler`; `TimeLimit` is `timeout_shutdown`. */
  datatype Signal = SIGTERM | SIGINT | SIGUSR1 | SIGUSR2 | TimeLimit

  predicate IsHard(s: Signal) { s.SIGINT? }

  predicate MayResume(s: Signal) { s.SIGTERM? }

  predicate PassesSignal(s: Signal) { !s.SIGUSR1? }

  function ShutdownHandler(c: Control, s: Signal): Control {
    var hard := c.hard || IsHard(s);
    c.(resume := MayResume(s), passSignal := PassesSignal(s), shutdown := true,
       hard := hard || c.shutdown,
       loopStopped := c.loopStopped || (c.shutdown && hard))
  }

  /** The poll callback of `PreemptionEventHandler`. */
  function Poll(c: Control, preempted: bool, disabled: bool): Control {
    if preempted then
      if disabled then c else c.(shutdown := true, initiatedByUs := true)
    else if c.shutdown && c.initiatedByUs && !disabled then c.(shutdown := false, initiatedByUs := false)
    else c
  }

  // ---- the workers ----

  /** How `pull_and_execute` ends: it returns True or False or raises. */
  datatype Result = Success | Failure | LockLost | Canceled | Empty | Error

  /** The task running `shutdown_event.wait()`: the event was set when the iteration began, it is
      not set yet, or it was set since. */
  datatype Waiter = Immediate | Armed | Woken

  datatype End = HardOrFinal | QueueEmpty | TooManyFailures | SoftLimit | OtherError | AssertionError

  datatype Pc =
    | Top                          // at the head of the loop
    | Pulling                      // `asyncio.wait([worker_task, shutdown_event_task])`
    | ShuttingDown(pending: bool)  // `processor.shutdown()`, cancellation of pending tasks
    | Draining                     // `await worker_task` without cancelling it
    | Flushing                     // about to call `wait_for_hard_stop`
    | Bracing                      // inside it, waiting for a hard stop, a clear or the timeout
    | Resuming                     // inside it, `await processor.resume()`
    | Ended(why: End)

  datatype Worker = Worker(
    pc: Pc,
    waiter: Waiter,
    task: Option<Result>,          // how `worker_task` ended, `None` while it runs
    saw: bool,                     // history: this iteration saw the shutdown event
    late: Option<Result>,          // history: how the task ended after that, if the worker was told
    failures: nat,                 // `num_consecutive_failures`
    outcomes: seq<Result>,         // history: results of the iterations the task won
    begun: nat,                    // history: iterations begun
    finished: nat,                 // history: tasks that came to an end of their own
    lockLosses: nat,               // history: iterations that ended in `LockLostError`
    cancelled: nat,                // history: running callbacks cancelled by a shutdown
    resumed: nat)                  // history: times `wait_for_hard_stop` returned False

  const NEW_WORKER := Worker(Top, Armed, None, false, None, 0, [], 0, 0, 0, 0, 0)

  datatype State = State(control: Control, workers: seq<Worker>)

  function Launch(numWorkers: nat): State {
    State(INITIAL, seq(numWorkers, _ => NEW_WORKER))
  }

  datatype Event =
    | Signaled(signal: Signal)
    | Polled(preempted: bool)
    | Begin(i: nat, overTime: bool)
    | TaskEnds(i: nat, result: Result)
    | WaitReturns(i: nat, sawShutdown: bool)
    | ShutdownDone(i: nat, ended: Option<Result>)   // `None`: the cancelled task raised `CancelledError`
    | Drained(i: nat)
    | Flushed(i: nat)
    | BraceEnds(i: nat)
    | ResumeDone(i: nat)

  /** `max_consecutive_failures` and `JOBQ_DISABLE_SCHEDULED_EVENTS`. */
  datatype Config = Config(maxFailures: int, disabled: bool)

  predicate Enabled(s: State, e: Event) {
    match e
    case Signaled(_) => true
    case Polled(_) => !s.control.loopStopped
    case _ =>
      && !s.control.loopStopped
      && e.i < |s.workers|
      && (var w := s.workers[e.i];
          match e
          case Begin(_, _) => w.pc.Top?
          case TaskEnds(_, _) => (w.pc.Pulling? || w.pc.Draining?) && w.task.None?
          case WaitReturns(_, saw) =>
            && w.pc.Pulling?
            && (match w.waiter
                case Immediate => saw
                case Armed => !saw && w.task.Some?
                case Woken => saw || w.task.Some?)
          case ShutdownDone(_, r) => w.pc.ShuttingDown? && (!w.pc.pending ==> r.None?)
          case Drained(_) => w.pc.Draining? && w.task.Some?
          case Flushed(_) => w.pc.Flushing?
          case BraceEnds(_) => w.pc.Bracing?
          case ResumeDone(_) => w.pc.Resuming?
          case _ => false)
  }

  /** `Event.set()` completes every pending `wait()`. */
  function Wake(workers: seq<Worker>): (r: seq<Worker>)
    ensures |r| == |workers|
    ensures forall i :: 0 <= i < |r| ==>
              r[i] == if workers[i].waiter.Armed? then workers[i].(waiter := Woken) else workers[i]
  {
    seq(|workers|, i requires 0 <= i < |workers| =>
      if workers[i].waiter.Armed? then workers[i].(waiter := Woken) else workers[i])
  }

  function SetControl(s: State, c: Control): State {
    State(c, if c.shutdown then Wake(s.workers) else s.workers)
  }

  function Goto(w: Worker, pc: Pc): Worker {
    w.(pc := pc)
  }

  /** The iteration won by the task: the code after `assert worker_task in done` and its handlers. */
  function TaskWon(cfg: Config, w: Worker, r: Result): Worker {
    var v := w.(outcomes := w.outcomes + [r]);
    match r
    case Success => v.(pc := Top, failures := 0)
    case Failure =>
      v.(failures := w.failures + 1, pc := if w.failures + 1 > cfg.maxFailures then Ended(TooManyFailures) else Top)
    case _ => Raised(v, r)
  }

  /** The handlers for an exception of the worker task. */
  function Raised(w: Worker, r: Result): Worker {
    match r
    case LockLost => w.(pc := Top, lockLosses := w.lockLosses + 1)
    case Canceled => Goto(w, Flushing)
    case Empty => Goto(w, Ended(QueueEmpty))
    case Error => Goto(w, Ended(OtherError))
    case _ => Goto(w, Flushing)
  }

  function WorkerStep(cfg: Config, c: Control, w: Worker, e: Event): Worker {
    match e
    case Begin(_, overTime) =>
      if overTime then Goto(w, Ended(SoftLimit))
      else
        w.(pc := Pulling, waiter := if c.shutdown then Immediate else Armed, task := None, saw := false, late := None,
           begun := w.begun + 1)
    case TaskEnds(_, r) => w.(task := Some(r), finished := w.finished + 1)
    case WaitReturns(_, saw) =>
      if saw && c.passSignal then
        if !c.shutdown then Goto(w, Ended(AssertionError))
        else w.(pc := ShuttingDown(w.task.None?), saw := true, cancelled := w.cancelled + if w.task.None? then 1 else 0)
      else if saw then w.(pc := Draining, saw := true)
      else if w.task.Some? then TaskWon(cfg, w, w.task.value)
      else w
    case ShutdownDone(_, r) => var v := w.(late := r); if r.None? then Goto(v, Flushing) else Raised(v, r.value)
    // `await worker_task`, then `raise WorkerCanceled` whatever it returned
    case Drained(_) => var v := w.(late := w.task); if w.task.Some? then Raised(v, w.task.value) else v
    case Flushed(_) => if c.hard || !c.resume then Goto(w, Ended(HardOrFinal)) else Goto(w, Bracing)
    case BraceEnds(_) => if c.hard || !c.resume then Goto(w, Ended(HardOrFinal)) else Goto(w, Resuming)
    case ResumeDone(_) => w.(pc := Top, resumed := w.resumed + 1)
    case _ => w
  }

  function Apply(cfg: Config, s: State, e: Event): State
    requires Enabled(s, e)
  {
    match e
    case Signaled(signal) => SetControl(s, ShutdownHandler(s.control, signal))
    case Polled(preempted) => SetControl(s, Poll(s.control, preempted, cfg.disabled))
    case _ =>
      var c := s.control;
      // the checks after the wait and `shutdown_event.clear()` are one step
      var clears := e.BraceEnds? && !c.hard && c.resume;
      State(if clears then c.(shutdown := false) else c,
            s.workers[e.i := WorkerStep(cfg, c, s.workers[e.i], e)])
  }

  // ---- runs ----

  ghost predicate Run(cfg: Config, s: State, events: seq<Event>, s': State)
    decreases |events|
  {
    if events == [] then s == s'
    else
      && Enabled(s, events[0])
      && Run(cfg, Apply(cfg, s, events[0]), events[1..], s')
  }

  lemma {:induction false} RunSnoc(cfg: Config, s: State, events: seq<Event>, mid: State, e: Event)
    requires Run(cfg, s, events, mid) && Enabled(mid, e)
    ensures Run(cfg, s, events + [e], Apply(cfg, mid, e))
    decreases |events|
  {
    if events == [] {
      assert [e][1..] == [];
    } else {
      RunSnoc(cfg, Apply(cfg, s, events[0]), events[1..], mid, e);
      assert (events + [e])[1..] == events[1..] + [e];
    }
  }

  /** Extends a run by one event. */
  lemma Play(cfg: Config, s: State, events: seq<Event>, mid: State, e: Event) returns (s': State, longer: seq<Event>)
    requires Run(cfg, s, events, mid) && Enabled(mid, e)
    ensures s' == Apply(cfg, mid, e) && longer == events + [e]
    ensures Run(cfg, s, longer, s')
  {
    s', longer := Apply(cfg, mid, e), events + [e];
    RunSnoc(cfg, s, events, mid, e);
  }

  lemma WorkersStep(cfg: Config, s: State, e: Event, i: nat)
    requires Enabled(s, e) && i < |s.workers|
    ensures var s' := Apply(cfg, s, e);
            && |s'.workers| == |s.workers|
            && var w, w' := s.workers[i], s'.workers[i];
               if e.Signaled? || e.Polled? then w' == w || w' == w.(waiter := Woken)
               else if e.i == i then w' == WorkerStep(cfg, s.control, w, e)
               else w' == w
  {
  }

  // ---- hard stop ----

  /** A hard stop is never cleared; afterwards `wait_for_hard_stop` lets a worker resume only if it
      was already past its checks, in `processor.resume()`, when the event was set: at most once. */
  lemma {:induction false} HardStopIsFinal(cfg: Config, s: State, events: seq<Event>, s': State, i: nat)
    requires Run(cfg, s, events, s') && s.control.hard && i < |s.workers|
    ensures s'.control.hard && |s'.workers| == |s.workers|
    ensures s'.workers[i].resumed + (if s'.workers[i].pc.Resuming? then 1 else 0)
            <= s.workers[i].resumed + (if s.workers[i].pc.Resuming? then 1 else 0)
    decreases |events|
  {
    if events != [] {
      WorkersStep(cfg, s, events[0], i);
      HardStopIsFinal(cfg, Apply(cfg, s, events[0]), events[1..], s', i);
    }
  }

  /** Some signal of the run was SIGINT or arrived while the shutdown event was set. */
  ghost predicate HardRequested(cfg: Config, s: State, events: seq<Event>)
    decreases |events|
  {
    && events != [] && Enabled(s, events[0])
    && (|| (events[0].Signaled? && (events[0].signal == SIGINT || s.control.shutdown))
        || HardRequested(cfg, Apply(cfg, s, events[0]), events[1..]))
  }

  /** In every run that is exactly how the hard stop comes about. */
  lemma {:induction false} HardIffRequested(cfg: Config, s: State, events: seq<Event>, s': State)
    requires Run(cfg, s, events, s')
    ensures s'.control.hard <==> s.control.hard || HardRequested(cfg, s, events)
    decreases |events|
  {
    if events != [] {
      HardIffRequested(cfg, Apply(cfg, s, events[0]), events[1..], s');
    }
  }

  /** The last signal of a run was SIGTERM, or there was none. */
  function LastMayResume(events: seq<Event>): bool {
    if events == [] then true
    else
      var last := events[|events| - 1];
      if last.Signaled? then last.signal == SIGTERM else LastMayResume(events[..|events| - 1])
  }

  /** The last signal of a run was not SIGUSR1, or there was none. */
  function LastCancels(events: seq<Event>): bool {
    if events == [] then true
    else
      var last := events[|events| - 1];
      if last.Signaled? then last.signal != SIGUSR1 else LastCancels(events[..|events| - 1])
  }

  /** Both flags follow the last signal. */
  lemma {:induction false} FlagsFollowLast(cfg: Config, numWorkers: nat, events: seq<Event>, s: State)
    requires Run(cfg, Launch(numWorkers), events, s)
    ensures s.control.resume <==> LastMayResume(events)
    ensures s.control.passSignal <==> LastCancels(events)
    decreases |events|
  {
    if events != [] {
      var mid := RunInit(cfg, Launch(numWorkers), events, s);
      FlagsFollowLast(cfg, numWorkers, events[..|events| - 1], mid);
    }
  }

  /** The state before the last event. */
  lemma {:induction false} RunInit(cfg: Config, s: State, events: seq<Event>, s': State) returns (mid: State)
    requires events != [] && Run(cfg, s, events, s')
    ensures var n := |events| - 1;
            Run(cfg, s, events[..n], mid) && Enabled(mid, events[n]) && s' == Apply(cfg, mid, events[n])
    decreases |events|
  {
    var n := |events| - 1;
    if n == 0 {
      assert events[1..] == [];
      return s;
    }
    mid := RunInit(cfg, Apply(cfg, s, events[0]), events[1..], s');
    assert events[1..][..n - 1] == events[..n][1..];
  }

  /** Events that may clear the shutdown event. */
  predicate MayClear(e: Event) {
    e == Polled(false) || e.BraceEnds?
  }

  lemma {:induction false} StaysSet(cfg: Config, s: State, events: seq<Event>, rest: seq<Event>)
    requires s.control.shutdown && forall e :: e in events ==> !MayClear(e)
    requires RunsOn(cfg, s, events + rest) && rest != [] && rest[0].Signaled?
    ensures HardRequested(cfg, s, events + rest)
    decreases |events|
  {
    if events == [] {
      assert events + rest == rest;
    } else {
      assert (events + rest)[1..] == events[1..] + rest;
      assert events[0] in events && forall e :: e in events[1..] ==> e in events;
      StaysSet(cfg, Apply(cfg, s, events[0]), events[1..], rest);
    }
  }

  ghost predicate RunsOn(cfg: Config, s: State, events: seq<Event>)
    decreases |events|
  {
    events != [] ==> Enabled(s, events[0]) && RunsOn(cfg, Apply(cfg, s, events[0]), events[1..])
  }

  lemma {:induction false} SplitRun(cfg: Config, s: State, first: seq<Event>, rest: seq<Event>, s': State)
    returns (mid: State)
    requires Run(cfg, s, first + rest, s')
    ensures Run(cfg, s, first, mid) && Run(cfg, mid, rest, s') && RunsOn(cfg, mid, rest)
    ensures HardRequested(cfg, mid, rest) ==> HardRequested(cfg, s, first + rest)
    decreases |first|
  {
    if first == [] {
      assert first + rest == rest;
      AnyRunsOn(cfg, s, rest, s');
      mid := s;
    } else {
      assert (first + rest)[1..] == first[1..] + rest;
      mid := SplitRun(cfg, Apply(cfg, s, first[0]), first[1..], rest, s');
    }
  }

  lemma {:induction false} AnyRunsOn(cfg: Config, s: State, events: seq<Event>, s': State)
    requires Run(cfg, s, events, s')
    ensures RunsOn(cfg, s, events)
    decreases |events|
  {
    if events != [] {
      AnyRunsOn(cfg, Apply(cfg, s, events[0]), events[1..], s');
    }
  }

  /** Two shutdown signals of any kind, with no poll that withdraws a preemption and no resuming worker
      between them, stop the workers for good: from then on `hard` holds in every continuation. */
  lemma TwoSignalsAreHard(cfg: Config, numWorkers: nat, before: seq<Event>, a: Signal, between: seq<Event>,
          b: Signal, after: seq<Event>, s: State)
    requires Run(cfg, Launch(numWorkers), before + ([Signaled(a)] + (between + ([Signaled(b)] + after))), s)
    requires forall e :: e in between ==> !MayClear(e)
    ensures s.control.hard
  {
    var tail := between + ([Signaled(b)] + after);
    var mid := SplitRun(cfg, Launch(numWorkers), before, [Signaled(a)] + tail, s);
    assert ([Signaled(a)] + tail)[1..] == tail;
    StaysSet(cfg, Apply(cfg, mid, Signaled(a)), between, [Signaled(b)] + after);
    HardIffRequested(cfg, Launch(numWorkers), before + ([Signaled(a)] + tail), s);
  }

  /** Worker `i` comes to resume in this run. */
  ghost predicate Resumes(cfg: Config, s: State, events: seq<Event>, s': State, i: nat) {
    && Run(cfg, s, events, s')
    && i < |s.workers| && i < |s'.workers| && s'.workers[i].resumed > s.workers[i].resumed
  }

  /** A third signal stops the event loop: no worker and no poll runs any more. */
  lemma {:induction false} StoppedLoopRunsNobody(cfg: Config, s: State, events: seq<Event>, s': State)
    requires Run(cfg, s, events, s') && s.control.loopStopped
    ensures s'.control.loopStopped && |s'.workers| == |s.workers|
    ensures s.control.shutdown ==> s'.control.shutdown
    ensures forall e :: e in events ==> e.Signaled?
    ensures forall i :: 0 <= i < |s.workers| ==>
              s'.workers[i] == s.workers[i] || s'.workers[i] == s.workers[i].(waiter := Woken)
    decreases |events|
  {
    if events != [] {
      StoppedLoopRunsNobody(cfg, Apply(cfg, s, events[0]), events[1..], s');
    }
  }

  /** After a hard stop a worker resumes in some continuation if and only if it is in
      `processor.resume()` when the stop comes. */
  lemma ResumesAfterHardStop(cfg: Config, s: State, i: nat)
    requires i < |s.workers| && s.control.hard
    ensures (exists events, s' :: Resumes(cfg, s, events, s', i)) <==>
              s.workers[i].pc.Resuming? && !s.control.loopStopped
  {
    if s.control.loopStopped {
      forall events, s' | Run(cfg, s, events, s') ensures !Resumes(cfg, s, events, s', i) {
        StoppedLoopRunsNobody(cfg, s, events, s');
      }
    } else if s.workers[i].pc.Resuming? {
      var events, s' := ResumeDuringHardStop(cfg, s, i);
      assert Resumes(cfg, s, events, s', i);
    } else {
      forall events, s' | Run(cfg, s, events, s') ensures !Resumes(cfg, s, events, s', i) {
        HardStopIsFinal(cfg, s, events, s', i);
      }
    }
  }

  lemma ResumeDuringHardStop(cfg: Config, s: State, i: nat) returns (events: seq<Event>, s': State)
    requires i < |s.workers| && s.workers[i].pc.Resuming? && !s.control.loopStopped
    ensures Resumes(cfg, s, events, s', i)
  {
    events := [ResumeDone(i)];
    s' := Apply(cfg, s, events[0]);
    assert Run(cfg, s', events[1..], s');
  }

  /** A SIGTERM that was not followed by a preemption: the worker has stopped its task. */
  lemma Terminated(cfg: Config) returns (events: seq<Event>, s: State)
    ensures Run(cfg, Launch(1), events, s) && s.control == INITIAL.(shutdown := true)
    ensures |s.workers| == 1 && s.workers[0].pc.Flushing? && s.workers[0].resumed == 0
  {
    events, s := [], Launch(1);
    s, events := Play(cfg, Launch(1), events, s, Signaled(SIGTERM));
    s, events := Play(cfg, Launch(1), events, s, Begin(0, false));
    s, events := Play(cfg, Launch(1), events, s, WaitReturns(0, true));
    s, events := Play(cfg, Launch(1), events, s, ShutdownDone(0, None));
  }

  /** Witness that "a hard stop is final" fails: it comes while the worker is in `processor.resume()`, and
      the worker goes on to its next iteration. */
  lemma HardStopDuringResume(cfg: Config) returns (events: seq<Event>, s: State)
    ensures Run(cfg, Launch(1), events, s)
    ensures |s.workers| == 1 && s.control.hard && s.workers[0].resumed == 1 && s.workers[0].pc.Top?
  {
    events, s := Terminated(cfg);
    s, events := Play(cfg, Launch(1), events, s, Flushed(0));
    s, events := Play(cfg, Launch(1), events, s, BraceEnds(0));
    s, events := Play(cfg, Launch(1), events, s, Signaled(SIGINT));
    s, events := Play(cfg, Launch(1), events, s, ResumeDone(0));
  }

  // ---- which signals cancel running callbacks ----

  /** In every run a step cancels the running callback of a worker exactly if the worker wakes to a shutdown
      that still stands while its task runs, and the last signal was not SIGUSR1. */
  lemma CancelsExactly(cfg: Config, numWorkers: nat, events: seq<Event>, s: State, e: Event, i: nat)
    requires Run(cfg, Launch(numWorkers), events, s) && Enabled(s, e) && i < |s.workers|
    ensures |Apply(cfg, s, e).workers| == |s.workers|
    ensures var cancels := e == WaitReturns(i, true) && s.control.shutdown && s.workers[i].task.None?
                           && LastCancels(events);
            Apply(cfg, s, e).workers[i].cancelled == s.workers[i].cancelled + if cancels then 1 else 0
  {
    FlagsFollowLast(cfg, numWorkers, events, s);
    WorkersStep(cfg, s, e, i);
  }

  /** A run for each other signal in which it cancels the callback that runs. */
  lemma SignalCancelsCallback(cfg: Config, signal: Signal) returns (s: State)
    requires signal in {SIGTERM, SIGINT, SIGUSR2, TimeLimit}
    ensures Run(cfg, Launch(1), [Begin(0, false), Signaled(signal), WaitReturns(0, true)], s)
    ensures |s.workers| == 1 && s.workers[0].pc == ShuttingDown(true) && s.workers[0].cancelled == 1
  {
    var events: seq<Event> := [];
    s := Launch(1);
    s, events := Play(cfg, Launch(1), events, s, Begin(0, false));
    s, events := Play(cfg, Launch(1), events, s, Signaled(signal));
    s, events := Play(cfg, Launch(1), events, s, WaitReturns(0, true));
  }

  // ---- the preemption handler ----

  ghost predicate NeverAnnounced(cfg: Config, events: seq<Event>) {
    cfg.disabled || Polled(true) !in events
  }

  /** In a run where the handler never set the event it never clears it: no poll changes anything. */
  lemma {:induction false} HandlerClearsOnlyItsOwn(cfg: Config, s: State, events: seq<Event>, s': State)
    requires Run(cfg, s, events, s') && NeverAnnounced(cfg, events) && !s.control.initiatedByUs
    ensures !s'.control.initiatedByUs
    ensures Poll(s'.control, false, cfg.disabled) == s'.control
    decreases |events|
  {
    if events != [] {
      assert events[0] in events && forall e :: e in events[1..] ==> e in events;
      HandlerClearsOnlyItsOwn(cfg, Apply(cfg, s, events[0]), events[1..], s');
    }
  }

  // ---- failure counter ----

  /** Failures since the last success; everything else is ignored. */
  function TrailingFailures(outcomes: seq<Result>): nat {
    if outcomes == [] then 0
    else
      var init, last := outcomes[..|outcomes| - 1], outcomes[|outcomes| - 1];
      match last
      case Success => 0
      case Failure => TrailingFailures(init) + 1
      case _ => TrailingFailures(init)
  }

  /** The same, counted: split after the last success and take the failures of the rest. */
  lemma {:induction false} TrailingFailuresCounts(outcomes: seq<Result>, k: nat)
    requires k <= |outcomes| && (k == 0 || outcomes[k - 1] == Success)
    requires Success !in outcomes[k..]
    ensures TrailingFailures(outcomes) == multiset(outcomes[k..])[Failure]
    decreases |outcomes|
  {
    if k == |outcomes| {
      assert outcomes[k..] == [];
    } else {
      var n := |outcomes| - 1;
      assert outcomes[k..] == outcomes[..n][k..] + [outcomes[n]];
      assert outcomes[n] in outcomes[k..];
      TrailingFailuresCounts(outcomes[..n], k);
    }
  }

  ghost predicate CounterOk(cfg: Config, w: Worker) {
    && w.failures == TrailingFailures(w.outcomes)
    && (w.pc == Ended(TooManyFailures) <==> w.failures > Max(cfg.maxFailures, 0))
  }

  /** Why a worker waits for a preemption or has ended. */
  ghost predicate Explained(w: Worker) {
    match w.pc
    case Pulling => !w.saw
    case ShuttingDown(_) => w.saw
    case Draining => w.saw
    case Flushing => w.saw || w.task == Some(Canceled)
    case Bracing => w.saw || w.task == Some(Canceled)
    case Resuming => w.saw || w.task == Some(Canceled)
    case Ended(HardOrFinal) => w.saw || w.task == Some(Canceled)
    case Ended(QueueEmpty) => w.saw || w.task == Some(Empty)
    case Ended(OtherError) => w.saw || w.task == Some(Error)
    case _ => true
  }

  /** The worker waits for a preemption, has given way to it, or was let go on after that. */
  predicate Waits(w: Worker) {
    || w.pc.Flushing? || w.pc.Bracing? || w.pc.Resuming? || w.pc == Ended(HardOrFinal)
    || (w.resumed > 0 && (w.pc.Top? || w.pc == Ended(SoftLimit)))
  }

  /** It goes on at once. */
  predicate GoesOn(w: Worker) {
    w.pc.Top? || w.pc == Ended(SoftLimit)
  }

  /** What the end of a task leads to. An empty queue and an error end the worker, a lost lock lets it go on;
      after `WorkerCanceled` it waits for a preemption, and after a success or failure exactly if it saw
      the shutdown event, as it does when the task ended by being cancelled. */
  ghost predicate Answered(w: Worker) {
    && (!w.saw && w.task.Some? && !w.pc.Pulling? && w.pc != Ended(AssertionError) ==>
          match w.task.value
          case Empty => w.pc == Ended(QueueEmpty)
          case Error => w.pc == Ended(OtherError)
          case Canceled => Waits(w)
          case Failure => GoesOn(w) || w.pc == Ended(TooManyFailures)
          case _ => GoesOn(w))
    && (w.saw && !w.pc.Pulling? && !w.pc.ShuttingDown? && !w.pc.Draining? ==>
          match w.late
          case Some(Empty) => w.pc == Ended(QueueEmpty)
          case Some(Error) => w.pc == Ended(OtherError)
          case Some(LockLost) => GoesOn(w)
          case _ => Waits(w))
  }

  /** Tasks still running: while waiting for it, or left behind by the failed assertion. */
  ghost function StillRunning(w: Worker): nat {
    if (w.pc.Pulling? || w.pc.Draining? || w.pc == Ended(AssertionError)) && w.task.None? then 1 else 0
  }

  ghost predicate WorkerOk(cfg: Config, w: Worker) {
    && CounterOk(cfg, w)
    && Explained(w)
    && Answered(w)
    && w.begun == w.finished + w.cancelled + StillRunning(w)
  }

  lemma WorkerTaskWon(cfg: Config, w: Worker, r: Result)
    requires WorkerOk(cfg, w) && w.pc.Pulling? && w.task == Some(r)
    ensures WorkerOk(cfg, TaskWon(cfg, w, r))
  {
    assert (w.outcomes + [r])[..|w.outcomes|] == w.outcomes;
  }

  lemma WorkerOkWait(cfg: Config, s: State, e: Event)
    requires Enabled(s, e) && e.WaitReturns?
    requires WorkerOk(cfg, s.workers[e.i])
    ensures WorkerOk(cfg, WorkerStep(cfg, s.control, s.workers[e.i], e))
  {
    var w := s.workers[e.i];
    if !e.sawShutdown {
      WorkerTaskWon(cfg, w, w.task.value);
    }
  }

  lemma WorkerOkAfterShutdown(cfg: Config, s: State, e: Event)
    requires Enabled(s, e) && (e.Drained? || e.ShutdownDone?)
    requires WorkerOk(cfg, s.workers[e.i])
    ensures WorkerOk(cfg, WorkerStep(cfg, s.control, s.workers[e.i], e))
  {
  }

  lemma WorkerOkStep(cfg: Config, s: State, e: Event)
    requires Enabled(s, e) && !e.Signaled? && !e.Polled?
    requires WorkerOk(cfg, s.workers[e.i])
    ensures WorkerOk(cfg, WorkerStep(cfg, s.control, s.workers[e.i], e))
  {
    if e.WaitReturns? {
      WorkerOkWait(cfg, s, e);
    } else if e.Drained? || e.ShutdownDone? {
      WorkerOkAfterShutdown(cfg, s, e);
    }
  }

  lemma {:induction false} WorkerOkRun(cfg: Config, s: State, events: seq<Event>, s': State, i: nat)
    requires Run(cfg, s, events, s') && i < |s.workers| && WorkerOk(cfg, s.workers[i])
    ensures |s'.workers| == |s.workers| && WorkerOk(cfg, s'.workers[i])
    decreases |events|
  {
    if events != [] {
      var e := events[0];
      WorkersStep(cfg, s, e, i);
      if !e.Signaled? && !e.Polled? && e.i == i {
        WorkerOkStep(cfg, s, e);
      }
      WorkerOkRun(cfg, Apply(cfg, s, e), events[1..], s', i);
    }
  }

  /** In every run `num_consecutive_failures` is the number of failures since the last success among
      the iterations the task won, and the worker raises `TooManyFailuresException` exactly when
      it first exceeds the maximum (a negative maximum acts like zero). */
  lemma FailureCounter(cfg: Config, numWorkers: nat, events: seq<Event>, s: State, i: nat)
    requires Run(cfg, Launch(numWorkers), events, s) && i < numWorkers
    ensures |s.workers| == numWorkers
    ensures s.workers[i].failures == TrailingFailures(s.workers[i].outcomes)
    ensures s.workers[i].pc == Ended(TooManyFailures) <==>
              TrailingFailures(s.workers[i].outcomes) > Max(cfg.maxFailures, 0)
  {
    WorkerOkRun(cfg, Launch(numWorkers), events, s, i);
  }

  /** In every run a worker goes on to its next iteration, waits for a preemption or ends only when its
      task came to an end or was cancelled by a shutdown, one for every iteration begun. It waits for a
      preemption or gives way to it only after it saw the shutdown event or its task raised
      `WorkerCanceled`; without a shutdown it reports an empty queue or an error only if its task did.
      The failed assertion of `Woken` waiters is the one way to leave a task behind. */
  lemma NoTaskLeftBehind(cfg: Config, numWorkers: nat, events: seq<Event>, s: State, i: nat)
    requires Run(cfg, Launch(numWorkers), events, s) && i < numWorkers
    ensures |s.workers| == numWorkers && Explained(s.workers[i]) && Answered(s.workers[i])
    ensures s.workers[i].begun == s.workers[i].finished + s.workers[i].cancelled + StillRunning(s.workers[i])
  {
    WorkerOkRun(cfg, Launch(numWorkers), events, s, i);
  }

  /** Over time a worker begins nothing: it has ended from then on, and the iterations it has begun are those
      begun within the limit. */
  lemma {:induction false} SoftLimitIsFinal(cfg: Config, s: State, events: seq<Event>, s': State, i: nat)
    requires Run(cfg, s, events, s') && i < |s.workers|
    ensures |s'.workers| == |s.workers|
    ensures s'.workers[i].begun == s.workers[i].begun + multiset(events)[Begin(i, false)]
    ensures s.workers[i].pc.Ended? ==> s'.workers[i].pc == s.workers[i].pc
    ensures Begin(i, true) in events ==> s'.workers[i].pc == Ended(SoftLimit)
    decreases |events|
  {
    if events != [] {
      assert events == [events[0]] + events[1..];
      WorkersStep(cfg, s, events[0], i);
      SoftLimitIsFinal(cfg, Apply(cfg, s, events[0]), events[1..], s', i);
    }
  }

  // ---- soft shutdown without resuming ----

  /** A run with no further signal during which the shutdown event stays set. */
  ghost predicate ShutdownKept(cfg: Config, s: State, events: seq<Event>, s': State)
    decreases |events|
  {
    && s.control.shutdown
    && if events == [] then s == s'
       else
         && Enabled(s, events[0]) && !events[0].Signaled?
         && ShutdownKept(cfg, Apply(cfg, s, events[0]), events[1..], s')
  }

  /** Whether a worker may begin one more iteration without losing a lock: it is between
      iterations, or waiting in an iteration begun before the event was set. */
  ghost function Credit(w: Worker): nat {
    if w.pc.Top? || w.pc.Resuming? || (w.pc.Pulling? && !w.waiter.Immediate?) then 1 else 0
  }

  ghost function Potential(w: Worker): int {
    w.begun - w.lockLosses + Credit(w)
  }

  lemma PotentialStep(cfg: Config, s: State, e: Event, i: nat)
    requires Enabled(s, e) && !e.Signaled? && i < |s.workers|
    requires s.control.shutdown && !s.control.resume
    ensures var s' := Apply(cfg, s, e);
            && |s'.workers| == |s.workers|
            && Potential(s'.workers[i]) <= Potential(s.workers[i])
            && s'.control.resume == s.control.resume && s'.control.passSignal == s.control.passSignal
            && (!s.control.passSignal ==> s'.workers[i].cancelled == s.workers[i].cancelled)
  {
    WorkersStep(cfg, s, e, i);
  }

  lemma {:induction false} PotentialRun(cfg: Config, s: State, events: seq<Event>, s': State, i: nat)
    requires ShutdownKept(cfg, s, events, s') && !s.control.resume && i < |s.workers|
    ensures |s'.workers| == |s.workers|
    ensures Potential(s'.workers[i]) <= Potential(s.workers[i])
    ensures !s.control.passSignal ==> s'.workers[i].cancelled == s.workers[i].cancelled
    decreases |events|
  {
    if events != [] {
      PotentialStep(cfg, s, events[0], i);
      PotentialRun(cfg, Apply(cfg, s, events[0]), events[1..], s', i);
    }
  }

  /** After a shutdown that must not resume (any signal but SIGTERM), as long as the
      event stays set and no other signal comes, every iteration a worker still begins is paid for
      by a lost lock, but for at most one that was already decided; and in the SIGUSR1 mode no
      running callback is cancelled by the shutdown. */
  lemma WorkersStopWhileSet(cfg: Config, s: State, signal: Signal, events: seq<Event>, s': State, i: nat)
    requires i < |s.workers| && signal != SIGTERM
    requires ShutdownKept(cfg, Apply(cfg, s, Signaled(signal)), events, s')
    ensures |s'.workers| == |s.workers|
    ensures s'.workers[i].begun - s.workers[i].begun
            <= s'.workers[i].lockLosses - s.workers[i].lockLosses + Credit(s.workers[i])
    ensures signal == SIGUSR1 ==> s'.workers[i].cancelled == s.workers[i].cancelled
  {
    var s1 := Apply(cfg, s, Signaled(signal));
    WorkersStep(cfg, s, Signaled(signal), i);
    PotentialRun(cfg, s1, events, s', i);
  }

  ghost predicate Unsignaled(events: seq<Event>) {
    forall e :: e in events ==> !e.Signaled?
  }

  /** Who cannot clear the event: a handler that is disabled, or one that neither believes to have set it
      nor gets to announce a preemption. */
  ghost predicate HandlerIdle(cfg: Config, s: State, events: seq<Event>) {
    cfg.disabled || (!s.control.initiatedByUs && Polled(true) !in events)
  }

  lemma {:induction false} IdleKeeps(cfg: Config, s: State, events: seq<Event>, s': State)
    requires Run(cfg, s, events, s') && Unsignaled(events) && HandlerIdle(cfg, s, events)
    requires s.control.shutdown && !s.control.resume
    ensures ShutdownKept(cfg, s, events, s') && s'.control.shutdown
    decreases |events|
  {
    if events != [] {
      assert events[0] in events && forall e :: e in events[1..] ==> e in events;
      IdleKeeps(cfg, Apply(cfg, s, events[0]), events[1..], s');
    }
  }

  /** The shutdown event stays set in all runs without signals and announcements. */
  ghost predicate StaysSetQuietly(cfg: Config, s: State) {
    forall events, s' ::
      Run(cfg, s, events, s') && Unsignaled(events) && Polled(true) !in events ==> s'.control.shutdown
  }

  /** The same with announcements. */
  ghost predicate StaysSetAnyway(cfg: Config, s: State) {
    forall events, s' :: Run(cfg, s, events, s') && Unsignaled(events) ==> s'.control.shutdown
  }

  lemma StoppedLoopStaysSet(cfg: Config, s: State)
    requires s.control.shutdown && s.control.loopStopped
    ensures StaysSetQuietly(cfg, s) && StaysSetAnyway(cfg, s)
  {
    forall events, s' | Run(cfg, s, events, s') && Unsignaled(events) ensures s'.control.shutdown {
      StoppedLoopRunsNobody(cfg, s, events, s');
    }
  }

  /** A shutdown that must not resume is safe from the preemption poll exactly if the handler is disabled
      or does not believe that it set the event, or the event loop was stopped. */
  lemma ShutdownStaysSet(cfg: Config, s: State)
    requires s.control.shutdown && !s.control.resume
    ensures StaysSetQuietly(cfg, s) <==> cfg.disabled || !s.control.initiatedByUs || s.control.loopStopped
  {
    if s.control.loopStopped {
      StoppedLoopStaysSet(cfg, s);
    } else if cfg.disabled || !s.control.initiatedByUs {
      forall events, s' | Run(cfg, s, events, s') && Unsignaled(events) && Polled(true) !in events
        ensures s'.control.shutdown
      {
        IdleKeeps(cfg, s, events, s');
      }
    } else {
      var s' := Apply(cfg, s, Polled(false));
      assert [Polled(false)][1..] == [];
      assert Run(cfg, s, [Polled(false)], s') && !s'.control.shutdown;
    }
  }

  /** Once preemptions may be announced and withdrawn, exactly if it is disabled. */
  lemma ShutdownStaysSetAnyway(cfg: Config, s: State)
    requires s.control.shutdown && !s.control.resume
    ensures StaysSetAnyway(cfg, s) <==> cfg.disabled || s.control.loopStopped
  {
    if s.control.loopStopped {
      StoppedLoopStaysSet(cfg, s);
    } else if cfg.disabled {
      forall events, s' | Run(cfg, s, events, s') && Unsignaled(events) ensures s'.control.shutdown {
        IdleKeeps(cfg, s, events, s');
      }
    } else {
      var s1 := Apply(cfg, s, Polled(true));
      var s' := Apply(cfg, s1, Polled(false));
      var events := [Polled(true), Polled(false)];
      assert events[1..] == [Polled(false)] && [Polled(false)][1..] == [];
      assert Run(cfg, s1, [Polled(false)], s');
      assert Run(cfg, s, events, s') && !s'.control.shutdown;
    }
  }

  /** After a shutdown signal other than SIGTERM, when the handler is idle and no other signal comes:
      the event stays set, every iteration a worker still begins is paid for by a lost lock, but for at
      most one that was already decided, and SIGUSR1 cancels no running callback. */
  lemma SoftShutdownStopsWorkers(cfg: Config, s: State, signal: Signal, events: seq<Event>, s': State, i: nat)
    requires i < |s.workers| && signal != SIGTERM
    requires Run(cfg, Apply(cfg, s, Signaled(signal)), events, s') && Unsignaled(events)
    requires HandlerIdle(cfg, s, events)
    ensures s'.control.shutdown && |s'.workers| == |s.workers|
    ensures s'.workers[i].begun - s.workers[i].begun
            <= s'.workers[i].lockLosses - s.workers[i].lockLosses + Credit(s.workers[i])
    ensures signal == SIGUSR1 ==> s'.workers[i].cancelled == s.workers[i].cancelled
  {
    IdleKeeps(cfg, Apply(cfg, s, Signaled(signal)), events, s');
    WorkersStopWhileSet(cfg, s, signal, events, s', i);
  }

  /** Witness that one more iteration does happen: the task has just ended when SIGUSR1 arrives, its result
      wins, and the worker begins another task although no lock was lost. */
  lemma OneMoreIteration(cfg: Config) returns (events: seq<Event>, before: State, after: State)
    ensures BeginsOneMore(cfg, events, before, [WaitReturns(0, false), Begin(0, false)], after)
  {
    events, before := [], Launch(1);
    before, events := Play(cfg, Launch(1), events, before, Begin(0, false));
    before, events := Play(cfg, Launch(1), events, before, TaskEnds(0, Success));
    before, events := Play(cfg, Launch(1), events, before, Signaled(SIGUSR1));
    var more: seq<Event> := [];
    after := before;
    after, more := Play(cfg, before, more, after, WaitReturns(0, false));
    after, more := Play(cfg, before, more, after, Begin(0, false));
  }

  /** A single worker begins another iteration after its shutdown without having lost a lock. */
  ghost predicate BeginsOneMore(cfg: Config, events: seq<Event>, before: State, more: seq<Event>, after: State) {
    && Run(cfg, Launch(1), events, before)
    && |before.workers| == |after.workers| == 1
    && before.control.shutdown && !before.control.resume
    && Unsignaled(more) && Run(cfg, before, more, after)
    && after.control.shutdown && after.workers[0].lockLosses == 0
    && after.workers[0].begun == before.workers[0].begun + 1
  }

  // ---- shutdowns that the preemption handler undoes ----

  /** A preemption is announced and the worker stops its task. */
  lemma Announced(cfg: Config) returns (events: seq<Event>, s: State)
    requires !cfg.disabled
    ensures Run(cfg, Launch(1), events, s)
    ensures s.control == INITIAL.(shutdown := true, initiatedByUs := true)
    ensures |s.workers| == 1 && s.workers[0].pc.Flushing?
  {
    var s0 := Launch(1);
    events, s := [], s0;
    s, events := Play(cfg, s0, events, s, Polled(true));
    s, events := Play(cfg, s0, events, s, Begin(0, false));
    s, events := Play(cfg, s0, events, s, WaitReturns(0, true));
    s, events := Play(cfg, s0, events, s, ShutdownDone(0, None));
  }

  /** It does not happen: the worker braces itself, clears the event and resumes. The clear in
      `wait_for_hard_stop` leaves the handler's flag set. */
  lemma FalseAlarm(cfg: Config) returns (events: seq<Event>, s: State)
    requires !cfg.disabled
    ensures Run(cfg, Launch(1), events, s) && s.control == INITIAL.(initiatedByUs := true)
    ensures |s.workers| == 1 && s.workers[0].pc.Top?
  {
    events, s := Announced(cfg);
    s, events := Play(cfg, Launch(1), events, s, Flushed(0));
    s, events := Play(cfg, Launch(1), events, s, BraceEnds(0));
    s, events := Play(cfg, Launch(1), events, s, ResumeDone(0));
  }

  /** A single worker was told to take no new tasks; without another signal it is waiting for one. */
  ghost predicate ShutdownUndone(cfg: Config, events: seq<Event>, before: State, more: seq<Event>, after: State) {
    && Run(cfg, Launch(1), events, before)
    && |before.workers| == |after.workers| == 1
    && before.control.shutdown && !before.control.resume && before.workers[0].pc.Top?
    && Unsignaled(more) && Run(cfg, before, more, after)
    && !after.control.shutdown && after.workers[0].pc.Pulling? && after.workers[0].waiter.Armed?
  }

  /** Witness of what the stale flag allows: SIGUSR1 asks the worker to take no new tasks, the next
      poll clears the event although the handler did not set it, and the worker begins another
      iteration. */
  lemma StaleFlagUndoesShutdown(cfg: Config) returns (events: seq<Event>, before: State, after: State)
    requires !cfg.disabled
    ensures ShutdownUndone(cfg, events, before, [Polled(false), Begin(0, false)], after)
  {
    events, before := FalseAlarm(cfg);
    before, events := Play(cfg, Launch(1), events, before, Signaled(SIGUSR1));
    var mid := Apply(cfg, before, Polled(false));
    after := Apply(cfg, mid, Begin(0, false));
    assert [Polled(false), Begin(0, false)][1..] == [Begin(0, false)] && [Begin(0, false)][1..] == [];
    assert Run(cfg, mid, [Begin(0, false)], after);
  }

  /** The same without a stale flag: a preemption is announced after the signal and then withdrawn. */
  lemma WithdrawalUndoesShutdown(cfg: Config) returns (events: seq<Event>, before: State, after: State)
    requires !cfg.disabled
    ensures ShutdownUndone(cfg, events, before, [Polled(true), Polled(false), Begin(0, false)], after)
    ensures !before.control.initiatedByUs
  {
    before, events := Play(cfg, Launch(1), [], Launch(1), Signaled(SIGUSR1));
    var announced := Apply(cfg, before, Polled(true));
    var mid := Apply(cfg, announced, Polled(false));
    after := Apply(cfg, mid, Begin(0, false));
    var more := [Polled(true), Polled(false), Begin(0, false)];
    assert more[1..] == [Polled(false), Begin(0, false)] && more[1..][1..] == [Begin(0, false)];
    assert [Begin(0, false)][1..] == [];
    assert Run(cfg, mid, [Begin(0, false)], after);
    assert Run(cfg, announced, [Polled(false), Begin(0, false)], after);
  }
}
