/** The flush and shutdown events between `BackgroundDirSync` and its syncer process
    (ai4s/jobq/ext/background_dirsync.py, `_run` and `shutdown`). */
module SyncHandshake {

  /** Where `_run` stands. */
  datatype SyncerPc =
    | Waiting          // `flush_event.wait(freq)`
    | Clearing         // it returned True, `flush_event.clear()` comes next
    | Starting         // `syncer.sync()` comes next
    | Syncing
    | Testing          // `if not flush_event.is_set() and shutdown_event.is_set()`
    | TestingShutdown  // its first half was True (only when the halves are separate steps)
    | Exited

  /** Where `shutdown` stands: not called, flush set, shutdown set as well. */
  datatype MainPc = Running | FlushSet | ShutdownSet

  datatype State = State(
    flush: bool,
    shutdown: bool,
    syncer: SyncerPc,
    main: MainPc,
    finalSync: bool,   // history: a sync began after `shutdown` set the flush event
    earlyRead: bool)   // history: the syncer's last look at the flush event came before that

  const INITIAL := State(false, false, Waiting, Running, false, true)

  datatype Event =
    | WaitReturns | Clear | BeginSync | EndSync
    | Test             // both halves of the test as one step
    | ReadFlush | ReadShutdown
    | RequestFlush     // `flush` or the flush listener
    | SetFlush | SetShutdown

  /** `atomic`: line 224 reads both events in one step. */
  predicate Enabled(atomic: bool, s: State, e: Event) {
    match e
    case WaitReturns => s.syncer.Waiting?
    case Clear => s.syncer.Clearing?
    case BeginSync => s.syncer.Starting?
    case EndSync => s.syncer.Syncing?
    case Test => atomic && s.syncer.Testing?
    case ReadFlush => !atomic && s.syncer.Testing?
    case ReadShutdown => s.syncer.TestingShutdown?
    case RequestFlush => true
    case SetFlush => s.main.Running?
    case SetShutdown => s.main.FlushSet?
  }

  function Apply(atomic: bool, s: State, e: Event): State
    requires Enabled(atomic, s, e)
  {
    match e
    case WaitReturns => s.(syncer := if s.flush then Clearing else Starting)
    case Clear => s.(flush := false, syncer := Starting)
    case BeginSync => s.(syncer := Syncing, finalSync := s.finalSync || !s.main.Running?)
    case EndSync => s.(syncer := Testing)
    case Test => s.(syncer := if !s.flush && s.shutdown then Exited else Waiting, earlyRead := s.main.Running?)
    case ReadFlush => s.(syncer := if s.flush then Waiting else TestingShutdown, earlyRead := s.main.Running?)
    case ReadShutdown => s.(syncer := if s.shutdown then Exited else Waiting)
    case RequestFlush => s.(flush := true)
    case SetFlush => s.(flush := true, main := FlushSet)
    case SetShutdown => s.(shutdown := true, main := ShutdownSet)
  }

  ghost predicate Run(atomic: bool, s: State, events: seq<Event>, s': State)
    decreases |events|
  {
    if events == [] then s == s'
    else Enabled(atomic, s, events[0]) && Run(atomic, Apply(atomic, s, events[0]), events[1..], s')
  }

  /** After `shutdown` set the flush event, the final sync has begun, or the request is still
      standing, or the syncer is on its way to a sync. */
  ghost predicate Inv(atomic: bool, s: State) {
    && (s.shutdown <==> s.main.ShutdownSet?)
    && (s.finalSync ==> !s.main.Running?)
    && (s.syncer.TestingShutdown? ==> !atomic)
    && (!s.main.Running? ==> s.finalSync || s.flush || s.syncer.Clearing? || s.syncer.Starting?)
    && (s.syncer.TestingShutdown? || s.syncer.Exited? ==> (s.earlyRead <==> !s.finalSync))
    && (s.syncer.Exited? ==> s.main.ShutdownSet? && (atomic ==> !s.earlyRead))
  }

  lemma {:induction false} InvRun(atomic: bool, s: State, events: seq<Event>, s': State)
    requires Inv(atomic, s) && Run(atomic, s, events, s')
    ensures Inv(atomic, s')
    decreases |events|
  {
    if events != [] {
      InvRun(atomic, Apply(atomic, s, events[0]), events[1..], s');
    }
  }

  /** With the test as one step, the syncer exits only after a sync that began after `shutdown`
      asked for it, in every interleaving. */
  lemma FinalSyncHappens(events: seq<Event>, s: State)
    requires Run(true, INITIAL, events, s) && s.syncer.Exited?
    ensures s.finalSync
  {
    InvRun(true, INITIAL, events, s);
  }

  /** With two separate reads the final sync is missed in exactly the runs whose last read of the
      flush event came before `shutdown` set it. */
  lemma FinalSyncUnlessEarlyRead(events: seq<Event>, s: State)
    requires Run(false, INITIAL, events, s) && s.syncer.Exited?
    ensures s.finalSync <==> !s.earlyRead
    ensures s.finalSync || s.flush
  {
    InvRun(false, INITIAL, events, s);
  }

  /** Such a run exists. */
  lemma FinalSyncCanBeMissed() returns (events: seq<Event>, s: State)
    ensures Run(false, INITIAL, events, s) && s.syncer.Exited? && !s.finalSync && s.flush
  {
    var s1 := Apply(false, INITIAL, WaitReturns);
    var s2 := Apply(false, s1, BeginSync);
    var s3 := Apply(false, s2, EndSync);
    var s4 := Apply(false, s3, ReadFlush);
    var s5 := Apply(false, s4, SetFlush);
    var s6 := Apply(false, s5, SetShutdown);
    s := Apply(false, s6, ReadShutdown);
    events := [WaitReturns, BeginSync, EndSync, ReadFlush, SetFlush, SetShutdown, ReadShutdown];
    assert Run(false, s6, [ReadShutdown], s);
    assert Run(false, s5, [SetShutdown] + [ReadShutdown], s);
    assert Run(false, s4, [SetFlush] + [SetShutdown, ReadShutdown], s);
    assert Run(false, s3, [ReadFlush] + [SetFlush, SetShutdown, ReadShutdown], s);
    assert Run(false, s2, [EndSync] + [ReadFlush, SetFlush, SetShutdown, ReadShutdown], s);
    assert Run(false, s1, [BeginSync] + [EndSync, ReadFlush, SetFlush, SetShutdown, ReadShutdown], s);
    assert events == [WaitReturns] + [BeginSync, EndSync, ReadFlush, SetFlush, SetShutdown, ReadShutdown];
  }

  // ---- every wait and every request leads to a sync ----

  predicate BeforeSync(s: State) {
    s.syncer.Clearing? || s.syncer.Starting?
  }

  /** Whether the wait ends by a flush or by its timeout, exactly one sync follows it. */
  lemma {:induction false} EveryWaitSyncs(atomic: bool, s: State, events: seq<Event>, s': State)
    requires Run(atomic, s, events, s')
    ensures multiset(events)[WaitReturns] + (if BeforeSync(s) then 1 else 0)
            == multiset(events)[BeginSync] + if BeforeSync(s') then 1 else 0
    decreases |events|
  {
    if events != [] {
      assert events == [events[0]] + events[1..];
      EveryWaitSyncs(atomic, Apply(atomic, s, events[0]), events[1..], s');
    }
  }

  /** A request is standing or about to be served. */
  ghost predicate FlushPending(atomic: bool, s: State) {
    BeforeSync(s) || (s.flush && (atomic ==> !s.syncer.Exited?))
  }

  /** A flush asked for while the syncer runs is not forgotten: a sync begins afterwards, or the request is
      still standing, and with the test as one step the syncer has not exited. */
  lemma FlushIsServed(atomic: bool, s: State, events: seq<Event>, s': State)
    requires !s.syncer.Exited? && Run(atomic, Apply(atomic, s, RequestFlush), events, s')
    requires atomic ==> !s.syncer.TestingShutdown?
    ensures BeginSync in events || FlushPending(atomic, s')
  {
    PendingUntilSync(atomic, Apply(atomic, s, RequestFlush), events, s');
  }

  lemma {:induction false} PendingUntilSync(atomic: bool, s: State, events: seq<Event>, s': State)
    requires FlushPending(atomic, s) && (atomic ==> !s.syncer.TestingShutdown?) && Run(atomic, s, events, s')
    ensures BeginSync in events || FlushPending(atomic, s')
    decreases |events|
  {
    if events != [] && events[0] != BeginSync {
      PendingUntilSync(atomic, Apply(atomic, s, events[0]), events[1..], s');
    }
  }

  // ---- the syncer comes to an end ----

  /** Steps the syncer still has to take once `shutdown` has set both events. */
  function StepsLeft(atomic: bool, s: State): nat {
    var test := if atomic then 1 else 2;
    match s.syncer
    case Exited => 0
    case TestingShutdown => 1
    case Testing => if s.flush then 6 + test else test
    case Syncing => if s.flush then 7 + test else 1 + test
    case Starting => if s.flush then 8 + test else 2 + test
    case Clearing => 3 + test
    case Waiting => if s.flush then 4 + test else 3 + test
  }

  lemma SyncerProgress(atomic: bool, s: State, e: Event)
    requires s.main.ShutdownSet? && s.shutdown && Enabled(atomic, s, e) && !e.RequestFlush?
    ensures var s' := Apply(atomic, s, e);
            s'.main.ShutdownSet? && s'.shutdown && StepsLeft(atomic, s') < StepsLeft(atomic, s)
  {
  }

  /** Once `shutdown` has set both events every run without further flush requests is short: the syncer
      takes at most ten steps. */
  lemma {:induction false} SyncerTerminates(atomic: bool, s: State, events: seq<Event>, s': State)
    requires Run(atomic, s, events, s') && s.main.ShutdownSet? && s.shutdown && RequestFlush !in events
    ensures |events| <= StepsLeft(atomic, s) - StepsLeft(atomic, s') <= 10
    decreases |events|
  {
    if events != [] {
      assert events[0] in events && forall e :: e in events[1..] ==> e in events;
      SyncerProgress(atomic, s, events[0]);
      SyncerTerminates(atomic, Apply(atomic, s, events[0]), events[1..], s');
    }
  }

  /** And one that can go no further has exited: `join` in `shutdown` returns. */
  lemma SyncerExits(atomic: bool, events: seq<Event>, s: State)
    requires Run(atomic, INITIAL, events, s) && s.main.ShutdownSet?
    ensures s.shutdown && (s.syncer.Exited? <==> forall e :: Enabled(atomic, s, e) ==> e.RequestFlush?)
  {
    InvRun(atomic, INITIAL, events, s);
    if !s.syncer.Exited? {
      var e := match s.syncer
               case Waiting => WaitReturns
               case Clearing => Clear
               case Starting => BeginSync
               case Syncing => EndSync
               case Testing => if atomic then Test else ReadFlush
               case _ => ReadShutdown;
      assert Enabled(atomic, s, e);
    }
  }
}
