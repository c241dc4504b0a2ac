/** The two-stage pipeline of `batch_enqueue` (ai4s/jobq/orchestration/manager.py):
    seeds are listed into tasks by enumeration workers, tasks are pushed by
    enqueue workers, through two bounded queues with `task_done`/`join` counters. */
module BatchEnqueue {
  import opened Basics
  import opened Sorting

  /** Seeds and tasks are only passed on; `None` in either queue is Python's None. */
  type Seed = int
  type Work = int

  type Item = Option<Work>

  datatype Config = Config(
    list: Seed -> seq<Item>,     // what `list_tasks` yields
    wanted: Work -> bool,        // whether `enqueue_task` returns a job rather than None
    dryRun: bool,
    maxSize: nat)                // of either queue, 10000 in the source

  datatype EnumWorker = Getting | Listing(rest: seq<Item>) | EnumEnded

  datatype EnqWorker = Idle | Considering(work: Work) | Pushing(pushing: Work) | EnqEnded

  /** The coroutine itself: putting seeds, the two joins, past them. */
  datatype Main = Feeding | JoiningSeeds | JoiningTasks | Joined

  datatype State = State(
    main: Main,
    seeds: seq<Option<Seed>>,         // not put yet
    enumJobs: seq<Option<Seed>>,
    enumUnfinished: int,
    enumWorkers: seq<EnumWorker>,
    enqueueJobs: seq<Item>,
    enqUnfinished: int,
    enqWorkers: seq<EnqWorker>,
    considered: multiset<Work>,       // history: counted by `stats.n_considered`
    futures: multiset<Work>,
    dropped: multiset<Work>,          // history: `enqueue_task` raised
    unpushed: multiset<Work>,         // history: considered, but `push` raised
    exceptions: nat,                  // history: enqueue workers ended by an exception
    enumEnded: nat,                   // history: enumeration workers ended by a None seed or an exception
    unlisted: multiset<Item>,         // history: not listed because `list_tasks` raised
    swallowed: nat)                   // history: None items, which end a worker without `task_done`

  function Launch(seeds: seq<Option<Seed>>, numEnum: nat, numEnq: nat): State {
    State(Feeding, seeds, [], 0, seq(numEnum, _ => Getting), [], 0, seq(numEnq, _ => Idle),
          multiset{}, multiset{}, multiset{}, multiset{}, 0, 0, multiset{}, 0)
  }

  datatype Event =
    | PutSeed | SeedsFed | SeedsJoined | TasksJoined
    | GetSeed(i: nat) | PutTask(i: nat) | ListingDone(i: nat) | ListingRaised(i: nat)
    | GetTask(i: nat) | Considered(i: nat) | Pushed(i: nat) | EnqueueRaised(i: nat)

  predicate EnumEvent(e: Event) {
    e.GetSeed? || e.PutTask? || e.ListingDone? || e.ListingRaised?
  }

  predicate EnqEvent(e: Event) {
    e.GetTask? || e.Considered? || e.Pushed? || e.EnqueueRaised?
  }

  predicate Enabled(cfg: Config, s: State, e: Event) {
    match e
    case PutSeed => s.main.Feeding? && s.seeds != [] && |s.enumJobs| < cfg.maxSize
    case SeedsFed => s.main.Feeding? && s.seeds == []
    case SeedsJoined => s.main.JoiningSeeds? && s.enumUnfinished == 0
    case TasksJoined => s.main.JoiningTasks? && s.enqUnfinished == 0
    case GetSeed(i) => i < |s.enumWorkers| && s.enumWorkers[i].Getting? && s.enumJobs != []
    case PutTask(i) => i < |s.enumWorkers| && s.enumWorkers[i].Listing? && s.enumWorkers[i].rest != []
                       && |s.enqueueJobs| < cfg.maxSize
    case ListingDone(i) => i < |s.enumWorkers| && s.enumWorkers[i] == Listing([])
    case ListingRaised(i) => i < |s.enumWorkers| && s.enumWorkers[i].Listing?
    case GetTask(i) => i < |s.enqWorkers| && s.enqWorkers[i].Idle? && s.enqueueJobs != []
    case Considered(i) => i < |s.enqWorkers| && s.enqWorkers[i].Considering?
    case Pushed(i) => i < |s.enqWorkers| && s.enqWorkers[i].Pushing?
    case EnqueueRaised(i) => i < |s.enqWorkers| && (s.enqWorkers[i].Considering? || s.enqWorkers[i].Pushing?)
  }

  function SetEnum(s: State, i: nat, w: EnumWorker): State
    requires i < |s.enumWorkers|
  {
    s.(enumWorkers := s.enumWorkers[i := w])
  }

  function SetEnq(s: State, i: nat, w: EnqWorker): State
    requires i < |s.enqWorkers|
  {
    s.(enqWorkers := s.enqWorkers[i := w])
  }

  function Apply(cfg: Config, s: State, e: Event): State
    requires Enabled(cfg, s, e)
  {
    match e
    case PutSeed =>
      s.(seeds := s.seeds[1..], enumJobs := s.enumJobs + [s.seeds[0]], enumUnfinished := s.enumUnfinished + 1)
    case SeedsFed => s.(main := JoiningSeeds)
    case SeedsJoined => s.(main := JoiningTasks)
    case TasksJoined => s.(main := Joined)
    case GetSeed(i) =>
      var t := s.(enumJobs := s.enumJobs[1..]);
      if s.enumJobs[0].None? then
        SetEnum(t, i, EnumEnded).(enumUnfinished := s.enumUnfinished - 1, enumEnded := s.enumEnded + 1)
      else SetEnum(t, i, Listing(cfg.list(s.enumJobs[0].value)))
    case PutTask(i) =>
      var rest := s.enumWorkers[i].rest;
      SetEnum(s, i, Listing(rest[1..]))
        .(enqueueJobs := s.enqueueJobs + [rest[0]], enqUnfinished := s.enqUnfinished + 1)
    case ListingDone(i) => SetEnum(s, i, Getting).(enumUnfinished := s.enumUnfinished - 1)
    case ListingRaised(i) =>
      SetEnum(s, i, EnumEnded)
        .(enumUnfinished := s.enumUnfinished - 1, enumEnded := s.enumEnded + 1,
          unlisted := s.unlisted + multiset(s.enumWorkers[i].rest))
    case GetTask(i) =>
      var t := s.(enqueueJobs := s.enqueueJobs[1..]);
      if s.enqueueJobs[0].None? then SetEnq(t, i, EnqEnded).(swallowed := s.swallowed + 1)
      else SetEnq(t, i, Considering(s.enqueueJobs[0].value))
    case Considered(i) =>
      var w := s.enqWorkers[i].work;
      var t := s.(considered := s.considered + multiset{w});
      if cfg.wanted(w) && !cfg.dryRun then SetEnq(t, i, Pushing(w))
      else SetEnq(t, i, Idle).(enqUnfinished := s.enqUnfinished - 1)
    case Pushed(i) =>
      SetEnq(s, i, Idle)
        .(futures := s.futures + multiset{s.enqWorkers[i].pushing}, enqUnfinished := s.enqUnfinished - 1)
    case EnqueueRaised(i) =>
      var t := SetEnq(s, i, EnqEnded).(enqUnfinished := s.enqUnfinished - 1, exceptions := s.exceptions + 1);
      if s.enqWorkers[i].Considering? then t.(dropped := s.dropped + multiset{s.enqWorkers[i].work})
      else t.(unpushed := s.unpushed + multiset{s.enqWorkers[i].pushing})
  }

  ghost predicate Run(cfg: Config, s: State, events: seq<Event>, s': State)
    decreases |events|
  {
    if events == [] then s == s'
    else Enabled(cfg, s, events[0]) && Run(cfg, Apply(cfg, s, events[0]), events[1..], s')
  }

  // ---- where an item can be ----

  function InSeed(cfg: Config, x: Item): Option<Seed> -> int {
    (seed: Option<Seed>) => if seed.None? then 0 else multiset(cfg.list(seed.value))[x]
  }

  function InListing(x: Item): EnumWorker -> int {
    (w: EnumWorker) => if w.Listing? then multiset(w.rest)[x] else 0
  }

  function InQueue(x: Item): Item -> int {
    (y: Item) => if y == x then 1 else 0
  }

  function InHand(x: Item): EnqWorker -> int {
    (w: EnqWorker) => if w.Considering? && Some(w.work) == x then 1 else 0
  }

  function BeingPushed(v: Work): EnqWorker -> int {
    (w: EnqWorker) => if w.Pushing? && w.pushing == v then 1 else 0
  }

  /** Occurrences of `x` that are done with. */
  function Finished(s: State, x: Item): int {
    if x.None? then s.swallowed else s.considered[x.value] + s.dropped[x.value]
  }

  /** All occurrences of `x`, wherever they are. */
  function Occurrences(cfg: Config, s: State, x: Item): int {
    SumOf(s.seeds, InSeed(cfg, x)) + SumOf(s.enumJobs, InSeed(cfg, x)) + SumOf(s.enumWorkers, InListing(x))
    + SumOf(s.enqueueJobs, InQueue(x)) + SumOf(s.enqWorkers, InHand(x)) + Finished(s, x) + s.unlisted[x]
  }

  lemma OccurrencesGetSeed(cfg: Config, s: State, e: Event, x: Item)
    requires Enabled(cfg, s, e) && e.GetSeed?
    ensures Occurrences(cfg, Apply(cfg, s, e), x) == Occurrences(cfg, s, x)
  {
    SumOfUpdate(s.enumWorkers, e.i, Apply(cfg, s, e).enumWorkers[e.i], InListing(x));
    SumOfTail(s.enumJobs, InSeed(cfg, x));
  }

  lemma OccurrencesPutTask(cfg: Config, s: State, e: Event, x: Item)
    requires Enabled(cfg, s, e) && e.PutTask?
    ensures Occurrences(cfg, Apply(cfg, s, e), x) == Occurrences(cfg, s, x)
  {
    var rest := s.enumWorkers[e.i].rest;
    SumOfUpdate(s.enumWorkers, e.i, Listing(rest[1..]), InListing(x));
    SumOfAppend(s.enqueueJobs, rest[0], InQueue(x));
    assert multiset(rest)[x] == InQueue(x)(rest[0]) + multiset(rest[1..])[x] by {
      assert rest == [rest[0]] + rest[1..];
    }
  }

  lemma OccurrencesListingEnds(cfg: Config, s: State, e: Event, x: Item)
    requires Enabled(cfg, s, e) && (e.ListingDone? || e.ListingRaised?)
    ensures Occurrences(cfg, Apply(cfg, s, e), x) == Occurrences(cfg, s, x)
  {
    SumOfUpdate(s.enumWorkers, e.i, Apply(cfg, s, e).enumWorkers[e.i], InListing(x));
  }

  lemma OccurrencesGetTask(cfg: Config, s: State, e: Event, x: Item)
    requires Enabled(cfg, s, e) && e.GetTask?
    ensures Occurrences(cfg, Apply(cfg, s, e), x) == Occurrences(cfg, s, x)
  {
    SumOfUpdate(s.enqWorkers, e.i, Apply(cfg, s, e).enqWorkers[e.i], InHand(x));
    SumOfTail(s.enqueueJobs, InQueue(x));
  }

  lemma OccurrencesConsidered(cfg: Config, s: State, e: Event, x: Item)
    requires Enabled(cfg, s, e) && e.Considered?
    ensures Occurrences(cfg, Apply(cfg, s, e), x) == Occurrences(cfg, s, x)
  {
    SumOfUpdate(s.enqWorkers, e.i, Apply(cfg, s, e).enqWorkers[e.i], InHand(x));
  }

  lemma OccurrencesPushed(cfg: Config, s: State, e: Event, x: Item)
    requires Enabled(cfg, s, e) && e.Pushed?
    ensures Occurrences(cfg, Apply(cfg, s, e), x) == Occurrences(cfg, s, x)
  {
    SumOfUpdate(s.enqWorkers, e.i, Idle, InHand(x));
  }

  lemma OccurrencesEnqueueRaised(cfg: Config, s: State, e: Event, x: Item)
    requires Enabled(cfg, s, e) && e.EnqueueRaised?
    ensures Occurrences(cfg, Apply(cfg, s, e), x) == Occurrences(cfg, s, x)
  {
    SumOfUpdate(s.enqWorkers, e.i, EnqEnded, InHand(x));
  }

  /** Conservation: no step loses or doubles an item. */
  lemma OccurrencesStep(cfg: Config, s: State, e: Event, x: Item)
    requires Enabled(cfg, s, e)
    ensures Occurrences(cfg, Apply(cfg, s, e), x) == Occurrences(cfg, s, x)
  {
    match e {
      case PutSeed =>
        SumOfTail(s.seeds, InSeed(cfg, x));
        SumOfAppend(s.enumJobs, s.seeds[0], InSeed(cfg, x));
      case GetSeed(_) => OccurrencesGetSeed(cfg, s, e, x);
      case PutTask(_) => OccurrencesPutTask(cfg, s, e, x);
      case ListingDone(_) => OccurrencesListingEnds(cfg, s, e, x);
      case ListingRaised(_) => OccurrencesListingEnds(cfg, s, e, x);
      case GetTask(_) => OccurrencesGetTask(cfg, s, e, x);
      case Considered(_) => OccurrencesConsidered(cfg, s, e, x);
      case Pushed(_) => OccurrencesPushed(cfg, s, e, x);
      case EnqueueRaised(_) => OccurrencesEnqueueRaised(cfg, s, e, x);
      case _ =>
    }
  }

  /** Considered tasks that deserve a job are pushed, being pushed, or hit by an exception. */
  ghost predicate FuturesOk(cfg: Config, s: State, v: Work) {
    s.futures[v] + SumOf(s.enqWorkers, BeingPushed(v)) + s.unpushed[v]
    == if cfg.wanted(v) && !cfg.dryRun then s.considered[v] else 0
  }

  lemma FuturesGetTask(cfg: Config, s: State, e: Event, v: Work)
    requires Enabled(cfg, s, e) && FuturesOk(cfg, s, v) && e.GetTask?
    ensures FuturesOk(cfg, Apply(cfg, s, e), v)
  {
    SumOfUpdate(s.enqWorkers, e.i, Apply(cfg, s, e).enqWorkers[e.i], BeingPushed(v));
  }

  lemma FuturesConsidered(cfg: Config, s: State, e: Event, v: Work)
    requires Enabled(cfg, s, e) && FuturesOk(cfg, s, v) && e.Considered?
    ensures FuturesOk(cfg, Apply(cfg, s, e), v)
  {
    SumOfUpdate(s.enqWorkers, e.i, Apply(cfg, s, e).enqWorkers[e.i], BeingPushed(v));
  }

  lemma FuturesPushed(cfg: Config, s: State, e: Event, v: Work)
    requires Enabled(cfg, s, e) && FuturesOk(cfg, s, v) && e.Pushed?
    ensures FuturesOk(cfg, Apply(cfg, s, e), v)
  {
    SumOfUpdate(s.enqWorkers, e.i, Idle, BeingPushed(v));
  }

  lemma FuturesEnqueueRaised(cfg: Config, s: State, e: Event, v: Work)
    requires Enabled(cfg, s, e) && FuturesOk(cfg, s, v) && e.EnqueueRaised?
    ensures FuturesOk(cfg, Apply(cfg, s, e), v)
  {
    SumOfUpdate(s.enqWorkers, e.i, EnqEnded, BeingPushed(v));
  }

  lemma FuturesStep(cfg: Config, s: State, e: Event, v: Work)
    requires Enabled(cfg, s, e) && FuturesOk(cfg, s, v)
    ensures FuturesOk(cfg, Apply(cfg, s, e), v)
  {
    match e {
      case GetTask(_) => FuturesGetTask(cfg, s, e, v);
      case Considered(_) => FuturesConsidered(cfg, s, e, v);
      case Pushed(_) => FuturesPushed(cfg, s, e, v);
      case EnqueueRaised(_) => FuturesEnqueueRaised(cfg, s, e, v);
      case _ =>
    }
  }

  // ---- the join counters ----

  function IsListing(w: EnumWorker): int {
    if w.Listing? then 1 else 0
  }

  function IsBusy(w: EnqWorker): int {
    if w.Considering? || w.Pushing? then 1 else 0
  }

  ghost predicate CountersOk(s: State) {
    && s.enumUnfinished == |s.enumJobs| + SumOf(s.enumWorkers, IsListing)
    && s.enqUnfinished == |s.enqueueJobs| + SumOf(s.enqWorkers, IsBusy) + s.swallowed
    && |s.dropped| + |s.unpushed| == s.exceptions
    && (!s.main.Feeding? ==> s.seeds == [])
    && (s.main.JoiningTasks? || s.main.Joined? ==> s.enumUnfinished == 0)
    && (s.main.Joined? ==> s.enqUnfinished == 0)
  }

  lemma Sums(s: State)
    ensures forall i :: 0 <= i < |s.enumWorkers| ==> IsListing(s.enumWorkers[i]) <= SumOf(s.enumWorkers, IsListing)
    ensures forall i :: 0 <= i < |s.enqWorkers| ==> IsBusy(s.enqWorkers[i]) <= SumOf(s.enqWorkers, IsBusy)
    ensures SumOf(s.enumWorkers, IsListing) >= 0 && SumOf(s.enqWorkers, IsBusy) >= 0
  {
    SumOfNonNegative(s.enumWorkers, IsListing);
    SumOfNonNegative(s.enqWorkers, IsBusy);
  }

  lemma CountersEnumStep(cfg: Config, s: State, e: Event)
    requires Enabled(cfg, s, e) && CountersOk(s) && EnumEvent(e)
    ensures CountersOk(Apply(cfg, s, e))
  {
    Sums(s);
    SumOfUpdate(s.enumWorkers, e.i, Apply(cfg, s, e).enumWorkers[e.i], IsListing);
  }

  lemma CountersGetTask(cfg: Config, s: State, e: Event)
    requires Enabled(cfg, s, e) && CountersOk(s) && e.GetTask?
    ensures CountersOk(Apply(cfg, s, e))
  {
    Sums(s);
    SumOfUpdate(s.enqWorkers, e.i, Apply(cfg, s, e).enqWorkers[e.i], IsBusy);
  }

  lemma CountersTaskEnds(cfg: Config, s: State, e: Event)
    requires Enabled(cfg, s, e) && CountersOk(s) && (e.Considered? || e.Pushed?)
    ensures CountersOk(Apply(cfg, s, e))
  {
    Sums(s);
    SumOfUpdate(s.enqWorkers, e.i, Apply(cfg, s, e).enqWorkers[e.i], IsBusy);
  }

  lemma CountersEnqueueRaised(cfg: Config, s: State, e: Event)
    requires Enabled(cfg, s, e) && CountersOk(s) && e.EnqueueRaised?
    ensures CountersOk(Apply(cfg, s, e))
  {
    Sums(s);
    SumOfUpdate(s.enqWorkers, e.i, EnqEnded, IsBusy);
  }

  lemma CountersStep(cfg: Config, s: State, e: Event)
    requires Enabled(cfg, s, e) && CountersOk(s)
    ensures CountersOk(Apply(cfg, s, e))
  {
    if EnumEvent(e) {
      CountersEnumStep(cfg, s, e);
    } else if e.GetTask? {
      CountersGetTask(cfg, s, e);
    } else if e.EnqueueRaised? {
      CountersEnqueueRaised(cfg, s, e);
    } else if EnqEvent(e) {
      CountersTaskEnds(cfg, s, e);
    }
  }

  /** The queues are bounded: neither ever holds more than its maximum. */
  lemma {:induction false} QueuesBounded(cfg: Config, s: State, events: seq<Event>, s': State)
    requires Run(cfg, s, events, s') && |s.enumJobs| <= cfg.maxSize && |s.enqueueJobs| <= cfg.maxSize
    ensures |s'.enumJobs| <= cfg.maxSize && |s'.enqueueJobs| <= cfg.maxSize
    decreases |events|
  {
    if events != [] {
      QueuesBounded(cfg, Apply(cfg, s, events[0]), events[1..], s');
    }
  }

  // ---- workers alive ----

  function EnumAlive(w: EnumWorker): int {
    if w.EnumEnded? then 0 else 1
  }

  function EnqAlive(w: EnqWorker): int {
    if w.EnqEnded? then 0 else 1
  }

  ghost predicate AliveOk(s: State, numEnum: nat, numEnq: nat) {
    && SumOf(s.enumWorkers, EnumAlive) + s.enumEnded == numEnum
    && SumOf(s.enqWorkers, EnqAlive) + s.exceptions + s.swallowed == numEnq
  }

  lemma EnumAliveStep(cfg: Config, s: State, e: Event, numEnum: nat, numEnq: nat)
    requires Enabled(cfg, s, e) && AliveOk(s, numEnum, numEnq) && EnumEvent(e)
    ensures AliveOk(Apply(cfg, s, e), numEnum, numEnq)
  {
    SumOfUpdate(s.enumWorkers, e.i, Apply(cfg, s, e).enumWorkers[e.i], EnumAlive);
  }

  lemma GetTaskAlive(cfg: Config, s: State, e: Event, numEnum: nat, numEnq: nat)
    requires Enabled(cfg, s, e) && AliveOk(s, numEnum, numEnq) && e.GetTask?
    ensures AliveOk(Apply(cfg, s, e), numEnum, numEnq)
  {
    SumOfUpdate(s.enqWorkers, e.i, Apply(cfg, s, e).enqWorkers[e.i], EnqAlive);
  }

  lemma TaskEndsAlive(cfg: Config, s: State, e: Event, numEnum: nat, numEnq: nat)
    requires Enabled(cfg, s, e) && AliveOk(s, numEnum, numEnq) && EnqEvent(e) && !e.GetTask?
    ensures AliveOk(Apply(cfg, s, e), numEnum, numEnq)
  {
    SumOfUpdate(s.enqWorkers, e.i, Apply(cfg, s, e).enqWorkers[e.i], EnqAlive);
  }

  lemma AliveStep(cfg: Config, s: State, e: Event, numEnum: nat, numEnq: nat)
    requires Enabled(cfg, s, e) && AliveOk(s, numEnum, numEnq)
    ensures AliveOk(Apply(cfg, s, e), numEnum, numEnq)
  {
    if EnumEvent(e) {
      EnumAliveStep(cfg, s, e, numEnum, numEnq);
    } else if e.GetTask? {
      GetTaskAlive(cfg, s, e, numEnum, numEnq);
    } else if EnqEvent(e) {
      TaskEndsAlive(cfg, s, e, numEnum, numEnq);
    }
  }

  lemma {:induction false} AllAlive(numEnum: nat, numEnq: nat)
    ensures SumOf(seq(numEnum, _ => Getting), EnumAlive) == numEnum
    ensures SumOf(seq(numEnq, _ => Idle), EnqAlive) == numEnq
    decreases numEnum + numEnq
  {
    if numEnum > 0 {
      AllAlive(numEnum - 1, numEnq);
      assert seq(numEnum, _ => Getting)[..numEnum - 1] == seq(numEnum - 1, _ => Getting);
    } else if numEnq > 0 {
      AllAlive(numEnum, numEnq - 1);
      assert seq(numEnq, _ => Idle)[..numEnq - 1] == seq(numEnq - 1, _ => Idle);
    }
  }

  lemma EnumWorkerAlive(s: State, numEnum: nat, numEnq: nat) returns (a: nat)
    requires AliveOk(s, numEnum, numEnq) && s.enumEnded < numEnum
    ensures a < |s.enumWorkers| && !s.enumWorkers[a].EnumEnded?
  {
    if forall i :: 0 <= i < |s.enumWorkers| ==> s.enumWorkers[i].EnumEnded? {
      SumOfZero(s.enumWorkers, EnumAlive);
      assert false;
    }
    a :| a < |s.enumWorkers| && !s.enumWorkers[a].EnumEnded?;
  }

  lemma EnqWorkerAlive(s: State, numEnum: nat, numEnq: nat) returns (b: nat)
    requires AliveOk(s, numEnum, numEnq) && s.exceptions + s.swallowed < numEnq
    ensures b < |s.enqWorkers| && !s.enqWorkers[b].EnqEnded?
  {
    if forall i :: 0 <= i < |s.enqWorkers| ==> s.enqWorkers[i].EnqEnded? {
      SumOfZero(s.enqWorkers, EnqAlive);
      assert false;
    }
    b :| b < |s.enqWorkers| && !s.enqWorkers[b].EnqEnded?;
  }

  // ---- all runs ----

  ghost predicate Inv(cfg: Config, seeds: seq<Option<Seed>>, numEnum: nat, numEnq: nat, s: State) {
    && CountersOk(s)
    && AliveOk(s, numEnum, numEnq)
    && (forall x :: Occurrences(cfg, s, x) == SumOf(seeds, InSeed(cfg, x)))
    && (forall v :: FuturesOk(cfg, s, v))
  }

  lemma {:induction false} InvRun(cfg: Config, seeds: seq<Option<Seed>>, numEnum: nat, numEnq: nat, s: State,
          events: seq<Event>, s': State)
    requires Inv(cfg, seeds, numEnum, numEnq, s) && Run(cfg, s, events, s')
    ensures Inv(cfg, seeds, numEnum, numEnq, s')
    decreases |events|
  {
    if events != [] {
      var e := events[0];
      var next := Apply(cfg, s, e);
      CountersStep(cfg, s, e);
      AliveStep(cfg, s, e, numEnum, numEnq);
      forall x ensures Occurrences(cfg, next, x) == SumOf(seeds, InSeed(cfg, x)) {
        OccurrencesStep(cfg, s, e, x);
      }
      forall v ensures FuturesOk(cfg, next, v) {
        FuturesStep(cfg, s, e, v);
      }
      InvRun(cfg, seeds, numEnum, numEnq, next, events[1..], s');
    }
  }

  lemma Reachable(cfg: Config, seeds: seq<Option<Seed>>, numEnum: nat, numEnq: nat, events: seq<Event>, s: State)
    requires Run(cfg, Launch(seeds, numEnum, numEnq), events, s)
    ensures Inv(cfg, seeds, numEnum, numEnq, s)
  {
    var s0 := Launch(seeds, numEnum, numEnq);
    SumOfZero(s0.enumWorkers, IsListing);
    SumOfZero(s0.enqWorkers, IsBusy);
    AllAlive(numEnum, numEnq);
    forall x ensures Occurrences(cfg, s0, x) == SumOf(seeds, InSeed(cfg, x)) {
      SumOfZero(s0.enumWorkers, InListing(x));
      SumOfZero(s0.enqWorkers, InHand(x));
    }
    forall v ensures FuturesOk(cfg, s0, v) {
      SumOfZero(s0.enqWorkers, BeingPushed(v));
    }
    InvRun(cfg, seeds, numEnum, numEnq, s0, events, s);
  }

  /** When both joins have returned, every task listed from every seed has been considered exactly as
      often as it was listed, but for those an exception took, one per exception; and the futures
      are exactly the considered tasks that deserve a job, in a dry run none. */
  lemma DrainsExactlyOnce(cfg: Config, seeds: seq<Option<Seed>>, numEnum: nat, numEnq: nat, events: seq<Event>,
          s: State, v: Work)
    requires Run(cfg, Launch(seeds, numEnum, numEnq), events, s) && s.main.Joined?
    ensures s.considered[v] + s.dropped[v] + s.unlisted[Some(v)] == SumOf(seeds, InSeed(cfg, Some(v)))
    ensures s.futures[v] + s.unpushed[v] == if cfg.wanted(v) && !cfg.dryRun then s.considered[v] else 0
    ensures |s.dropped| + |s.unpushed| == s.exceptions
    ensures s.swallowed == 0
  {
    Reachable(cfg, seeds, numEnum, numEnq, events, s);
    Sums(s);
    assert Occurrences(cfg, s, Some(v)) == SumOf(seeds, InSeed(cfg, Some(v)));
    assert FuturesOk(cfg, s, v);
    SumOfZero(s.enumWorkers, InListing(Some(v)));
    SumOfZero(s.enqWorkers, InHand(Some(v)));
    SumOfZero(s.enqWorkers, BeingPushed(v));
  }

  /** A None that `list_tasks` yields ends its enqueue worker without `task_done`: from then on the
      second join never returns. */
  lemma NoneItemBlocksJoin(cfg: Config, seeds: seq<Option<Seed>>, numEnum: nat, numEnq: nat, events: seq<Event>,
          s: State)
    requires Run(cfg, Launch(seeds, numEnum, numEnq), events, s) && s.swallowed > 0
    ensures !s.main.Joined?
  {
    if s.main.Joined? {
      DrainsExactlyOnce(cfg, seeds, numEnum, numEnq, events, s, 0);
    }
  }

  // ---- no deadlock ----

  ghost predicate NoneFree(cfg: Config, seeds: seq<Option<Seed>>) {
    forall seed :: seed in seeds && seed.Some? ==> None !in cfg.list(seed.value)
  }

  lemma NothingSwallowed(cfg: Config, seeds: seq<Option<Seed>>, numEnum: nat, numEnq: nat, s: State)
    requires Inv(cfg, seeds, numEnum, numEnq, s) && NoneFree(cfg, seeds)
    ensures s.swallowed == 0
  {
    var x: Item := None;
    assert Occurrences(cfg, s, x) == SumOf(seeds, InSeed(cfg, x));
    SumOfZero(seeds, InSeed(cfg, x));
    SumOfNonNegative(s.seeds, InSeed(cfg, x));
    SumOfNonNegative(s.enumJobs, InSeed(cfg, x));
    SumOfNonNegative(s.enumWorkers, InListing(x));
    SumOfNonNegative(s.enqueueJobs, InQueue(x));
    SumOfNonNegative(s.enqWorkers, InHand(x));
  }

  function IsNone(seed: Option<Seed>): int {
    if seed.None? then 1 else 0
  }

  function SeedsLeft(s: State): seq<Option<Seed>> {
    s.enumJobs + s.seeds
  }

  /** There are enough enumeration workers for the seeds left: each None among them takes one away, and
      the last seed needs one too. */
  ghost predicate Takeable(left: seq<Option<Seed>>, ended: nat, numEnum: nat) {
    left == [] || ended + SumOf(left[..|left| - 1], IsNone) < numEnum
  }

  lemma TakeableNeedsWorker(left: seq<Option<Seed>>, ended: nat, numEnum: nat)
    requires Takeable(left, ended, numEnum) && left != []
    ensures ended < numEnum
  {
    SumOfNonNegative(left[..|left| - 1], IsNone);
  }

  /** With fewer exceptions than enqueue workers and an enumeration worker alive or no seed left, a run
      that has not drained can go on, although both queues are bounded. */
  lemma NeverStuck(cfg: Config, seeds: seq<Option<Seed>>, numEnum: nat, numEnq: nat, events: seq<Event>, s: State)
    returns (e: Event)
    requires Run(cfg, Launch(seeds, numEnum, numEnq), events, s) && !s.main.Joined?
    requires NoneFree(cfg, seeds) && cfg.maxSize > 0
    requires s.exceptions < numEnq && (s.enumEnded < numEnum || SeedsLeft(s) == [])
    ensures Enabled(cfg, s, e) && !e.ListingRaised? && !e.EnqueueRaised?
  {
    Reachable(cfg, seeds, numEnum, numEnq, events, s);
    NothingSwallowed(cfg, seeds, numEnum, numEnq, s);
    var b := EnqWorkerAlive(s, numEnum, numEnq);
    if s.enqWorkers[b].Considering? {
      return Considered(b);
    } else if s.enqWorkers[b].Pushing? {
      return Pushed(b);
    } else if s.enqueueJobs != [] {
      return GetTask(b);
    } else if i :| 0 <= i < |s.enumWorkers| && s.enumWorkers[i].Listing? {
      return if s.enumWorkers[i].rest == [] then ListingDone(i) else PutTask(i);
    } else if s.enumJobs != [] {
      var a := EnumWorkerAlive(s, numEnum, numEnq);
      return GetSeed(a);
    } else if i :| 0 <= i < |s.enqWorkers| && IsBusy(s.enqWorkers[i]) == 1 {
      return if s.enqWorkers[i].Considering? then Considered(i) else Pushed(i);
    }
    SumOfZero(s.enumWorkers, IsListing);
    SumOfZero(s.enqWorkers, IsBusy);
    match s.main {
      case Feeding => return if s.seeds == [] then SeedsFed else PutSeed;
      case JoiningSeeds => return SeedsJoined;
      case JoiningTasks => return TasksJoined;
    }
  }

  // ---- every run ends ----

  function SeedWeight(cfg: Config): Option<Seed> -> int {
    (seed: Option<Seed>) => if seed.None? then 3 else 3 + 5 * |cfg.list(seed.value)|
  }

  function EnumWeight(w: EnumWorker): int {
    if w.Listing? then 2 + 5 * |w.rest| else 0
  }

  function EnqWeight(w: EnqWorker): int {
    match w
    case Considering(_) => 3
    case Pushing(_) => 2
    case _ => 0
  }

  function ItemWeight(x: Item): int { 4 }

  /** An upper bound for the steps left. */
  function Remaining(cfg: Config, s: State): int {
    SumOf(s.seeds, SeedWeight(cfg)) + |s.seeds| + SumOf(s.enumJobs, SeedWeight(cfg))
    + SumOf(s.enumWorkers, EnumWeight) + SumOf(s.enqueueJobs, ItemWeight) + SumOf(s.enqWorkers, EnqWeight)
    + match s.main case Feeding => 3 case JoiningSeeds => 2 case JoiningTasks => 1 case Joined => 0
  }

  lemma RemainingEnumStep(cfg: Config, s: State, e: Event)
    requires Enabled(cfg, s, e) && EnumEvent(e)
    ensures Remaining(cfg, Apply(cfg, s, e)) < Remaining(cfg, s)
  {
    SumOfUpdate(s.enumWorkers, e.i, Apply(cfg, s, e).enumWorkers[e.i], EnumWeight);
    if e.GetSeed? {
      SumOfTail(s.enumJobs, SeedWeight(cfg));
    } else if e.PutTask? {
      SumOfAppend(s.enqueueJobs, s.enumWorkers[e.i].rest[0], ItemWeight);
    }
  }

  lemma RemainingGetTask(cfg: Config, s: State, e: Event)
    requires Enabled(cfg, s, e) && e.GetTask?
    ensures Remaining(cfg, Apply(cfg, s, e)) < Remaining(cfg, s)
  {
    SumOfUpdate(s.enqWorkers, e.i, Apply(cfg, s, e).enqWorkers[e.i], EnqWeight);
    SumOfTail(s.enqueueJobs, ItemWeight);
  }

  lemma RemainingTaskEnds(cfg: Config, s: State, e: Event)
    requires Enabled(cfg, s, e) && (e.Considered? || e.Pushed?)
    ensures Remaining(cfg, Apply(cfg, s, e)) < Remaining(cfg, s)
  {
    SumOfUpdate(s.enqWorkers, e.i, Apply(cfg, s, e).enqWorkers[e.i], EnqWeight);
  }

  lemma RemainingEnqueueRaised(cfg: Config, s: State, e: Event)
    requires Enabled(cfg, s, e) && e.EnqueueRaised?
    ensures Remaining(cfg, Apply(cfg, s, e)) < Remaining(cfg, s)
  {
    SumOfUpdate(s.enqWorkers, e.i, EnqEnded, EnqWeight);
  }

  lemma RemainingStep(cfg: Config, s: State, e: Event)
    requires Enabled(cfg, s, e)
    ensures Remaining(cfg, Apply(cfg, s, e)) < Remaining(cfg, s)
  {
    if EnumEvent(e) {
      RemainingEnumStep(cfg, s, e);
    } else if e.GetTask? {
      RemainingGetTask(cfg, s, e);
    } else if e.EnqueueRaised? {
      RemainingEnqueueRaised(cfg, s, e);
    } else if EnqEvent(e) {
      RemainingTaskEnds(cfg, s, e);
    } else if e.PutSeed? {
      SumOfTail(s.seeds, SeedWeight(cfg));
      SumOfAppend(s.enumJobs, s.seeds[0], SeedWeight(cfg));
    }
  }

  /** No run is longer than the work there is: with `NeverStuck`, the pipeline drains. */
  lemma {:induction false} RunsAreFinite(cfg: Config, s: State, events: seq<Event>, s': State)
    requires Run(cfg, s, events, s')
    ensures |events| <= Remaining(cfg, s)
    decreases |events|
  {
    if events == [] {
      SumOfNonNegative(s.seeds, SeedWeight(cfg));
      SumOfNonNegative(s.enumJobs, SeedWeight(cfg));
      SumOfNonNegative(s.enumWorkers, EnumWeight);
      SumOfNonNegative(s.enqueueJobs, ItemWeight);
      SumOfNonNegative(s.enqWorkers, EnqWeight);
    } else {
      RemainingStep(cfg, s, events[0]);
      RunsAreFinite(cfg, Apply(cfg, s, events[0]), events[1..], s');
    }
  }

  // ---- the pipeline can always drain ----

  lemma RunCons(cfg: Config, s: State, e: Event, rest: seq<Event>, s': State)
    requires Enabled(cfg, s, e) && Run(cfg, Apply(cfg, s, e), rest, s')
    ensures Run(cfg, s, [e] + rest, s')
  {
    assert ([e] + rest)[1..] == rest;
  }

  lemma HeadOfAppend(events: seq<Event>, more: seq<Event>)
    requires events != []
    ensures events + more == [events[0]] + (events[1..] + more)
  {
  }

  lemma {:induction false} RunAppend(cfg: Config, s: State, events: seq<Event>, mid: State, more: seq<Event>, s': State)
    requires Run(cfg, s, events, mid) && Run(cfg, mid, more, s')
    ensures Run(cfg, s, events + more, s')
    decreases |events|
  {
    if events == [] {
      assert events + more == more;
    } else {
      RunAppend(cfg, Apply(cfg, s, events[0]), events[1..], mid, more, s');
      RunCons(cfg, s, events[0], events[1..] + more, s');
      HeadOfAppend(events, more);
    }
  }

  lemma RunSnoc(cfg: Config, s: State, events: seq<Event>, mid: State, e: Event)
    requires Run(cfg, s, events, mid) && Enabled(cfg, mid, e)
    ensures Run(cfg, s, events + [e], Apply(cfg, mid, e))
  {
    var s' := Apply(cfg, mid, e);
    assert Run(cfg, s', [], s') && [e] == [e] + [];
    RunCons(cfg, mid, e, [], s');
    RunAppend(cfg, s, events, mid, [e], s');
  }

  /** Taking a seed leaves exactly as many seeds takeable as before, if a worker is there to take it. */
  lemma TakeableTail(left: seq<Option<Seed>>, ended: nat, numEnum: nat)
    requires left != [] && ended < numEnum
    ensures Takeable(left[1..], ended + IsNone(left[0]), numEnum) <==> Takeable(left, ended, numEnum)
  {
    if |left| > 1 {
      var init := left[..|left| - 1];
      SumOfTail(init, IsNone);
      assert left[1..][..|left| - 2] == init[1..];
    }
  }

  lemma SeedsFrame(cfg: Config, s: State, e: Event)
    requires Enabled(cfg, s, e) && !e.GetSeed?
    ensures var t := Apply(cfg, s, e);
            SeedsLeft(t) == SeedsLeft(s) && t.enumEnded == if e.ListingRaised? then s.enumEnded + 1 else s.enumEnded
  {
  }

  lemma TakeableGetSeed(cfg: Config, s: State, e: Event, numEnum: nat)
    requires Enabled(cfg, s, e) && e.GetSeed? && s.enumEnded < numEnum
    ensures var t := Apply(cfg, s, e);
            Takeable(SeedsLeft(t), t.enumEnded, numEnum) <==> Takeable(SeedsLeft(s), s.enumEnded, numEnum)
  {
    var t := Apply(cfg, s, e);
    assert SeedsLeft(t) == SeedsLeft(s)[1..];
    assert t.enumEnded == s.enumEnded + IsNone(SeedsLeft(s)[0]);
    TakeableTail(SeedsLeft(s), s.enumEnded, numEnum);
  }

  /** No step but an exception of a listing changes whether the seeds left can all be taken. */
  lemma TakeableStep(cfg: Config, s: State, e: Event, numEnum: nat, numEnq: nat)
    requires Enabled(cfg, s, e) && AliveOk(s, numEnum, numEnq)
    ensures var before := Takeable(SeedsLeft(s), s.enumEnded, numEnum);
            var after := Takeable(SeedsLeft(Apply(cfg, s, e)), Apply(cfg, s, e).enumEnded, numEnum);
            if e.ListingRaised? then after ==> before else after <==> before
  {
    if e.GetSeed? {
      SumOfNonNegative(s.enumWorkers, EnumAlive);
      assert EnumAlive(s.enumWorkers[e.i]) == 1;
      TakeableGetSeed(cfg, s, e, numEnum);
    } else {
      SeedsFrame(cfg, s, e);
    }
  }

  lemma NothingRaised(cfg: Config, s: State, e: Event)
    requires Enabled(cfg, s, e) && !e.ListingRaised? && !e.EnqueueRaised?
    ensures Apply(cfg, s, e).exceptions == s.exceptions && Apply(cfg, s, e).unlisted == s.unlisted
  {
  }

  /** From every state reached with an enqueue worker left and enough enumeration workers for its seeds the
      pipeline can still be drained: without another exception both joins return, after at most
      `Remaining` steps. */
  lemma {:induction false} CanDrain(cfg: Config, seeds: seq<Option<Seed>>, numEnum: nat, numEnq: nat,
          events: seq<Event>, s: State)
    returns (more: seq<Event>, s': State)
    requires Run(cfg, Launch(seeds, numEnum, numEnq), events, s)
    requires NoneFree(cfg, seeds) && cfg.maxSize > 0
    requires s.exceptions < numEnq && Takeable(SeedsLeft(s), s.enumEnded, numEnum)
    ensures Run(cfg, s, more, s') && s'.main.Joined?
    ensures s'.exceptions == s.exceptions && s'.unlisted == s.unlisted && |more| <= Remaining(cfg, s)
    decreases Remaining(cfg, s)
  {
    RunsAreFinite(cfg, s, [], s);
    if s.main.Joined? {
      more, s' := [], s;
    } else {
      if SeedsLeft(s) != [] {
        TakeableNeedsWorker(SeedsLeft(s), s.enumEnded, numEnum);
      }
      var e := NeverStuck(cfg, seeds, numEnum, numEnq, events, s);
      Reachable(cfg, seeds, numEnum, numEnq, events, s);
      TakeableStep(cfg, s, e, numEnum, numEnq);
      NothingRaised(cfg, s, e);
      RemainingStep(cfg, s, e);
      RunSnoc(cfg, Launch(seeds, numEnum, numEnq), events, s, e);
      var rest: seq<Event>;
      rest, s' := CanDrain(cfg, seeds, numEnum, numEnq, events + [e], Apply(cfg, s, e));
      more := [e] + rest;
      assert more[1..] == rest;
    }
  }

  /** The converse, exceptions or not: a run gets past its joins only from states with enough enumeration
      workers for their seeds. */
  lemma {:induction false} JoinedMeansTakeable(cfg: Config, s: State, events: seq<Event>, s': State,
          numEnum: nat, numEnq: nat)
    requires AliveOk(s, numEnum, numEnq) && CountersOk(s) && Run(cfg, s, events, s') && s'.main.Joined?
    ensures Takeable(SeedsLeft(s), s.enumEnded, numEnum)
    decreases |events|
  {
    if events == [] {
      Sums(s);
    } else {
      CountersStep(cfg, s, events[0]);
      AliveStep(cfg, s, events[0], numEnum, numEnq);
      JoinedMeansTakeable(cfg, Apply(cfg, s, events[0]), events[1..], s', numEnum, numEnq);
      TakeableStep(cfg, s, events[0], numEnum, numEnq);
    }
  }

  // ---- None items ----

  /** Whenever both joins have returned, no None was left to be taken from a queue: every None that
      `list_tasks` would yield was cut off by an exception of the listing. */
  lemma JoinedMeansNoNone(cfg: Config, seeds: seq<Option<Seed>>, numEnum: nat, numEnq: nat, events: seq<Event>,
          s: State)
    requires Run(cfg, Launch(seeds, numEnum, numEnq), events, s) && s.main.Joined?
    ensures s.unlisted[None] == SumOf(seeds, InSeed(cfg, None))
    ensures s.unlisted[None] == 0 ==> NoneFree(cfg, seeds)
  {
    var x: Item := None;
    Reachable(cfg, seeds, numEnum, numEnq, events, s);
    Sums(s);
    assert Occurrences(cfg, s, x) == SumOf(seeds, InSeed(cfg, x));
    SumOfZero(s.enumWorkers, InListing(x));
    SumOfZero(s.enqWorkers, InHand(x));
    SumOfNonNegative(seeds, InSeed(cfg, x));
    if s.unlisted[None] == 0 {
      forall seed | seed in seeds && seed.Some? ensures None !in cfg.list(seed.value) {
        var k :| 0 <= k < |seeds| && seeds[k] == seed;
        assert InSeed(cfg, x)(seeds[k]) <= 0;
      }
    }
  }

  /** A run in which both joins return although no listing was cut off. */
  ghost predicate Drains(cfg: Config, seeds: seq<Option<Seed>>, numEnum: nat, numEnq: nat, events: seq<Event>,
          s: State) {
    Run(cfg, Launch(seeds, numEnum, numEnq), events, s) && s.main.Joined? && s.unlisted == multiset{}
  }

  /** `batch_enqueue` can get past its joins with all seeds listed if and only if `list_tasks` yields no None
      for any of them and there are more enumeration workers than None seeds before the last seed. */
  lemma DrainsIff(cfg: Config, seeds: seq<Option<Seed>>, numEnum: nat, numEnq: nat)
    requires cfg.maxSize > 0 && numEnq > 0
    ensures (exists events, s :: Drains(cfg, seeds, numEnum, numEnq, events, s))
            <==> NoneFree(cfg, seeds) && Takeable(seeds, 0, numEnum)
  {
    var s0 := Launch(seeds, numEnum, numEnq);
    assert SeedsLeft(s0) == seeds;
    assert Run(cfg, s0, [], s0);
    Reachable(cfg, seeds, numEnum, numEnq, [], s0);
    if NoneFree(cfg, seeds) && Takeable(seeds, 0, numEnum) {
      var events, s := CanDrain(cfg, seeds, numEnum, numEnq, [], s0);
      assert Drains(cfg, seeds, numEnum, numEnq, events, s);
    }
    forall events, s | Drains(cfg, seeds, numEnum, numEnq, events, s)
      ensures NoneFree(cfg, seeds) && Takeable(seeds, 0, numEnum)
    {
      JoinedMeansNoNone(cfg, seeds, numEnum, numEnq, events, s);
      JoinedMeansTakeable(cfg, s0, events, s, numEnum, numEnq);
    }
  }

  lemma {:induction false} SwallowedStays(cfg: Config, s: State, events: seq<Event>, s': State)
    requires Run(cfg, s, events, s')
    ensures s.swallowed <= s'.swallowed
    decreases |events|
  {
    if events != [] {
      SwallowedStays(cfg, Apply(cfg, s, events[0]), events[1..], s');
    }
  }

  /** The coroutine never gets past its second join. */
  ghost predicate Blocked(cfg: Config, s: State) {
    forall more, s' :: Run(cfg, s, more, s') ==> !s'.main.Joined?
  }

  /** Witness: one seed for which a None is listed. Its enqueue worker ends without `task_done`. */
  lemma NoneItemBlocks(cfg: Config, seed: Seed) returns (events: seq<Event>, s: State)
    requires cfg.list(seed) == [None] && cfg.maxSize > 0
    ensures Run(cfg, Launch([Some(seed)], 1, 1), events, s)
    ensures s.swallowed == 1 && Blocked(cfg, s)
  {
    var s0 := Launch([Some(seed)], 1, 1);
    var s1 := Apply(cfg, s0, PutSeed);
    var s2 := Apply(cfg, s1, GetSeed(0));
    var s3 := Apply(cfg, s2, PutTask(0));
    s := Apply(cfg, s3, GetTask(0));
    assert Run(cfg, s0, [], s0);
    RunSnoc(cfg, s0, [], s0, PutSeed);
    RunSnoc(cfg, s0, [] + [PutSeed], s1, GetSeed(0));
    RunSnoc(cfg, s0, [] + [PutSeed] + [GetSeed(0)], s2, PutTask(0));
    events := [] + [PutSeed] + [GetSeed(0)] + [PutTask(0)] + [GetTask(0)];
    RunSnoc(cfg, s0, [] + [PutSeed] + [GetSeed(0)] + [PutTask(0)], s3, GetTask(0));
    forall more, s' | Run(cfg, s, more, s') ensures !s'.main.Joined? {
      SwallowedStays(cfg, s, more, s');
      RunAppend(cfg, s0, events, s, more, s');
      NoneItemBlocksJoin(cfg, [Some(seed)], 1, 1, events + more, s');
    }
  }

  // ---- exceptions that take the last worker ----

  /** No enqueue worker is left and tasks are still queued. */
  ghost predicate Abandoned(s: State) {
    s.enqueueJobs != [] && forall i :: 0 <= i < |s.enqWorkers| ==> s.enqWorkers[i].EnqEnded?
  }

  lemma {:induction false} AbandonedStays(cfg: Config, s: State, events: seq<Event>, s': State)
    requires Abandoned(s) && Run(cfg, s, events, s')
    ensures Abandoned(s')
    decreases |events|
  {
    if events != [] {
      AbandonedStays(cfg, Apply(cfg, s, events[0]), events[1..], s');
    }
  }

  /** Once that has happened the second join never returns. */
  lemma AbandonedBlocks(cfg: Config, seeds: seq<Option<Seed>>, numEnum: nat, numEnq: nat, events: seq<Event>, s: State)
    requires Run(cfg, Launch(seeds, numEnum, numEnq), events, s) && Abandoned(s)
    ensures Blocked(cfg, s)
  {
    forall more, s' | Run(cfg, s, more, s') ensures !s'.main.Joined? {
      AbandonedStays(cfg, s, more, s');
      RunAppend(cfg, Launch(seeds, numEnum, numEnq), events, s, more, s');
      Reachable(cfg, seeds, numEnum, numEnq, events + more, s');
      Sums(s');
    }
  }

  lemma Play(cfg: Config, s: State, events: seq<Event>, mid: State, e: Event) returns (longer: seq<Event>, s': State)
    requires Run(cfg, s, events, mid) && Enabled(cfg, mid, e)
    ensures longer == events + [e] && s' == Apply(cfg, mid, e) && Run(cfg, s, longer, s')
  {
    RunSnoc(cfg, s, events, mid, e);
    longer, s' := events + [e], Apply(cfg, mid, e);
  }

  lemma TwoTasksListed(cfg: Config, seed: Seed, v: Work, w: Work) returns (events: seq<Event>, s: State)
    requires cfg.list(seed) == [Some(v), Some(w)] && cfg.maxSize > 1
    ensures Run(cfg, Launch([Some(seed)], 1, 1), events, s)
    ensures s.enqWorkers == [Considering(v)] && s.enqueueJobs == [Some(w)] && s.exceptions == 0
  {
    var s0 := Launch([Some(seed)], 1, 1);
    assert Run(cfg, s0, [], s0);
    events, s := Play(cfg, s0, [], s0, PutSeed);
    events, s := Play(cfg, s0, events, s, GetSeed(0));
    events, s := Play(cfg, s0, events, s, PutTask(0));
    events, s := Play(cfg, s0, events, s, PutTask(0));
    events, s := Play(cfg, s0, events, s, GetTask(0));
  }

  /** Witness that one exception per enqueue worker is enough, in `enqueue_task` or in `push`. */
  lemma EnqueueExceptionBlocks(cfg: Config, seed: Seed, v: Work, w: Work, inPush: bool)
    returns (events: seq<Event>, s: State)
    requires cfg.list(seed) == [Some(v), Some(w)] && cfg.maxSize > 1
    requires inPush ==> cfg.wanted(v) && !cfg.dryRun
    ensures Run(cfg, Launch([Some(seed)], 1, 1), events, s) && Blocked(cfg, s) && s.exceptions == 1
    ensures if inPush then s.unpushed == multiset{v} else s.dropped == multiset{v}
  {
    var s0 := Launch([Some(seed)], 1, 1);
    events, s := TwoTasksListed(cfg, seed, v, w);
    CountersOfRun(cfg, [Some(seed)], 1, 1, events, s);
    if inPush {
      events, s := Play(cfg, s0, events, s, Considered(0));
    }
    events, s := Play(cfg, s0, events, s, EnqueueRaised(0));
    AbandonedBlocks(cfg, [Some(seed)], 1, 1, events, s);
  }

  lemma CountersOfRun(cfg: Config, seeds: seq<Option<Seed>>, numEnum: nat, numEnq: nat, events: seq<Event>, s: State)
    requires Run(cfg, Launch(seeds, numEnum, numEnq), events, s) && s.exceptions == 0
    ensures s.dropped == s.unpushed == multiset{}
  {
    Reachable(cfg, seeds, numEnum, numEnq, events, s);
  }

  /** Witness for the other stage: the only enumeration worker ends by an exception of `list_tasks` and a seed
      is left. */
  lemma ListingExceptionBlocks(cfg: Config, a: Seed, b: Seed) returns (events: seq<Event>, s: State)
    requires cfg.maxSize > 0
    ensures Run(cfg, Launch([Some(a), Some(b)], 1, 1), events, s) && Blocked(cfg, s)
    ensures s.unlisted == multiset(cfg.list(a))
  {
    var seeds := [Some(a), Some(b)];
    var s0 := Launch(seeds, 1, 1);
    assert Run(cfg, s0, [], s0);
    events, s := Play(cfg, s0, [], s0, PutSeed);
    events, s := Play(cfg, s0, events, s, GetSeed(0));
    events, s := Play(cfg, s0, events, s, ListingRaised(0));
    Reachable(cfg, seeds, 1, 1, events, s);
    assert !Takeable(SeedsLeft(s), s.enumEnded, 1);
    forall more, s' | Run(cfg, s, more, s') ensures !s'.main.Joined? {
      if s'.main.Joined? {
        JoinedMeansTakeable(cfg, s, more, s', 1, 1);
      }
    }
  }
}
