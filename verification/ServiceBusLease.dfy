/** The lease and settlement protocol of one message on a Service Bus queue
    (ai4s/jobq/jobq.py and ai4s/jobq/backend/servicebus_rest.py).

    Same execution code as module StorageLease, other broker: the lock token
    stays the same across renewals and expires with the lock, `replace` does
    nothing, dead-lettering is one broker operation, and the clean-up of
    `receive_message` runs on every exit. Lock renewal itself is module LockRenewal. */
module ServiceBusLease {
  import opened Basics
  import opened Entities

  // ---- state ----

  datatype Request = Complete | Unlock | DeadLetter

  datatype Outcome = Succeeded | Failed | Canceled

  datatype Exit =
    | ReturnedTrue | ReturnedFalse
    | RaisedLockLost | RaisedWorkerCanceled | RaisedError
    | BadPayload | Aborted | Crashed

  datatype Pc =
    | Executing
    | Stopping(outcome: Outcome, sawLost: bool)
    | Settling(outcome: Outcome, req: Request)
    | Settled(outcome: Outcome)
    | Leaving(how: Exit)           // the `finally` of `receive_message` awaits the renewal task
    | Exited(how: Exit)

  /** The renewal task: absent, asleep, waiting for a renewal request, or done. */
  datatype Renewal = NoRenewal | Asleep | Renewing | Finished

  /** `_max_lock_renewal_seconds`: 21 days, in seconds. */
  const LIFETIME: nat := 60 * 60 * 24 * 21

  datatype Lease = Lease(
    task: Task,
    token: nat,
    duration: nat,
    since: nat,                    // time of the receive; the renewal loop has its deadline `LIFETIME` later
    lastSuccess: nat,              // time of the receive or of the last accepted renewal
    stop: bool,                    // `lock_stop_event`
    lockLost: bool,                // `lock_lost_event`
    renewal: Renewal,
    pc: Pc)

  /** A request whose sender stopped waiting; it may reach the broker at any later time, repeatedly. */
  datatype Stray = LateSettlement(token: nat, req: Request) | LateRenewal(token: nat, duration: nat)

  datatype Entry = Entry(content: Document, token: nat, lockedUntil: nat)

  datatype Cell = Cell(
    pushed: Document,
    entry: Option<Entry>,
    nextToken: nat,
    leases: seq<Lease>,
    strays: set<Stray>,
    completed: nat,               // history: accepted completions
    dead: seq<Document>,          // the dead-letter sub-queue
    returned: bool)               // history: some execution of the callback returned normally

  function Pushed(content: Document): Cell {
    Cell(content, Some(Entry(content, 0, 0)), 1, [], {}, 0, [], false)
  }

  // ---- events ----

  datatype Event =
    | Receive(duration: nat, heartbeat: bool)
    | CallbackReturned(i: nat)
    | CallbackRaised(i: nat)
    | CallbackCanceled(i: nat)
    | LockLossNoticed(i: nat)
    | RenewalStopped(i: nat)                 // `cancel_heartbeat` returned
    | SettlementResent(i: nat)               // the client repeats its request
    | SettlementDecided(i: nat)
    | SettlementReplied(i: nat)
    | SettlementFailed(i: nat, late: bool)
    | Abort(i: nat, late: bool)              // `CancelledError` thrown into the coroutine
    | CleanedUp(i: nat)
    | Crash(i: nat, late: bool)
    | RenewalLoop(i: nat, deadline: bool)    // the loop test, and the end of the loop or a renewal
    | RenewalDecided(i: nat)                 // the broker answers: renewed, or 404
    | RenewalFailed(i: nat, late: bool, expired: bool)  // `expired`: the loop finds the lock expired
    | RenewalCancelled(i: nat, late: bool)   // `CancelledError` while the renewal task is awaited
    | StrayArrives(stray: Stray)

  predicate Over(r: Renewal) {
    r.NoRenewal? || r.Finished?
  }

  predicate OfLease(e: Event) {
    !e.Receive? && !e.StrayArrives?
  }

  predicate About(e: Event, i: nat) {
    OfLease(e) && e.i == i
  }

  /** Steps of a renewal task. */
  predicate OfRenewal(e: Event) {
    e.RenewalLoop? || e.RenewalDecided? || e.RenewalFailed? || e.RenewalCancelled?
  }

  /** While the renewal task is awaited a `CancelledError` is suppressed and ends that task instead. */
  predicate Possible(l: Lease, e: Event)
    requires OfLease(e)
  {
    match e
    case CallbackReturned(_) => l.pc.Executing?
    case CallbackRaised(_) => l.pc.Executing?
    case CallbackCanceled(_) => l.pc.Executing?
    case LockLossNoticed(_) => l.pc.Executing? && l.lockLost
    case RenewalStopped(_) => l.pc.Stopping? && Over(l.renewal)
    case SettlementResent(_) => l.pc.Settling?
    case SettlementDecided(_) => l.pc.Settling?
    case SettlementReplied(_) => l.pc.Settled?
    case SettlementFailed(_, _) => l.pc.Settling? || l.pc.Settled?
    case Abort(_, _) => l.pc.Executing? || l.pc.Settling? || l.pc.Settled?
    case CleanedUp(_) => l.pc.Leaving? && Over(l.renewal)
    case Crash(_, _) => !l.pc.Exited?
    case RenewalLoop(_, _) => l.renewal.Asleep?
    case RenewalDecided(_) => l.renewal.Renewing?
    case RenewalFailed(_, _, _) => l.renewal.Renewing?
    case RenewalCancelled(_, _) => (l.pc.Stopping? || l.pc.Leaving?) && !Over(l.renewal)
  }

  predicate Enabled(now: nat, c: Cell, e: Event) {
    match e
    case Receive(_, _) => c.entry.Some? && c.entry.value.lockedUntil <= now
    case StrayArrives(s) => s in c.strays
    case RenewalLoop(i, deadline) =>
      && i < |c.leases| && Possible(c.leases[i], e)
      && (deadline ==> c.leases[i].since + LIFETIME <= now)
    case RenewalFailed(i, _, expired) =>
      && i < |c.leases| && Possible(c.leases[i], e)
      && (expired ==> now > c.leases[i].lastSuccess + c.leases[i].duration)
    case _ => e.i < |c.leases| && Possible(c.leases[e.i], e)
  }

  // ---- the broker ----

  /** The lock is held: right token, not expired, message still there. */
  predicate Locked(now: nat, c: Cell, token: nat) {
    c.entry.Some? && c.entry.value.token == token && now < c.entry.value.lockedUntil
  }

  function BrokerRenews(now: nat, c: Cell, token: nat, duration: nat): Cell {
    if Locked(now, c, token) then c.(entry := Some(c.entry.value.(lockedUntil := now + duration))) else c
  }

  function BrokerSettles(now: nat, c: Cell, token: nat, req: Request): Cell {
    if !Locked(now, c, token) then c
    else match req
      case Complete => c.(entry := None, completed := c.completed + 1)
      case DeadLetter => c.(entry := None, dead := c.dead + [c.entry.value.content])
      case Unlock => c.(entry := Some(c.entry.value.(lockedUntil := now)))
  }

  // ---- the worker ----

  /** From the return of `cancel_heartbeat` on. `replace` only logs, so a failure with retries left
      is over at once; `reply` raises, which only the success branch swallows. */
  function AfterHeartbeat(l: Lease): (pc: Pc)
    requires l.pc.Stopping?
    ensures pc.Settling? || pc.Leaving?
  {
    match l.pc.outcome
    case Canceled => Settling(Canceled, Unlock)
    case _ =>
      if l.pc.sawLost then Leaving(RaisedLockLost)
      else if l.pc.outcome.Succeeded? then
        if l.task.replyRequested then Leaving(ReturnedTrue) else Settling(Succeeded, Complete)
      else if l.task.numRetries <= 0 then
        if l.task.replyRequested then Leaving(RaisedError) else Settling(Failed, DeadLetter)
      else Leaving(ReturnedFalse)
  }

  /** All three settlement calls end alike whether they succeeded or not: `complete` and `unlock`
      errors are swallowed by `pull_and_execute`, dead-letter errors by the client. */
  function SettlementExit(outcome: Outcome): Exit {
    match outcome
    case Succeeded => ReturnedTrue
    case Failed => ReturnedFalse
    case Canceled => RaisedWorkerCanceled
  }

  function ReceiveLease(now: nat, c: Cell, e: Event): Lease
    requires e.Receive? && c.entry.Some?
  {
    var renewal := if e.heartbeat then Asleep else NoRenewal;
    match Deserialize(c.entry.value.content)
    case Some(task) => Lease(task, c.nextToken, e.duration, now, now, false, false, renewal, Executing)
    case None =>
      var none := Task(map[], 0, None, false, None);
      Lease(none, c.nextToken, e.duration, now, now, true, false, renewal, Leaving(BadPayload))
  }

  /** What a step at time `now` does to its own lease; `held` says whether the broker finds the lock held. Every exit
      passes the `finally` block, which sets the stop event and awaits the renewal task. */
  function LeaseAfter(l: Lease, e: Event, held: bool, now: nat): Lease
    requires OfLease(e) && Possible(l, e)
  {
    match e
    case CallbackReturned(_) => l.(pc := Stopping(Succeeded, l.lockLost), stop := true)
    case CallbackRaised(_) => l.(pc := Stopping(Failed, l.lockLost), stop := true)
    case CallbackCanceled(_) => l.(pc := Stopping(Canceled, false), stop := true)
    case LockLossNoticed(_) => l.(pc := Stopping(Succeeded, true), stop := true)
    case RenewalStopped(_) => l.(pc := AfterHeartbeat(l))
    case SettlementResent(_) => l
    case SettlementDecided(_) => l.(pc := Settled(l.pc.outcome))
    case SettlementReplied(_) => l.(pc := Leaving(SettlementExit(l.pc.outcome)), stop := true)
    case SettlementFailed(_, _) => l.(pc := Leaving(SettlementExit(l.pc.outcome)), stop := true)
    case Abort(_, _) => l.(pc := Leaving(Aborted), stop := true)
    case CleanedUp(_) => l.(pc := Exited(l.pc.how))
    case Crash(_, _) =>
      l.(pc := Exited(Crashed), renewal := if l.renewal.NoRenewal? then NoRenewal else Finished)
    case RenewalLoop(_, deadline) => l.(renewal := if l.stop || deadline then Finished else Renewing)
    case RenewalDecided(_) =>
      if held then l.(renewal := Asleep, lastSuccess := now)
      else l.(renewal := Finished, lockLost := l.lockLost || !l.stop)
    case RenewalFailed(_, _, expired) => l.(renewal := Asleep, lockLost := l.lockLost || (expired && !l.stop))
    case RenewalCancelled(_, _) => l.(renewal := Finished)
  }

  /** Requests that keep travelling when their sender stops waiting for them. */
  function LeftBehind(l: Lease, late: bool): set<Stray> {
    if late && l.pc.Settling? then {LateSettlement(l.token, l.pc.req)} else {}
  }

  function RenewalLeftBehind(l: Lease, late: bool): set<Stray> {
    if late && l.renewal.Renewing? then {LateRenewal(l.token, l.duration)} else {}
  }

  /** What a step of a lease does outside of it. */
  function Effects(now: nat, c: Cell, l: Lease, e: Event): (c': Cell)
    requires OfLease(e) && Possible(l, e)
    ensures c'.leases == c.leases && c'.pushed == c.pushed && c'.nextToken == c.nextToken
  {
    match e
    case CallbackReturned(_) => c.(returned := true)
    case SettlementResent(_) => c.(strays := c.strays + LeftBehind(l, true))
    case SettlementDecided(_) => BrokerSettles(now, c, l.token, l.pc.req)
    case SettlementFailed(_, late) => c.(strays := c.strays + LeftBehind(l, late))
    case Abort(_, late) => c.(strays := c.strays + LeftBehind(l, late))
    case Crash(_, late) => c.(strays := c.strays + LeftBehind(l, late) + RenewalLeftBehind(l, late))
    case RenewalDecided(_) => BrokerRenews(now, c, l.token, l.duration)
    case RenewalFailed(_, late, _) => c.(strays := c.strays + RenewalLeftBehind(l, late))
    case RenewalCancelled(_, late) => c.(strays := c.strays + RenewalLeftBehind(l, late))
    case _ => c
  }

  function Arrive(now: nat, c: Cell, s: Stray): (c': Cell)
    ensures c'.leases == c.leases && c'.pushed == c.pushed && c'.nextToken == c.nextToken
  {
    match s
    case LateSettlement(token, req) => BrokerSettles(now, c, token, req)
    case LateRenewal(token, duration) => BrokerRenews(now, c, token, duration)
  }

  // ---- the step function ----

  function Apply(now: nat, c: Cell, e: Event): Cell
    requires Enabled(now, c, e)
  {
    match e
    case Receive(duration, _) =>
      c.(entry := Some(Entry(c.entry.value.content, c.nextToken, now + duration)),
         nextToken := c.nextToken + 1,
         leases := c.leases + [ReceiveLease(now, c, e)])
    case StrayArrives(s) => Arrive(now, c, s)
    case _ =>
      var l := c.leases[e.i];
      Effects(now, c, l, e).(leases := c.leases[e.i := LeaseAfter(l, e, Locked(now, c, l.token), now)])
  }

  // ---- runs ----

  datatype Step = Step(now: nat, event: Event)

  ghost predicate Run(c: Cell, steps: seq<Step>, c': Cell)
    decreases |steps|
  {
    if steps == [] then c == c'
    else
      && Enabled(steps[0].now, c, steps[0].event)
      && Run(Apply(steps[0].now, c, steps[0].event), steps[1..], c')
  }
}
