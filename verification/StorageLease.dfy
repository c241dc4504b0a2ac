/** The lease and settlement protocol of one message on a Storage Queue
    (ai4s/jobq/jobq.py and ai4s/jobq/backend/storage_queue.py).

    A `Cell` is everything that concerns one message: its entry at the broker,
    every execution of `pull_and_execute` that ever received it, each with its
    own heartbeat task, the requests still travelling after their sender gave
    up on them, and the dead-letter copies. Messages do not interact, so a queue
    is a family of cells. An event is what happens between two `await` points. */
module StorageLease {
  import opened Basics
  import opened Entities

  // ---- state ----

  /** What a settlement asks of the broker: delete the message, or update it with
      `visibility_timeout=0`. `retry` marks the update made by `replace`. */
  datatype Request =
    | Delete(receipt: nat)
    | Update(receipt: nat, content: Document, retry: bool)

  datatype Outcome = Succeeded | Failed | Canceled

  datatype Exit =
    | ReturnedTrue | ReturnedFalse
    | RaisedLockLost | RaisedWorkerCanceled | RaisedError
    | BadPayload | Aborted | Crashed

  /** Where the coroutine of `pull_and_execute` is suspended. */
  datatype Pc =
    | Executing                                    // waiting for the callback or the lost event
    | Stopping(outcome: Outcome, sawLost: bool)    // awaiting `cancel_heartbeat`
    | DeadLettering                                // the copy for the dead-letter queue is on its way
    | DeadLettered                                 // the dead-letter queue has stored it, reply on its way
    | Settling(outcome: Outcome, req: Request)     // settlement request on its way
    | Settled(outcome: Outcome, accepted: bool)    // broker has decided, reply on its way
    | Exited(how: Exit)

  /** Where the heartbeat task is suspended. */
  datatype Heartbeat =
    | NoHeartbeat                 // `with_heartbeat=False`: the cancelled event is set at once
    | Waiting                     // before the loop test, or waiting for the interval or the cancel event
    | Sending(used: nat)          // update on its way to the broker
    | Renewed(next: nat)          // broker accepted; the next receipt is on its way back
    | Refused                     // broker answered 400 or 404
    | Stopped                     // `heartbeat_cancelled_event` is set

  datatype Lease = Lease(
    task: Task,
    receipt: nat,                 // `message.pop_receipt`
    timeout: nat,                 // visibility timeout in seconds
    cancelRequested: bool,        // `cancel_heartbeat_event`
    lockLost: bool,               // `lock_lost_event`
    heartbeat: Heartbeat,
    pc: Pc,
    replyLost: bool)              // history: an update of this lease may have been applied unnoticed

  /** A request whose sender stopped waiting; it may reach the broker at any later time, repeatedly. */
  datatype Stray =
    | LateHeartbeat(owner: nat, receipt: nat, timeout: nat)
    | LateSettlement(owner: nat, req: Request)
    | LateDeadLetter(copy: Document)

  datatype Entry = Entry(content: Document, receipt: nat, visibleAt: nat)

  datatype Cell = Cell(
    pushed: Document,             // history: the content as first stored
    entry: Option<Entry>,         // the message on the main queue
    nextReceipt: nat,             // receipts below this one have been issued
    leases: seq<Lease>,
    strays: set<Stray>,
    dead: seq<Document>,          // copies on the dead-letter queue
    lastReceiver: Option<nat>,    // history
    returned: bool,               // history: some execution of the callback returned normally
    replaced: nat)                // history: accepted `replace` updates

  /** The cell right after a message was stored by `push` or by some other client. */
  function Pushed(content: Document, now: nat): Cell {
    Cell(content, Some(Entry(content, 0, now)), 1, [], {}, [], None, false, 0)
  }

  /** `push` refuses tasks that want a reply. */
  function Push(md5: Md5, t: Task, now: nat): Option<Cell> {
    if t.replyRequested then None else Some(Pushed(t.Serialize(md5), now))
  }

  // ---- events ----

  datatype Event =
    | Receive(timeout: nat, heartbeat: bool, sig: Signature, worker: Json)
    | CallbackReturned(i: nat)
    | CallbackRaised(i: nat)
    | CallbackCanceled(i: nat)
    | LockLossNoticed(i: nat)
    | HeartbeatCanceled(i: nat)
    | DeadLetterStored(i: nat)
    | DeadLetterReplied(i: nat)
    | SettlementDecided(i: nat)
    | SettlementReplied(i: nat)
    | RequestFailed(i: nat, late: bool)      // a settlement or dead-letter call raised
    | Abort(i: nat, late: bool)              // `CancelledError` thrown into the coroutine
    | Crash(i: nat, late: bool)              // the process died
    | HeartbeatLoopTest(i: nat)
    | HeartbeatDecided(i: nat)
    | HeartbeatReplied(i: nat)
    | HeartbeatFailed(i: nat, late: bool)    // any other error or timeout; `late`: request still travelling
    | StrayArrives(stray: Stray)

  predicate HeartbeatOver(h: Heartbeat) {
    h.NoHeartbeat? || h.Stopped?
  }

  /** Steps of a heartbeat task. */
  predicate OfHeartbeat(e: Event) {
    e.HeartbeatLoopTest? || e.HeartbeatDecided? || e.HeartbeatReplied? || e.HeartbeatFailed?
  }

  /** Steps of some lease, as opposed to a receive or a late request. */
  predicate OfLease(e: Event) {
    !e.Receive? && !e.StrayArrives?
  }

  /** Steps of lease `i`, of its coroutine or its heartbeat. */
  predicate About(e: Event, i: nat) {
    OfLease(e) && e.i == i
  }

  predicate Possible(l: Lease, e: Event)
    requires OfLease(e)
  {
    match e
    case CallbackReturned(_) => l.pc.Executing?
    case CallbackRaised(_) => l.pc.Executing?
    case CallbackCanceled(_) => l.pc.Executing?
    case LockLossNoticed(_) => l.pc.Executing? && l.lockLost
    case HeartbeatCanceled(_) => l.pc.Stopping? && HeartbeatOver(l.heartbeat)
    case DeadLetterStored(_) => l.pc.DeadLettering?
    case DeadLetterReplied(_) => l.pc.DeadLettered?
    case SettlementDecided(_) => l.pc.Settling?
    case SettlementReplied(_) => l.pc.Settled?
    case RequestFailed(_, _) => l.pc.DeadLettering? || l.pc.DeadLettered? || l.pc.Settling? || l.pc.Settled?
    case Abort(_, _) => !l.pc.Exited?
    case Crash(_, _) => !l.pc.Exited? || !HeartbeatOver(l.heartbeat)
    case HeartbeatLoopTest(_) => l.heartbeat.Waiting?
    case HeartbeatDecided(_) => l.heartbeat.Sending?
    case HeartbeatReplied(_) => l.heartbeat.Renewed? || l.heartbeat.Refused?
    case HeartbeatFailed(_, _) => l.heartbeat.Sending? || l.heartbeat.Renewed?
  }

  predicate Enabled(now: nat, c: Cell, e: Event) {
    match e
    case Receive(_, _, _, _) => c.entry.Some? && c.entry.value.visibleAt <= now
    case StrayArrives(s) => s in c.strays
    case _ => e.i < |c.leases| && Possible(c.leases[e.i], e)
  }

  // ---- the broker ----

  /** An update or delete is accepted only with the current receipt. */
  predicate Current(c: Cell, receipt: nat) {
    c.entry.Some? && c.entry.value.receipt == receipt
  }

  /** A receive or accepted update issues a fresh receipt. */
  function Reissue(c: Cell, content: Document, visibleAt: nat): Cell
    requires c.entry.Some?
  {
    c.(entry := Some(Entry(content, c.nextReceipt, visibleAt)), nextReceipt := c.nextReceipt + 1)
  }

  function BrokerRenews(now: nat, c: Cell, receipt: nat, timeout: nat): Cell {
    if Current(c, receipt) then Reissue(c, c.entry.value.content, now + timeout) else c
  }

  function BrokerSettles(now: nat, c: Cell, req: Request): Cell {
    if !Current(c, req.receipt) then c
    else match req
      case Delete(_) => c.(entry := None)
      case Update(_, content, retry) =>
        Reissue(c, content, now).(replaced := if retry then c.replaced + 1 else c.replaced)
  }

  // ---- the worker ----

  /** What `pull_and_execute` does from the return of `cancel_heartbeat` to its next
      `await`. `reply` is not implemented by this backend: it raises, which the
      success branch swallows and the give-up branch lets out. */
  function AfterHeartbeat(md5: Md5, stopping: Pc, task: Task, receipt: nat): (pc: Pc)
    requires stopping.Stopping?
    ensures pc.Exited? || pc.DeadLettering? || (pc.Settling? && pc.req.receipt == receipt)
    ensures pc.Exited? ==> !pc.how.BadPayload? && !pc.how.Aborted? && !pc.how.Crashed?
  {
    match stopping.outcome
    case Canceled => Settling(Canceled, Update(receipt, task.Serialize(md5), false))
    case _ =>
      if stopping.sawLost then Exited(RaisedLockLost)
      else if stopping.outcome.Succeeded? then
        if task.replyRequested then Exited(ReturnedTrue)
        else Settling(Succeeded, Delete(receipt))
      else if task.numRetries <= 0 then
        if task.replyRequested then Exited(RaisedError) else DeadLettering
      else
        Settling(Failed, Update(receipt, task.(numRetries := task.numRetries - 1).Serialize(md5), true))
  }

  /** How `pull_and_execute` ends once its settlement call returned (`ok`) or raised. */
  function SettlementExit(outcome: Outcome, ok: bool): (how: Exit)
    ensures !how.BadPayload? && !how.Aborted? && !how.Crashed?
  {
    match outcome
    case Succeeded => ReturnedTrue
    case Failed => if ok then ReturnedFalse else RaisedError
    case Canceled => RaisedWorkerCanceled
  }

  function FailureExit(pc: Pc): (how: Exit)
    ensures !how.BadPayload? && !how.Aborted? && !how.Crashed?
  {
    match pc
    case Settling(outcome, _) => SettlementExit(outcome, false)
    case Settled(outcome, _) => SettlementExit(outcome, false)
    case _ => RaisedError
  }

  /** The lease a receive creates. */
  function ReceiveLease(c: Cell, e: Event): Lease
    requires e.Receive?
    requires c.entry.Some?
  {
    var heartbeat := if e.heartbeat then Waiting else NoHeartbeat;
    match Deserialize(c.entry.value.content)
    case Some(task) =>
      Lease(InjectArguments(task, e.sig, e.worker), c.nextReceipt, e.timeout, false, false, heartbeat, Executing, false)
    case None =>
      var none := Task(map[], 0, None, false, None);
      Lease(none, c.nextReceipt, e.timeout, false, false, heartbeat, Exited(BadPayload), false)
  }

  /** What a step does to its own lease. `cancel_heartbeat` sets its event before it waits. */
  function LeaseAfter(md5: Md5, c: Cell, l: Lease, e: Event): Lease
    requires OfLease(e) && Possible(l, e)
  {
    match e
    case CallbackReturned(_) => l.(pc := Stopping(Succeeded, l.lockLost), cancelRequested := true)
    case CallbackRaised(_) => l.(pc := Stopping(Failed, l.lockLost), cancelRequested := true)
    case CallbackCanceled(_) => l.(pc := Stopping(Canceled, false), cancelRequested := true)
    case LockLossNoticed(_) => l.(pc := Stopping(Succeeded, true), cancelRequested := true)
    case HeartbeatCanceled(_) => l.(pc := AfterHeartbeat(md5, l.pc, l.task, l.receipt))
    case DeadLetterStored(_) => l.(pc := DeadLettered)
    case DeadLetterReplied(_) => l.(pc := Settling(Failed, Delete(l.receipt)))
    case SettlementDecided(_) => l.(pc := Settled(l.pc.outcome, Current(c, l.pc.req.receipt)))
    case SettlementReplied(_) => l.(pc := Exited(SettlementExit(l.pc.outcome, l.pc.accepted)))
    case RequestFailed(_, _) => l.(pc := Exited(FailureExit(l.pc)))
    case Abort(_, _) => l.(pc := Exited(Aborted))
    case Crash(_, _) =>
      l.(heartbeat := if l.heartbeat.NoHeartbeat? then NoHeartbeat else Stopped, replyLost := true,
         pc := if l.pc.Exited? then l.pc else Exited(Crashed))
    case HeartbeatLoopTest(_) => l.(heartbeat := if l.cancelRequested then Stopped else Sending(l.receipt))
    case HeartbeatDecided(_) =>
      l.(heartbeat := if Current(c, l.heartbeat.used) then Renewed(c.nextReceipt) else Refused)
    case HeartbeatReplied(_) =>
      if l.heartbeat.Renewed? then l.(receipt := l.heartbeat.next, heartbeat := Waiting)
      else l.(lockLost := true, heartbeat := Stopped)
    case HeartbeatFailed(_, late) =>
      l.(heartbeat := Waiting, replyLost := l.replyLost || l.heartbeat.Renewed? || late)
  }

  /** Requests of lease `i` that keep travelling when their sender stops waiting for them. */
  function LeftBehind(md5: Md5, i: nat, l: Lease, late: bool): set<Stray> {
    if !late then {}
    else match l.pc
      case DeadLettering => {LateDeadLetter(l.task.Serialize(md5))}
      case Settling(_, req) => {LateSettlement(i, req)}
      case _ => {}
  }

  function HeartbeatLeftBehind(i: nat, l: Lease, late: bool): set<Stray> {
    if late && l.heartbeat.Sending? then {LateHeartbeat(i, l.heartbeat.used, l.timeout)} else {}
  }

  /** What a step of lease `i` does outside of it. */
  function Effects(md5: Md5, now: nat, c: Cell, l: Lease, e: Event): (c': Cell)
    requires OfLease(e) && Possible(l, e)
    ensures c'.leases == c.leases && c'.pushed == c.pushed && c'.lastReceiver == c.lastReceiver
  {
    match e
    case CallbackReturned(_) => c.(returned := true)
    case DeadLetterStored(_) => c.(dead := c.dead + [l.task.Serialize(md5)])
    case SettlementDecided(_) => BrokerSettles(now, c, l.pc.req)
    case RequestFailed(i, late) => c.(strays := c.strays + LeftBehind(md5, i, l, late))
    case Abort(i, late) => c.(strays := c.strays + LeftBehind(md5, i, l, late))
    case Crash(i, late) => c.(strays := c.strays + LeftBehind(md5, i, l, late) + HeartbeatLeftBehind(i, l, late))
    case HeartbeatDecided(_) => BrokerRenews(now, c, l.heartbeat.used, l.timeout)
    case HeartbeatFailed(i, late) => c.(strays := c.strays + HeartbeatLeftBehind(i, l, late))
    case _ => c
  }

  function Arrive(now: nat, c: Cell, s: Stray): (c': Cell)
    ensures c'.leases == c.leases && c'.pushed == c.pushed && c'.lastReceiver == c.lastReceiver
  {
    match s
    case LateHeartbeat(_, receipt, timeout) => BrokerRenews(now, c, receipt, timeout)
    case LateSettlement(_, req) => BrokerSettles(now, c, req)
    case LateDeadLetter(copy) => c.(dead := c.dead + [copy])
  }

  // ---- the step function ----

  function Apply(md5: Md5, now: nat, c: Cell, e: Event): Cell
    requires Enabled(now, c, e)
  {
    match e
    case Receive(timeout, _, _, _) =>
      Reissue(c, c.entry.value.content, now + timeout)
        .(leases := c.leases + [ReceiveLease(c, e)], lastReceiver := Some(|c.leases|))
    case StrayArrives(s) => Arrive(now, c, s)
    case _ =>
      var l := c.leases[e.i];
      Effects(md5, now, c, l, e).(leases := c.leases[e.i := LeaseAfter(md5, c, l, e)])
  }
}
