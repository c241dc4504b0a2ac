/** What every run of the Storage Queue lease protocol guarantees: any number of
    workers, crashes, cancellations, lost replies and lease expiries included. */
module StorageLeaseTheorems {
  import opened Basics
  import opened Entities
  import opened StorageLease
  import opened StorageLeaseSafety

  lemma Reachable(md5: Md5, content: Document, now: nat, steps: seq<Step>, c: Cell)
    requires Run(md5, Pushed(content, now), steps, c)
    ensures Inv(md5, c) && c.pushed == content
  {
    InvRun(md5, Pushed(content, now), steps, c);
  }

  /** No task is lost: whatever happens, the message is on the main queue, or some execution of
      it returned normally, or the same job is on the dead-letter queue. */
  lemma NoTaskLost(md5: Md5, content: Document, now: nat, steps: seq<Step>, c: Cell)
    requires Run(md5, Pushed(content, now), steps, c)
    ensures c.entry.Some? || c.returned || c.dead != []
    ensures Identified(content) ==> forall d :: d in c.dead ==> JobOf(md5, d) == JobOf(md5, content)
  {
    Reachable(md5, content, now, steps, c);
  }

  /** The id, `reply_requested` and all arguments but the leaked ones survive every delivery. */
  lemma JobNeverChanges(md5: Md5, content: Document, now: nat, steps: seq<Step>, c: Cell)
    requires Run(md5, Pushed(content, now), steps, c) && Identified(content)
    ensures c.entry.Some? ==> JobOf(md5, c.entry.value.content) == JobOf(md5, content)
    ensures forall i :: 0 <= i < |c.leases| && c.leases[i].pc != Exited(BadPayload) ==>
              JobOf(md5, c.leases[i].task.Serialize(md5)) == JobOf(md5, content)
  {
    Reachable(md5, content, now, steps, c);
    forall i | 0 <= i < |c.leases| && c.leases[i].pc != Exited(BadPayload)
      ensures JobOf(md5, c.leases[i].task.Serialize(md5)) == JobOf(md5, content)
    {
      assert LeaseKeepsJob(md5, c, c.leases[i]);
    }
  }

  /** A push is refused exactly if the task wants a reply. */
  lemma PushRefusesReplies(md5: Md5, t: Task, now: nat)
    ensures Push(md5, t, now).None? <==> t.replyRequested
  {
  }

  /** From the client's side: an accepted push stays on the main queue until some execution returns
      normally or its own job, identified by the id of the pushed task, is on the dead-letter queue. */
  lemma PushedTaskIsKept(md5: Md5, t: Task, now: nat, steps: seq<Step>, c0: Cell, c: Cell)
    requires Push(md5, t, now) == Some(c0) && Run(md5, c0, steps, c)
    ensures !t.replyRequested
    ensures c.entry.Some? || c.returned || c.dead != []
    ensures c.entry.Some? ==> Retries(c.entry.value.content) + c.replaced == t.numRetries
    ensures var job := Some(Job(t.kwargs - LEAKED_KEYS, false, t.Id(md5)));
            && (c.entry.Some? ==> JobOf(md5, c.entry.value.content) == job)
            && forall d :: d in c.dead ==> JobOf(md5, d) == job
  {
    var content := t.Serialize(md5);
    SerializeRoundTrip(md5, t);
    NoTaskLost(md5, content, now, steps, c);
    RetryBudget(md5, content, now, steps, c);
    JobNeverChanges(md5, content, now, steps, c);
  }

  /** The execution that a receive begins gets the arguments of the message, its id as `_job_id` and the worker
      as `_worker_id` under the names its callback asks for. */
  lemma ReceivedArguments(md5: Md5, now: nat, c: Cell, e: Event, key: string)
    requires e.Receive? && Enabled(now, c, e) && Deserialize(c.entry.value.content).Some?
    ensures var l, t := Apply(md5, now, c, e).leases[|c.leases|], Deserialize(c.entry.value.content).value;
            && l.pc.Executing? && l.task == t.(kwargs := l.task.kwargs) && l.task.id.Some?
            && (e.sig.jobId ==> "_job_id" in l.task.kwargs && l.task.kwargs["_job_id"] == JText(t.id.value))
            && (e.sig.workerId ==> "_worker_id" in l.task.kwargs && l.task.kwargs["_worker_id"] == e.worker)
            && ((key == "_job_id" ==> !e.sig.jobId) && (key == "_worker_id" ==> !e.sig.workerId) ==>
                  && (key in l.task.kwargs <==> key in t.kwargs)
                  && (key in t.kwargs ==> l.task.kwargs[key] == t.kwargs[key]))
  {
    var t := Deserialize(c.entry.value.content).value;
    CallbackArguments(t, e.sig, e.worker, t.id.value, key);
  }

  /** Conservation of the retry budget: only accepted `replace` calls consume it, never more than
      was pushed, and the task is dead-lettered only when all of it is gone. */
  lemma RetryBudget(md5: Md5, content: Document, now: nat, steps: seq<Step>, c: Cell)
    requires Run(md5, Pushed(content, now), steps, c)
    ensures c.entry.Some? ==> Retries(c.entry.value.content) + c.replaced == Retries(content)
    ensures c.replaced <= Max(Retries(content), 0)
    ensures c.dead != [] ==> c.replaced == Max(Retries(content), 0)
  {
    Reachable(md5, content, now, steps, c);
  }

  /** Heartbeat hand-over: once `cancel_heartbeat` has returned, the settlement of a lease whose
      replies all arrived and whose message nobody else received is accepted. */
  lemma HandOver(md5: Md5, content: Document, now: nat, steps: seq<Step>, c: Cell, i: nat, later: nat)
    requires Run(md5, Pushed(content, now), steps, c)
    requires i < |c.leases| && c.leases[i].pc.Settling?
    requires c.lastReceiver == Some(i) && !c.leases[i].replyLost
    ensures HeartbeatOver(c.leases[i].heartbeat)
    ensures Current(c, c.leases[i].pc.req.receipt)
    ensures Apply(md5, later, c, SettlementDecided(i)).leases[i].pc == Settled(c.leases[i].pc.outcome, true)
  {
    Reachable(md5, content, now, steps, c);
    assert LeaseOk(c, i) && Owns(c, i);
  }

  /** From the return of `cancel_heartbeat` on no heartbeat update is in flight, and none starts. */
  lemma HeartbeatStaysOver(md5: Md5, now: nat, c: Cell, e: Event, i: nat)
    requires Enabled(now, c, e)
    requires i < |c.leases| && HeartbeatOver(c.leases[i].heartbeat)
    ensures var c' := Apply(md5, now, c, e);
            HeartbeatOver(c'.leases[i].heartbeat) && c'.leases[i].receipt == c.leases[i].receipt
  {
    if About(e, i) {
      OverStays(md5, c, c.leases[i], e);
    }
  }

  lemma OverStays(md5: Md5, c: Cell, l: Lease, e: Event)
    requires OfLease(e) && Possible(l, e) && HeartbeatOver(l.heartbeat)
    ensures HeartbeatOver(LeaseAfter(md5, c, l, e).heartbeat) && LeaseAfter(md5, c, l, e).receipt == l.receipt
  {
  }

  /** Fencing: once another worker has received the message, nothing an earlier lease still
      sends changes it. */
  lemma EarlierLeaseIsFenced(md5: Md5, content: Document, now: nat, steps: seq<Step>, c: Cell, i: nat, later: nat)
    requires Run(md5, Pushed(content, now), steps, c)
    requires i < |c.leases| && c.lastReceiver != Some(i)
    ensures c.leases[i].pc.Settling? ==>
              var refused := c.leases[i].(pc := Settled(c.leases[i].pc.outcome, false));
              Apply(md5, later, c, SettlementDecided(i)) == c.(leases := c.leases[i := refused])
    ensures c.leases[i].heartbeat.Sending? ==>
              var refused := c.leases[i].(heartbeat := Refused);
              Apply(md5, later, c, HeartbeatDecided(i)) == c.(leases := c.leases[i := refused])
  {
    Reachable(md5, content, now, steps, c);
    StaleReceipts(c, i);
  }

  lemma StaleReceipts(c: Cell, i: nat)
    requires i < |c.leases| && LeaseOk(c, i) && c.lastReceiver != Some(i)
    ensures c.leases[i].pc.Settling? ==> !Current(c, c.leases[i].pc.req.receipt)
    ensures c.leases[i].heartbeat.Sending? ==> !Current(c, c.leases[i].heartbeat.used)
  {
  }

  /** The same holds for requests that were given up and arrive late. */
  lemma LateRequestIsFenced(md5: Md5, content: Document, now: nat, steps: seq<Step>, c: Cell, s: Stray, later: nat)
    requires Run(md5, Pushed(content, now), steps, c)
    requires s in c.strays && !s.LateDeadLetter? && c.lastReceiver != Some(s.owner)
    ensures Apply(md5, later, c, StrayArrives(s)) == c
  {
    Reachable(md5, content, now, steps, c);
    assert StrayOk(c, s);
  }

  /** The execution stops waiting for its request although it still travels. */
  predicate GivesUpLate(e: Event, i: nat) {
    e == RequestFailed(i, true) || e == Abort(i, true) || e == Crash(i, true)
  }

  /** What such a step leaves behind and does not touch. */
  lemma LeftBehindStep(md5: Md5, now: nat, c: Cell, e: Event, i: nat)
    requires Enabled(now, c, e) && (GivesUpLate(e, i) || e == HeartbeatFailed(i, true))
    ensures var c1, l := Apply(md5, now, c, e), c.leases[i];
            && c1.entry == c.entry && c1.dead == c.dead && c1.nextReceipt == c.nextReceipt
            && (GivesUpLate(e, i) && l.pc.Settling? ==> LateSettlement(i, l.pc.req) in c1.strays)
            && (GivesUpLate(e, i) && l.pc.DeadLettering? ==> LateDeadLetter(l.task.Serialize(md5)) in c1.strays)
            && (!e.RequestFailed? && !e.Abort? && l.heartbeat.Sending? ==>
                  LateHeartbeat(i, l.heartbeat.used, l.timeout) in c1.strays)
  {
  }

  /** Giving up does not recall a request: it may reach the broker at any later time, where it has exactly the
      effect that it would have had. */
  lemma LateSettlementStillWorks(md5: Md5, now: nat, c: Cell, e: Event, i: nat, later: nat)
    requires Enabled(now, c, e) && GivesUpLate(e, i) && c.leases[i].pc.Settling?
    ensures var c1, late := Apply(md5, now, c, e), StrayArrives(LateSettlement(i, c.leases[i].pc.req));
            && Enabled(later, c1, late)
            && Apply(md5, later, c1, late).entry == Apply(md5, later, c, SettlementDecided(i)).entry
  {
    LeftBehindStep(md5, now, c, e, i);
  }

  /** The same for a dead-letter copy. */
  lemma LateDeadLetterStillWorks(md5: Md5, now: nat, c: Cell, e: Event, i: nat, later: nat)
    requires Enabled(now, c, e) && GivesUpLate(e, i) && c.leases[i].pc.DeadLettering?
    ensures var c1, late := Apply(md5, now, c, e), StrayArrives(LateDeadLetter(c.leases[i].task.Serialize(md5)));
            && Enabled(later, c1, late)
            && Apply(md5, later, c1, late).dead == Apply(md5, later, c, DeadLetterStored(i)).dead
  {
    LeftBehindStep(md5, now, c, e, i);
  }

  /** The same for a heartbeat update. */
  lemma LateHeartbeatStillWorks(md5: Md5, now: nat, c: Cell, e: Event, i: nat, later: nat)
    requires Enabled(now, c, e) && (e == HeartbeatFailed(i, true) || e == Crash(i, true))
    requires c.leases[i].heartbeat.Sending?
    ensures var c1, l := Apply(md5, now, c, e), c.leases[i];
            var late := StrayArrives(LateHeartbeat(i, l.heartbeat.used, l.timeout));
            && Enabled(later, c1, late)
            && Apply(md5, later, c1, late).entry == Apply(md5, later, c, HeartbeatDecided(i)).entry
  {
    LeftBehindStep(md5, now, c, e, i);
  }

  /** The lost-lock event is no false alarm: when it is set during an execution, another worker
      received the message or a reply to this lease was lost. */
  lemma LockLossIsReal(md5: Md5, content: Document, now: nat, steps: seq<Step>, c: Cell, i: nat)
    requires Run(md5, Pushed(content, now), steps, c)
    requires i < |c.leases| && c.leases[i].pc.Executing? && c.leases[i].lockLost
    ensures c.lastReceiver != Some(i) || c.leases[i].replyLost
  {
    Reachable(md5, content, now, steps, c);
    assert Owns(c, i) ==> ReceiptCurrent(c, c.leases[i]);
  }

  // ---- a lost lock ----

  /** A heartbeat task stops because it was asked to, or it says that the lock is lost; or the
      execution is over. Nobody asks while the callback runs. An execution takes its lock for lost only if
      the event says so. */
  ghost predicate StopsForCause(l: Lease) {
    && (l.heartbeat.Stopped? ==> l.cancelRequested || l.lockLost || l.pc.Exited?)
    && (l.pc.Executing? ==> !l.cancelRequested)
    && (l.pc.Stopping? && l.pc.sawLost ==> l.lockLost)
    && (l.pc == Exited(RaisedLockLost) ==> l.lockLost)
  }

  /** An execution that knows of the loss: it does not settle, but for putting a cancelled task back
      as it was. */
  ghost predicate WalksAway(md5: Md5, l: Lease) {
    && l.lockLost
    && match l.pc
       case Executing => true
       case Stopping(outcome, sawLost) => sawLost || outcome.Canceled?
       case Settling(outcome, req) =>
         outcome.Canceled? && req.Update? && !req.retry && req.content == l.task.Serialize(md5)
       case Settled(outcome, _) => outcome.Canceled?
       case Exited(how) => how.RaisedLockLost? || how.RaisedWorkerCanceled? || how.Aborted? || how.Crashed?
       case _ => false
  }

  lemma LeaseStopsForCause(md5: Md5, c: Cell, l: Lease, e: Event)
    requires OfLease(e) && Possible(l, e) && StopsForCause(l)
    ensures StopsForCause(LeaseAfter(md5, c, l, e))
  {
  }

  lemma LeaseWalksAway(md5: Md5, c: Cell, l: Lease, e: Event)
    requires OfLease(e) && Possible(l, e) && WalksAway(md5, l)
    ensures WalksAway(md5, LeaseAfter(md5, c, l, e))
  {
  }

  lemma {:induction false} StopsForCauseRun(md5: Md5, c: Cell, steps: seq<Step>, c': Cell)
    requires Run(md5, c, steps, c') && forall i :: 0 <= i < |c.leases| ==> StopsForCause(c.leases[i])
    ensures forall i :: 0 <= i < |c'.leases| ==> StopsForCause(c'.leases[i])
    decreases |steps|
  {
    if steps != [] {
      var e := steps[0].event;
      if OfLease(e) {
        LeaseStopsForCause(md5, c, c.leases[e.i], e);
      }
      StopsForCauseRun(md5, Apply(md5, steps[0].now, c, e), steps[1..], c');
    }
  }

  lemma ReachableStopsForCause(md5: Md5, content: Document, now: nat, steps: seq<Step>, c: Cell, i: nat)
    requires Run(md5, Pushed(content, now), steps, c) && i < |c.leases|
    ensures StopsForCause(c.leases[i])
  {
    StopsForCauseRun(md5, Pushed(content, now), steps, c);
  }

  /** Its heartbeat was refused: the task is over or about to be, and says so to an execution that still runs. */
  predicate Refusal(l: Lease) {
    l.heartbeat.Refused? || (l.heartbeat.Stopped? && (l.lockLost || l.pc.Exited?))
  }

  lemma RefusalStays(md5: Md5, c: Cell, l: Lease, e: Event)
    requires OfLease(e) && Possible(l, e) && Refusal(l)
    ensures Refusal(LeaseAfter(md5, c, l, e))
  {
  }

  lemma {:induction false} RefusalRun(md5: Md5, c: Cell, steps: seq<Step>, c': Cell, i: nat)
    requires Run(md5, c, steps, c') && i < |c.leases| && Refusal(c.leases[i])
    ensures i < |c'.leases| && Refusal(c'.leases[i])
    decreases |steps|
  {
    if steps != [] {
      var e := steps[0].event;
      if About(e, i) {
        RefusalStays(md5, c, c.leases[i], e);
      }
      RefusalRun(md5, Apply(md5, steps[0].now, c, e), steps[1..], c', i);
    }
  }

  /** A heartbeat update that the broker refuses is the last one in every continuation, and once its answer
      has arrived the lost-lock event is set, unless the execution is over. */
  lemma RefusalEndsHeartbeat(md5: Md5, now: nat, c: Cell, i: nat, steps: seq<Step>, c': Cell)
    requires i < |c.leases| && c.leases[i].heartbeat.Sending? && !Current(c, c.leases[i].heartbeat.used)
    requires Run(md5, Apply(md5, now, c, HeartbeatDecided(i)), steps, c')
    ensures i < |c'.leases| && (c'.leases[i].heartbeat.Refused? || c'.leases[i].heartbeat.Stopped?)
    ensures c'.leases[i].heartbeat.Stopped? ==> c'.leases[i].lockLost || c'.leases[i].pc.Exited?
  {
    RefusalRun(md5, Apply(md5, now, c, HeartbeatDecided(i)), steps, c', i);
  }

  /** The answer to a refused update arrives: the one step that sets the lost-lock event. */
  predicate TellsLoss(c: Cell, e: Event, i: nat) {
    i < |c.leases| && e == HeartbeatReplied(i) && c.leases[i].heartbeat.Refused?
  }

  ghost predicate Told(md5: Md5, c: Cell, steps: seq<Step>, i: nat)
    decreases |steps|
  {
    && steps != [] && Enabled(steps[0].now, c, steps[0].event)
    && (|| TellsLoss(c, steps[0].event, i)
        || Told(md5, Apply(md5, steps[0].now, c, steps[0].event), steps[1..], i))
  }

  lemma LostStep(md5: Md5, now: nat, c: Cell, e: Event, i: nat)
    requires Enabled(now, c, e) && i < |Apply(md5, now, c, e).leases|
    ensures Apply(md5, now, c, e).leases[i].lockLost
            <==> (i < |c.leases| && c.leases[i].lockLost) || TellsLoss(c, e, i)
  {
    if OfLease(e) {
      LostOwnStep(md5, c, c.leases[e.i], e);
    }
  }

  lemma LostOwnStep(md5: Md5, c: Cell, l: Lease, e: Event)
    requires OfLease(e) && Possible(l, e)
    ensures LeaseAfter(md5, c, l, e).lockLost <==> l.lockLost || (e.HeartbeatReplied? && l.heartbeat.Refused?)
  {
  }

  lemma {:induction false} LostIffToldRun(md5: Md5, c: Cell, steps: seq<Step>, c': Cell, i: nat)
    requires Run(md5, c, steps, c') && i < |c'.leases|
    ensures c'.leases[i].lockLost <==> (i < |c.leases| && c.leases[i].lockLost) || Told(md5, c, steps, i)
    decreases |steps|
  {
    if steps != [] {
      var next := Apply(md5, steps[0].now, c, steps[0].event);
      if i < |next.leases| {
        LostStep(md5, steps[0].now, c, steps[0].event, i);
      }
      LostIffToldRun(md5, next, steps[1..], c', i);
    }
  }

  /** In every run the lost-lock event of an execution is set exactly if the answer to a refused update
      arrived. */
  lemma LostIffTold(md5: Md5, content: Document, now: nat, steps: seq<Step>, c: Cell, i: nat)
    requires Run(md5, Pushed(content, now), steps, c) && i < |c.leases|
    ensures c.leases[i].lockLost <==> Told(md5, Pushed(content, now), steps, i)
  {
    LostIffToldRun(md5, Pushed(content, now), steps, c, i);
  }

  /** `LockLostError` is raised only after a refused update. */
  lemma LockLostErrorIsJustified(md5: Md5, content: Document, now: nat, steps: seq<Step>, c: Cell, i: nat)
    requires Run(md5, Pushed(content, now), steps, c)
    requires i < |c.leases| && c.leases[i].pc == Exited(RaisedLockLost)
    ensures Told(md5, Pushed(content, now), steps, i)
  {
    ReachableStopsForCause(md5, content, now, steps, c, i);
    LostIffTold(md5, content, now, steps, c, i);
  }

  /** A refused heartbeat is reported: while the callback runs, so does its heartbeat, or the lost-lock
      event is set. */
  lemma RefusalIsReported(md5: Md5, content: Document, now: nat, steps: seq<Step>, c: Cell, i: nat)
    requires Run(md5, Pushed(content, now), steps, c)
    requires i < |c.leases| && c.leases[i].heartbeat.Stopped? && c.leases[i].pc.Executing?
    ensures c.leases[i].lockLost
  {
    ReachableStopsForCause(md5, content, now, steps, c, i);
  }

  /** A loss that is known when the callback ends is respected: whatever follows, the execution never
      deletes, replaces or dead-letters the message, and it reports the lost lock unless it is cancelled or dies. */
  lemma {:induction false} LostLockIsRespected(md5: Md5, c: Cell, steps: seq<Step>, c': Cell, i: nat)
    requires Run(md5, c, steps, c') && i < |c.leases| && WalksAway(md5, c.leases[i])
    ensures i < |c'.leases| && WalksAway(md5, c'.leases[i])
    decreases |steps|
  {
    if steps != [] {
      var e := steps[0].event;
      if About(e, i) {
        LeaseWalksAway(md5, c, c.leases[i], e);
      }
      LostLockIsRespected(md5, Apply(md5, steps[0].now, c, e), steps[1..], c', i);
    }
  }

  // ---- exits that skip the clean-up of the heartbeat ----

  /** Every exit other than `CancelledError` and an unreadable payload leaves no heartbeat behind. */
  lemma CleanExitStopsHeartbeat(md5: Md5, content: Document, now: nat, steps: seq<Step>, c: Cell, i: nat)
    requires Run(md5, Pushed(content, now), steps, c)
    requires i < |c.leases| && c.leases[i].pc.Exited?
    requires !c.leases[i].pc.how.Aborted? && !c.leases[i].pc.how.BadPayload?
    ensures HeartbeatOver(c.leases[i].heartbeat)
  {
    Reachable(md5, content, now, steps, c);
    assert LeaseOk(c, i);
  }
}
