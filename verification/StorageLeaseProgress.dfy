/** What a Storage Queue message can always still come to: whatever happened before, it can be delivered and
    settled as soon as the processes that hold it are gone (ai4s/jobq/jobq.py). */
module StorageLeaseProgress {
  import opened Basics
  import opened Entities
  import opened StorageLease
  import opened StorageLeaseSafety
  import opened StorageLeaseTheorems

  // ---- the holders go away ----

  /** The execution is over and so is its heartbeat. */
  predicate Gone(l: Lease) {
    l.pc.Exited? && HeartbeatOver(l.heartbeat)
  }

  /** Nothing but a crash or time is needed for it, and it is final. */
  lemma GoneStaysGone(l: Lease, e: Event)
    requires OfLease(e) && Gone(l)
    ensures !Possible(l, e)
  {
  }

  ghost predicate AllGone(c: Cell) {
    forall i :: 0 <= i < |c.leases| ==> Gone(c.leases[i])
  }

  lemma Cons(md5: Md5, c: Cell, now: nat, e: Event, rest: seq<Step>, c': Cell)
    requires Enabled(now, c, e) && Run(md5, Apply(md5, now, c, e), rest, c')
    ensures Run(md5, c, [Step(now, e)] + rest, c')
  {
    assert ([Step(now, e)] + rest)[1..] == rest;
  }

  /** The processes of the executions from `k` on die. */
  lemma {:induction false} HoldersDie(md5: Md5, c: Cell, now: nat, k: nat) returns (steps: seq<Step>, c': Cell)
    requires k <= |c.leases| && forall i :: 0 <= i < k ==> Gone(c.leases[i])
    ensures Run(md5, c, steps, c') && AllGone(c') && c'.entry == c.entry
    decreases |c.leases| - k
  {
    if k == |c.leases| {
      return [], c;
    }
    if Gone(c.leases[k]) {
      steps, c' := HoldersDie(md5, c, now, k + 1);
    } else {
      var e := Crash(k, false);
      var next := Apply(md5, now, c, e);
      steps, c' := HoldersDie(md5, next, now, k + 1);
      Cons(md5, c, now, e, steps, c');
      steps := [Step(now, e)] + steps;
    }
  }

  // ---- one delivery ----

  /** The content is a task that wants no reply. */
  ghost predicate Executable(c: Cell) {
    && c.entry.Some?
    && Deserialize(c.entry.value.content).Some?
    && !Deserialize(c.entry.value.content).value.replyRequested
  }

  ghost predicate Offered(c: Cell, now: nat, retries: int) {
    c.entry.Some? && c.entry.value.visibleAt <= now && Retries(c.entry.value.content) == retries
  }

  ghost predicate DeadLetteredOnce(c: Cell, c': Cell) {
    c'.entry.None? && |c'.dead| == |c.dead| + 1
  }

  /** How a delivery leaves the message: a success deletes it, a failure offers it again with one retry less
      or moves it to the dead-letter queue, a cancellation offers it again as it was. */
  ghost predicate Documented(c: Cell, outcome: Outcome, now: nat, c': Cell)
    requires c.entry.Some?
  {
    var retries := Retries(c.entry.value.content);
    match outcome
    case Succeeded => c'.entry.None? && c'.returned
    case Failed => if retries <= 0 then DeadLetteredOnce(c, c') else Offered(c', now, retries - 1) && c'.dead == c.dead
    case Canceled => Offered(c', now, retries) && c'.dead == c.dead
  }

  /** One more execution has received and settled the message, and has told its caller so. */
  ghost predicate Delivered(c: Cell, outcome: Outcome, now: nat, c': Cell) {
    && |c'.leases| == |c.leases| + 1 && c'.leases[..|c.leases|] == c.leases
    && c'.leases[|c.leases|].pc == Exited(SettlementExit(outcome, true)) && Gone(c'.leases[|c.leases|])
    && c.entry.Some? && Documented(c, outcome, now, c')
  }

  /** Execution `i` was the last to receive the message and has stopped its heartbeat. */
  ghost predicate Holder(c: Cell, i: nat) {
    && i + 1 == |c.leases| && c.entry.Some?
    && HeartbeatOver(c.leases[i].heartbeat)
  }

  /** What is left once the request is on its way. */
  lemma CanSettle(md5: Md5, c: Cell, now: nat, i: nat) returns (steps: seq<Step>, c': Cell)
    requires Holder(c, i) && c.leases[i].pc.Settling? && Current(c, c.leases[i].pc.req.receipt)
    ensures var pc := c.leases[i].pc;
            && Run(md5, c, steps, c') && c'.dead == c.dead && c'.returned == c.returned
            && c'.leases == c.leases[i := c.leases[i].(pc := Exited(SettlementExit(pc.outcome, true)))]
            && if pc.req.Delete? then c'.entry.None? else Offered(c', now, Retries(pc.req.content))
  {
    var e1, e2 := SettlementDecided(i), SettlementReplied(i);
    var c1 := Apply(md5, now, c, e1);
    c' := Apply(md5, now, c1, e2);
    Cons(md5, c1, now, e2, [], c');
    Cons(md5, c, now, e1, [Step(now, e2)] + [], c');
    steps := [Step(now, e1)] + ([Step(now, e2)] + []);
  }

  lemma CanDeadLetter(md5: Md5, c: Cell, now: nat, i: nat) returns (steps: seq<Step>, c': Cell)
    requires Holder(c, i) && c.leases[i].pc.DeadLettering? && Current(c, c.leases[i].receipt)
    ensures Run(md5, c, steps, c') && DeadLetteredOnce(c, c')
    ensures c'.leases == c.leases[i := c.leases[i].(pc := Exited(ReturnedFalse))]
  {
    var e1, e2 := DeadLetterStored(i), DeadLetterReplied(i);
    var c1 := Apply(md5, now, c, e1);
    var c2 := Apply(md5, now, c1, e2);
    steps, c' := CanSettle(md5, c2, now, i);
    Cons(md5, c1, now, e2, steps, c');
    Cons(md5, c, now, e1, [Step(now, e2)] + steps, c');
    steps := [Step(now, e1)] + ([Step(now, e2)] + steps);
  }

  /** The step by which the callback ends. */
  function Ends(outcome: Outcome, i: nat): Event {
    match outcome
    case Succeeded => CallbackReturned(i)
    case Failed => CallbackRaised(i)
    case Canceled => CallbackCanceled(i)
  }

  /** Received and executed, before `cancel_heartbeat` returns. */
  ghost predicate Executed(c: Cell, outcome: Outcome, c2: Cell) {
    var i := |c.leases|;
    && c.entry.Some? && |c2.leases| == i + 1 && c2.leases[..i] == c.leases && c2.dead == c.dead
    && c2.leases[i].pc == Stopping(outcome, false) && c2.leases[i].cancelRequested
    && (c2.leases[i].heartbeat.Waiting? || HeartbeatOver(c2.leases[i].heartbeat))
    && Current(c2, c2.leases[i].receipt)
    && c2.leases[i].task.numRetries == Retries(c.entry.value.content) && !c2.leases[i].task.replyRequested
    && (outcome.Succeeded? ==> c2.returned)
  }

  lemma CanExecute(md5: Md5, c: Cell, e: Event, outcome: Outcome, now: nat)
    requires e.Receive? && Enabled(now, c, e) && Executable(c)
    ensures var c1 := Apply(md5, now, c, e);
            Enabled(now, c1, Ends(outcome, |c.leases|)) &&
            Executed(c, outcome, Apply(md5, now, c1, Ends(outcome, |c.leases|)))
  {
  }

  lemma HeartbeatStops(md5: Md5, c: Cell, outcome: Outcome, now: nat, c2: Cell)
    requires Executed(c, outcome, c2) && c2.leases[|c.leases|].heartbeat.Waiting?
    ensures Enabled(now, c2, HeartbeatLoopTest(|c.leases|))
    ensures var c3 := Apply(md5, now, c2, HeartbeatLoopTest(|c.leases|));
            Executed(c, outcome, c3) && HeartbeatOver(c3.leases[|c.leases|].heartbeat)
  {
    var c3 := Apply(md5, now, c2, HeartbeatLoopTest(|c.leases|));
    assert c3.leases[..|c.leases|] == c.leases;
  }

  lemma CanStop(md5: Md5, c: Cell, outcome: Outcome, now: nat, c2: Cell) returns (steps: seq<Step>, c': Cell)
    requires Executed(c, outcome, c2) && HeartbeatOver(c2.leases[|c.leases|].heartbeat)
    ensures Run(md5, c2, steps, c') && Delivered(c, outcome, now, c')
  {
    var i := |c.leases|;
    var e := HeartbeatCanceled(i);
    var c3 := Apply(md5, now, c2, e);
    if c3.leases[i].pc.Settling? {
      steps, c' := CanSettle(md5, c3, now, i);
    } else {
      steps, c' := CanDeadLetter(md5, c3, now, i);
    }
    Cons(md5, c2, now, e, steps, c');
    steps := [Step(now, e)] + steps;
  }

  /** Any receive of a visible, executable message can be settled as documented, however its callback ends. */
  lemma CanDeliver(md5: Md5, c: Cell, e: Event, outcome: Outcome, now: nat) returns (steps: seq<Step>, c': Cell)
    requires e.Receive? && Enabled(now, c, e) && Executable(c)
    ensures Run(md5, c, steps, c') && Delivered(c, outcome, now, c')
  {
    var i := |c.leases|;
    CanExecute(md5, c, e, outcome, now);
    var c1 := Apply(md5, now, c, e);
    var c2 := Apply(md5, now, c1, Ends(outcome, i));
    if c2.leases[i].heartbeat.Waiting? {
      HeartbeatStops(md5, c, outcome, now, c2);
      var c3 := Apply(md5, now, c2, HeartbeatLoopTest(i));
      steps, c' := CanStop(md5, c, outcome, now, c3);
      Cons(md5, c2, now, HeartbeatLoopTest(i), steps, c');
      steps := [Step(now, HeartbeatLoopTest(i))] + steps;
    } else {
      steps, c' := CanStop(md5, c, outcome, now, c2);
    }
    Cons(md5, c1, now, Ends(outcome, i), steps, c');
    Cons(md5, c, now, e, [Step(now, Ends(outcome, i))] + steps, c');
    steps := [Step(now, e)] + ([Step(now, Ends(outcome, i))] + steps);
  }

  // ---- every pushed task can still be finished ----

  /** First all holders go away without changing the message, then it is delivered and settled. */
  ghost predicate GoesOn(md5: Md5, c: Cell, outcome: Outcome, now: nat, first: seq<Step>, steps: seq<Step>) {
    exists mid, c' ::
      && Run(md5, c, first, mid) && AllGone(mid) && mid.entry == c.entry
      && Run(md5, mid, steps, c') && Delivered(mid, outcome, now, c')
  }

  lemma PushedIsExecutable(md5: Md5, t: Task, start: nat, steps: seq<Step>, c0: Cell, c: Cell)
    requires Push(md5, t, start) == Some(c0) && Run(md5, c0, steps, c) && c.entry.Some?
    ensures Executable(c)
  {
    PushedTaskIsKept(md5, t, start, steps, c0, c);
  }

  /** From every reachable state of a pushed task whose message is queued, whatever crashed, lost its lease or
      hides it: once the processes that hold it are gone and it is visible again, any receive can be settled
      as documented, whether the callback returns, raises or is cancelled. */
  lemma CanFinish(md5: Md5, t: Task, start: nat, steps: seq<Step>, c0: Cell, c: Cell, e: Event, outcome: Outcome,
          now: nat)
    returns (first: seq<Step>, more: seq<Step>)
    requires Push(md5, t, start) == Some(c0) && Run(md5, c0, steps, c)
    requires e.Receive? && c.entry.Some? && c.entry.value.visibleAt <= now
    ensures GoesOn(md5, c, outcome, now, first, more)
  {
    var mid, c': Cell;
    PushedIsExecutable(md5, t, start, steps, c0, c);
    first, mid := HoldersDie(md5, c, now, 0);
    more, c' := CanDeliver(md5, mid, e, outcome, now);
  }

  // ---- a task that always fails ----

  /** After as many failing deliveries as there are retries, and one more, the message is gone and one copy
      is on the dead-letter queue. */
  ghost predicate GivenUp(md5: Md5, c: Cell, steps: seq<Step>, c': Cell) {
    && c.entry.Some? && Run(md5, c, steps, c')
    && |c'.leases| == |c.leases| + Max(Retries(c.entry.value.content), 0) + 1
    && (forall i :: |c.leases| <= i < |c'.leases| ==> c'.leases[i].pc == Exited(ReturnedFalse))
    && DeadLetteredOnce(c, c')
  }

  lemma {:induction false} FailsUntilGivenUp(md5: Md5, t: Task, start: nat, steps: seq<Step>, c0: Cell, c: Cell,
          e: Event, now: nat)
    returns (more: seq<Step>, c': Cell)
    requires Push(md5, t, start) == Some(c0) && Run(md5, c0, steps, c)
    requires e.Receive? && c.entry.Some? && c.entry.value.visibleAt <= now
    ensures GivenUp(md5, c, more, c')
    decreases Max(Retries(c.entry.value.content), 0)
  {
    PushedIsExecutable(md5, t, start, steps, c0, c);
    more, c' := CanDeliver(md5, c, e, Failed, now);
    if Retries(c.entry.value.content) > 0 {
      var first, mid := more, c';
      RunAppend(md5, c0, steps, c, first, mid);
      more, c' := FailsUntilGivenUp(md5, t, start, steps + first, c0, mid, e, now);
      RunAppend(md5, c, first, mid, more, c');
      FailedBefore(md5, mid, more, c', |c.leases|);
      more := first + more;
    }
  }

  /** An execution that has ended and stopped its heartbeat stays as it is. */
  lemma {:induction false} FailedBefore(md5: Md5, c: Cell, steps: seq<Step>, c': Cell, i: nat)
    requires Run(md5, c, steps, c') && i < |c.leases| && Gone(c.leases[i])
    ensures i < |c'.leases| && c'.leases[i] == c.leases[i]
    decreases |steps|
  {
    if steps != [] {
      FailedBefore(md5, Apply(md5, steps[0].now, c, steps[0].event), steps[1..], c', i);
    }
  }
}
