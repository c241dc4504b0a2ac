/** Lost locks on Service Bus: how an execution is told and what it still does
    (ai4s/jobq/backend/servicebus_rest.py and ai4s/jobq/jobq.py). */
module ServiceBusLeaseLoss {
  import opened Basics
  import opened Entities
  import opened ServiceBusLease
  import opened ServiceBusLeaseSafety
  import opened ServiceBusLeaseTheorems

  // ---- when the lost-lock event is set ----

  /** The broker finds the lock of execution `i` not held when it answers a renewal. */
  predicate Refuses(now: nat, c: Cell, e: Event, i: nat) {
    i < |c.leases| && e == RenewalDecided(i) && !Locked(now, c, c.leases[i].token)
  }

  /** A renewal fails more than the lock duration after the last success. */
  predicate Overdue(now: nat, c: Cell, e: Event, i: nat) {
    && i < |c.leases| && e.RenewalFailed? && e.i == i && e.expired
    && now > c.leases[i].lastSuccess + c.leases[i].duration
  }

  /** Execution `i` is told that its lock is lost, unless its renewal was asked to stop. */
  predicate TellsLoss(now: nat, c: Cell, e: Event, i: nat) {
    (Refuses(now, c, e, i) || Overdue(now, c, e, i)) && !c.leases[i].stop
  }

  /** At some step of the run it is. */
  ghost predicate Told(c: Cell, steps: seq<Step>, i: nat)
    decreases |steps|
  {
    && steps != [] && Enabled(steps[0].now, c, steps[0].event)
    && (|| TellsLoss(steps[0].now, c, steps[0].event, i)
        || Told(Apply(steps[0].now, c, steps[0].event), steps[1..], i))
  }

  lemma LostStep(now: nat, c: Cell, e: Event, i: nat)
    requires Enabled(now, c, e) && i < |Apply(now, c, e).leases|
    ensures Apply(now, c, e).leases[i].lockLost
            <==> (i < |c.leases| && c.leases[i].lockLost) || TellsLoss(now, c, e, i)
  {
    FrameStep(now, c, e);
  }

  lemma {:induction false} LostIffToldRun(c: Cell, steps: seq<Step>, c': Cell, i: nat)
    requires Run(c, steps, c') && i < |c'.leases|
    ensures c'.leases[i].lockLost <==> (i < |c.leases| && c.leases[i].lockLost) || Told(c, steps, i)
    decreases |steps|
  {
    if steps != [] {
      var next := Apply(steps[0].now, c, steps[0].event);
      LeasesStay(next, steps[1..], c', i);
      if i < |next.leases| {
        LostStep(steps[0].now, c, steps[0].event, i);
      }
      FrameStep(steps[0].now, c, steps[0].event);
      LostIffToldRun(next, steps[1..], c', i);
    }
  }

  lemma {:induction false} LeasesStay(c: Cell, steps: seq<Step>, c': Cell, i: nat)
    requires Run(c, steps, c')
    ensures |c.leases| <= |c'.leases|
    decreases |steps|
  {
    if steps != [] {
      FrameStep(steps[0].now, c, steps[0].event);
      LeasesStay(Apply(steps[0].now, c, steps[0].event), steps[1..], c', i);
    }
  }

  /** In every run the lost-lock event of an execution is set exactly if a renewal was answered while its
      lock was not held, or failed more than the lock duration after the last success, before its
      renewal was asked to stop. */
  lemma LostIffTold(content: Document, steps: seq<Step>, c: Cell, i: nat)
    requires Run(Pushed(content), steps, c) && i < |c.leases|
    ensures c.leases[i].lockLost <==> Told(Pushed(content), steps, i)
  {
    LostIffToldRun(Pushed(content), steps, c, i);
  }

  /** A refused renewal is the last: the renewal is over in every continuation, and the execution has been
      told unless it had asked for the end itself. */
  lemma RefusalEndsRenewal(now: nat, c: Cell, e: Event, i: nat, steps: seq<Step>, c': Cell)
    requires Enabled(now, c, e) && Refuses(now, c, e, i) && Run(Apply(now, c, e), steps, c')
    ensures i < |c'.leases| && Over(c'.leases[i].renewal)
    ensures !c.leases[i].stop ==> c'.leases[i].lockLost
  {
    LeasesStay(Apply(now, c, e), steps, c', i);
    StaysOver(Apply(now, c, e), steps, c', i);
    LostStep(now, c, e, i);
    LostIffToldRun(Apply(now, c, e), steps, c', i);
  }

  lemma {:induction false} StaysOver(c: Cell, steps: seq<Step>, c': Cell, i: nat)
    requires Run(c, steps, c') && i < |c.leases| && Over(c.leases[i].renewal)
    ensures i < |c'.leases| && Over(c'.leases[i].renewal)
    decreases |steps|
  {
    if steps != [] {
      var now, e := steps[0].now, steps[0].event;
      FrameStep(now, c, e);
      if About(e, i) {
        OverStays(c.leases[i], e, Locked(now, c, c.leases[i].token), now);
      }
      StaysOver(Apply(now, c, e), steps[1..], c', i);
    }
  }

  lemma OverStays(l: Lease, e: Event, held: bool, now: nat)
    requires OfLease(e) && Possible(l, e) && Over(l.renewal)
    ensures Over(LeaseAfter(l, e, held, now).renewal)
  {
  }

  // ---- the event is no false alarm ----

  /** A renewal request of this token is still travelling. */
  ghost predicate RenewalAbroad(c: Cell, token: nat) {
    exists s :: s in c.strays && s.LateRenewal? && s.token == token
  }

  /** The broker holds the lock of the message no longer than its last receiver knows of, but for requests
      still travelling. */
  ghost predicate LockBounded(c: Cell) {
    c.entry.Some? && c.leases != [] ==>
      var l := c.leases[|c.leases| - 1];
      c.entry.value.lockedUntil <= l.lastSuccess + l.duration || RenewalAbroad(c, l.token)
  }

  lemma StraysStay(now: nat, c: Cell, e: Event, token: nat)
    requires Enabled(now, c, e)
    ensures c.strays <= Apply(now, c, e).strays
    ensures RenewalAbroad(c, token) ==> RenewalAbroad(Apply(now, c, e), token)
  {
    if RenewalAbroad(c, token) {
      var s :| s in c.strays && s.LateRenewal? && s.token == token;
      assert s in Apply(now, c, e).strays;
    }
  }

  lemma LastLeaseTimes(l: Lease, e: Event, held: bool, now: nat)
    requires OfLease(e) && Possible(l, e)
    ensures var l' := LeaseAfter(l, e, held, now);
            && l'.duration == l.duration && l'.token == l.token
            && l'.lastSuccess == if e.RenewalDecided? && held then now else l.lastSuccess
  {
  }

  /** What can move the end of the lock. */
  lemma LockedUntilStep(now: nat, c: Cell, e: Event)
    requires Enabled(now, c, e) && !e.Receive? && Apply(now, c, e).entry.Some?
    ensures c.entry.Some?
    ensures var until, until' := c.entry.value.lockedUntil, Apply(now, c, e).entry.value.lockedUntil;
            || until' <= until
            || (e.RenewalDecided? && Locked(now, c, c.leases[e.i].token) && until' == now + c.leases[e.i].duration)
            || (e.StrayArrives? && e.stray.LateRenewal? && e.stray.token == c.entry.value.token)
  {
  }

  lemma LockBoundedStep(now: nat, c: Cell, e: Event)
    requires Enabled(now, c, e) && TokensOk(c) && LockBounded(c)
    ensures LockBounded(Apply(now, c, e))
  {
    var c' := Apply(now, c, e);
    FrameStep(now, c, e);
    if c'.entry.Some? && c'.leases != [] && !e.Receive? {
      var k := |c.leases| - 1;
      var l := c.leases[k];
      LockedUntilStep(now, c, e);
      StraysStay(now, c, e, l.token);
      if About(e, k) {
        LastLeaseTimes(l, e, Locked(now, c, l.token), now);
        if e.RenewalDecided? && Locked(now, c, l.token) {
          LaterSuccess(now, c, e);
        }
      } else if e.StrayArrives? && e.stray.LateRenewal? && e.stray.token == l.token {
        assert e.stray in c.strays;
      }
    }
  }

  /** An accepted renewal of the last lease. */
  lemma LaterSuccess(now: nat, c: Cell, e: Event)
    requires Enabled(now, c, e) && c.leases != [] && About(e, |c.leases| - 1) && e.RenewalDecided?
    requires Locked(now, c, c.leases[e.i].token)
    ensures Apply(now, c, e).entry.value.lockedUntil == now + c.leases[e.i].duration
    ensures Apply(now, c, e).leases[e.i].lastSuccess == now
  {
  }

  lemma {:induction false} LockBoundedRun(c: Cell, steps: seq<Step>, c': Cell)
    requires Inv(c) && LockBounded(c) && Run(c, steps, c')
    ensures LockBounded(c')
    decreases |steps|
  {
    if steps != [] {
      LockBoundedStep(steps[0].now, c, steps[0].event);
      InvStep(steps[0].now, c, steps[0].event);
      LockBoundedRun(Apply(steps[0].now, c, steps[0].event), steps[1..], c');
    }
  }

  /** Whoever is told has lost the lock: the broker does not hold it any more, unless a renewal request that
      was given up still travels and may have extended it. */
  lemma LossIsReal(content: Document, steps: seq<Step>, c: Cell, now: nat, e: Event, i: nat)
    requires Run(Pushed(content), steps, c) && Enabled(now, c, e) && TellsLoss(now, c, e, i)
    ensures !Locked(now, c, c.leases[i].token) || RenewalAbroad(c, c.leases[i].token)
  {
    Reachable(content, steps, c);
    LockBoundedRun(Pushed(content), steps, c);
    if Locked(now, c, c.leases[i].token) {
      HeldByLastReceiver(content, steps, c, now, i);
    }
  }

  /** An execution takes its lock for lost only if the event says so. */
  ghost predicate Believes(l: Lease) {
    && (l.pc.Stopping? && l.pc.sawLost ==> l.lockLost)
    && ((l.pc.Leaving? || l.pc.Exited?) && l.pc.how.RaisedLockLost? ==> l.lockLost)
  }

  lemma BelievesStep(l: Lease, e: Event, held: bool, now: nat)
    requires OfLease(e) && Possible(l, e) && Believes(l)
    ensures Believes(LeaseAfter(l, e, held, now))
  {
  }

  lemma {:induction false} BelievesRun(c: Cell, steps: seq<Step>, c': Cell)
    requires Run(c, steps, c') && forall i :: 0 <= i < |c.leases| ==> Believes(c.leases[i])
    ensures forall i :: 0 <= i < |c'.leases| ==> Believes(c'.leases[i])
    decreases |steps|
  {
    if steps != [] {
      var now, e := steps[0].now, steps[0].event;
      FrameStep(now, c, e);
      if OfLease(e) {
        BelievesStep(c.leases[e.i], e, Locked(now, c, c.leases[e.i].token), now);
      }
      BelievesRun(Apply(now, c, e), steps[1..], c');
    }
  }

  /** `LockLostError` is raised only by an execution that was told of the loss. */
  lemma LockLostErrorIsJustified(content: Document, steps: seq<Step>, c: Cell, i: nat)
    requires Run(Pushed(content), steps, c) && i < |c.leases| && c.leases[i].pc == Exited(RaisedLockLost)
    ensures Told(Pushed(content), steps, i)
  {
    BelievesRun(Pushed(content), steps, c);
    LostIffTold(content, steps, c, i);
  }

  /** Without a heartbeat an execution never renews its lock, and only then. */
  lemma RenewsIffHeartbeat(now: nat, c: Cell, e: Event, steps: seq<Step>, c': Cell)
    requires e.Receive? && Enabled(now, c, e) && Run(Apply(now, c, e), steps, c')
    ensures |c.leases| < |c'.leases| && (c'.leases[|c.leases|].renewal.NoRenewal? <==> !e.heartbeat)
  {
    SameKindRun(Apply(now, c, e), steps, c', |c.leases|);
  }

  lemma SameKindStep(l: Lease, e: Event, held: bool, now: nat)
    requires OfLease(e) && Possible(l, e)
    ensures LeaseAfter(l, e, held, now).renewal.NoRenewal? <==> l.renewal.NoRenewal?
  {
  }

  lemma {:induction false} SameKindRun(c: Cell, steps: seq<Step>, c': Cell, i: nat)
    requires Run(c, steps, c') && i < |c.leases|
    ensures i < |c'.leases| && (c'.leases[i].renewal.NoRenewal? <==> c.leases[i].renewal.NoRenewal?)
    decreases |steps|
  {
    if steps != [] {
      var now, e := steps[0].now, steps[0].event;
      FrameStep(now, c, e);
      if About(e, i) {
        SameKindStep(c.leases[i], e, Locked(now, c, c.leases[i].token), now);
      }
      SameKindRun(Apply(now, c, e), steps[1..], c', i);
    }
  }

  // ---- what a told execution still does ----

  /** An execution that knows of the loss: it asks for nothing but the release of a cancelled task. */
  ghost predicate WalksAway(l: Lease) {
    && l.lockLost
    && match l.pc
       case Executing => true
       case Stopping(outcome, sawLost) => sawLost || outcome.Canceled?
       case Settling(outcome, req) => outcome.Canceled? && req.Unlock?
       case Settled(outcome) => outcome.Canceled?
       case Leaving(how) => how.RaisedLockLost? || how.RaisedWorkerCanceled? || how.Aborted?
       case Exited(how) => how.RaisedLockLost? || how.RaisedWorkerCanceled? || how.Aborted? || how.Crashed?
  }

  lemma LeaseWalksAway(l: Lease, e: Event, held: bool, now: nat)
    requires OfLease(e) && Possible(l, e) && WalksAway(l)
    ensures WalksAway(LeaseAfter(l, e, held, now))
  {
  }

  /** A loss that is known when the callback ends is respected in every continuation: the execution neither
      completes nor dead-letters the message, and it reports the lost lock unless it is cancelled or dies. */
  lemma {:induction false} LostLockIsRespected(c: Cell, steps: seq<Step>, c': Cell, i: nat)
    requires Run(c, steps, c') && i < |c.leases| && WalksAway(c.leases[i])
    ensures i < |c'.leases| && WalksAway(c'.leases[i])
    decreases |steps|
  {
    if steps != [] {
      var now, e := steps[0].now, steps[0].event;
      FrameStep(now, c, e);
      if About(e, i) {
        LeaseWalksAway(c.leases[i], e, Locked(now, c, c.leases[i].token), now);
      }
      LostLockIsRespected(Apply(now, c, e), steps[1..], c', i);
    }
  }

  /** From the refusal on: a callback whose renewal was refused while it ran can only end in a lost lock, a
      cancellation or the end of its process. */
  lemma RefusedWhileExecuting(now: nat, c: Cell, i: nat, steps: seq<Step>, c': Cell)
    requires Enabled(now, c, RenewalDecided(i)) && Refuses(now, c, RenewalDecided(i), i)
    requires c.leases[i].pc.Executing? && !c.leases[i].stop
    requires Run(Apply(now, c, RenewalDecided(i)), steps, c')
    ensures i < |c'.leases| && WalksAway(c'.leases[i])
  {
    LostLockIsRespected(Apply(now, c, RenewalDecided(i)), steps, c', i);
  }
}
