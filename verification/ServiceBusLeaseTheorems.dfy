/** What every run of the Service Bus lease protocol guarantees. */
module ServiceBusLeaseTheorems {
  import opened Basics
  import opened Entities
  import opened ServiceBusLease
  import opened ServiceBusLeaseSafety

  // ---- one place, one holder ----

  /** Conservation: at every moment the message is in exactly one place, with its content as
      pushed. It leaves the queue only by a completion after a normal return, or for the
      dead-letter queue after a failure with no retries in the pushed content. */
  lemma ExactlyOnePlace(content: Document, steps: seq<Step>, c: Cell)
    requires Run(Pushed(content), steps, c)
    ensures (if c.entry.Some? then 1 else 0) + c.completed + |c.dead| == 1
    ensures c.entry.Some? ==> c.entry.value.content == content
    ensures c.completed == 1 ==> c.returned
    ensures c.dead != [] ==> c.dead == [content] && Budget(content) <= 0
  {
    Reachable(content, steps, c);
  }

  /** `replace` is a no-op, so a task with retries left is never given up. */
  lemma RetriesNeverRunOut(content: Document, steps: seq<Step>, c: Cell)
    requires Run(Pushed(content), steps, c) && Budget(content) > 0
    ensures c.dead == []
    ensures c.entry.Some? <==> c.completed == 0
  {
    Reachable(content, steps, c);
  }

  /** `reply` is not implemented and `push` accepts `reply_requested`: such a message never leaves
      the queue, however often its callback succeeds or fails. */
  lemma ReplyRequestedNeverSettles(content: Document, steps: seq<Step>, c: Cell)
    requires Run(Pushed(content), steps, c) && Wants(content)
    ensures c.entry.Some?
  {
    Reachable(content, steps, c);
  }

  /** In every reachable state exactly one execution can hold the lock: the last to have received the
      message, while it is queued and until the lock runs out. */
  lemma HeldByLastReceiver(content: Document, steps: seq<Step>, c: Cell, now: nat, i: nat)
    requires Run(Pushed(content), steps, c) && i < |c.leases|
    ensures Locked(now, c, c.leases[i].token) <==>
              i == |c.leases| - 1 && c.entry.Some? && now < c.entry.value.lockedUntil
  {
    Reachable(content, steps, c);
    assert c.leases[i].token == i + 1;
  }

  /** The message can be received exactly while it is queued and no lock is held. */
  lemma ReceivedUnlessHeld(content: Document, steps: seq<Step>, c: Cell, now: nat, e: Event)
    requires Run(Pushed(content), steps, c) && e.Receive?
    ensures c.leases != [] ==>
              (Enabled(now, c, e) <==> c.entry.Some? && !Locked(now, c, c.leases[|c.leases| - 1].token))
  {
    Reachable(content, steps, c);
    if c.leases != [] {
      HeldByLastReceiver(content, steps, c, now, |c.leases| - 1);
    }
  }

  /** Fencing: once another worker has received the message, no settlement and no renewal of an earlier
      lease changes anything but that lease. */
  lemma EarlierLeaseIsFenced(content: Document, steps: seq<Step>, c: Cell, now: nat, e: Event)
    requires Run(Pushed(content), steps, c) && Enabled(now, c, e)
    requires (e.SettlementDecided? || e.RenewalDecided?) && e.i + 1 < |c.leases|
    ensures Apply(now, c, e) == c.(leases := c.leases[e.i := LeaseAfter(c.leases[e.i], e, false, now)])
  {
    HeldByLastReceiver(content, steps, c, now, e.i);
  }

  /** The same for requests that were given up and arrive late: only those of the last lease, and only
      while its lock is held, have an effect. */
  lemma LateRequestIsFenced(content: Document, steps: seq<Step>, c: Cell, now: nat, s: Stray)
    requires Run(Pushed(content), steps, c) && s in c.strays
    ensures 1 <= s.token <= |c.leases| && c.leases[s.token - 1].token == s.token
    ensures s.token < |c.leases| ==> Apply(now, c, StrayArrives(s)) == c
  {
    Reachable(content, steps, c);
    assert 1 <= TokenOf(s) <= |c.leases|;
  }

  /** The execution stops waiting for its settlement although the request still travels, or repeats it. */
  predicate LeavesSettlement(e: Event, i: nat) {
    e == SettlementResent(i) || e == SettlementFailed(i, true) || e == Abort(i, true) || e == Crash(i, true)
  }

  predicate LeavesRenewal(e: Event, i: nat) {
    (e.RenewalFailed? && e.i == i && e.late) || e == RenewalCancelled(i, true) || e == Crash(i, true)
  }

  /** What such a step leaves behind and does not touch. */
  lemma LeftBehindStep(now: nat, c: Cell, e: Event, i: nat)
    requires Enabled(now, c, e) && (LeavesSettlement(e, i) || LeavesRenewal(e, i))
    ensures var c1, l := Apply(now, c, e), c.leases[i];
            && c1.entry == c.entry && c1.completed == c.completed && c1.dead == c.dead
            && (LeavesSettlement(e, i) && l.pc.Settling? ==> LateSettlement(l.token, l.pc.req) in c1.strays)
            && (LeavesRenewal(e, i) && l.renewal.Renewing? ==> LateRenewal(l.token, l.duration) in c1.strays)
  {
  }

  /** A settlement that was given up or repeated may reach the broker at any later time, where it has exactly
      the effect that it would have had. */
  lemma LateSettlementStillWorks(now: nat, c: Cell, e: Event, i: nat, later: nat)
    requires Enabled(now, c, e) && LeavesSettlement(e, i) && c.leases[i].pc.Settling?
    ensures var c1, l := Apply(now, c, e), c.leases[i];
            var late, decided := StrayArrives(LateSettlement(l.token, l.pc.req)), SettlementDecided(i);
            && Enabled(later, c1, late)
            && Apply(later, c1, late).entry == Apply(later, c, decided).entry
            && Apply(later, c1, late).completed == Apply(later, c, decided).completed
            && Apply(later, c1, late).dead == Apply(later, c, decided).dead
  {
    LeftBehindStep(now, c, e, i);
  }

  /** The same for a renewal. */
  lemma LateRenewalStillWorks(now: nat, c: Cell, e: Event, i: nat, later: nat)
    requires Enabled(now, c, e) && LeavesRenewal(e, i) && c.leases[i].renewal.Renewing?
    ensures var c1, l := Apply(now, c, e), c.leases[i];
            var late := StrayArrives(LateRenewal(l.token, l.duration));
            Enabled(later, c1, late) && Apply(later, c1, late).entry == Apply(later, c, RenewalDecided(i)).entry
  {
    LeftBehindStep(now, c, e, i);
  }

  // ---- exits ----

  /** Unlike on a Storage Queue, no exit leaves a renewal task behind. */
  lemma EveryExitStopsRenewal(content: Document, steps: seq<Step>, c: Cell, i: nat)
    requires Run(Pushed(content), steps, c)
    requires i < |c.leases| && c.leases[i].pc.Exited?
    ensures Over(c.leases[i].renewal)
  {
    Reachable(content, steps, c);
    assert LeaseOk(c.returned, c.pushed, c.leases[i]);
  }

  /** True is returned only if a callback returned normally, an error leaves only a give-up that owes
      a reply, and a payload is called unreadable only if it is: whatever the broker answers. */
  lemma ExitsAreHonest(content: Document, steps: seq<Step>, c: Cell, i: nat)
    requires Run(Pushed(content), steps, c)
    requires i < |c.leases| && c.leases[i].pc.Exited?
    ensures Honest(c.returned, content, c.leases[i].pc.how)
  {
    Reachable(content, steps, c);
    assert LeaseOk(c.returned, c.pushed, c.leases[i]);
  }

  // ---- a renewal that ends unnoticed ----

  /** The renewal task is over although nobody stopped it, and the running callback does not know. */
  predicate Unrenewed(l: Lease) {
    l.pc.Executing? && l.renewal.Finished? && !l.stop && !l.lockLost
  }

  /** A step makes the lock of a running callback lapse unnoticed if and only if it is the loop test that
      finds the deadline passed. */
  lemma LapseStep(l: Lease, e: Event, held: bool, now: nat)
    requires OfLease(e) && Possible(l, e) && !Unrenewed(l)
    ensures Unrenewed(LeaseAfter(l, e, held, now)) <==>
              l.pc.Executing? && !l.stop && !l.lockLost && e == RenewalLoop(e.i, true)
  {
  }

  /** The loop test of lease `l` that found the deadline passed. */
  predicate PastDeadline(l: Lease, i: nat, s: Step) {
    s.event == RenewalLoop(i, true) && s.now >= l.since + 21 * 24 * 3600
  }

  lemma {:induction false} SinceStays(c: Cell, steps: seq<Step>, c': Cell, i: nat)
    requires Run(c, steps, c') && i < |c.leases|
    ensures i < |c'.leases| && c'.leases[i].since == c.leases[i].since
    decreases |steps|
  {
    if steps != [] {
      FrameStep(steps[0].now, c, steps[0].event);
      SinceStays(Apply(steps[0].now, c, steps[0].event), steps[1..], c', i);
    }
  }

  lemma {:induction false} LapseRun(c: Cell, steps: seq<Step>, c': Cell, i: nat)
    requires Run(c, steps, c') && i < |c'.leases| && Unrenewed(c'.leases[i])
    requires i < |c.leases| ==> !Unrenewed(c.leases[i])
    ensures exists s :: s in steps && PastDeadline(c'.leases[i], i, s)
    decreases |steps|
  {
    var now, e := steps[0].now, steps[0].event;
    var next := Apply(now, c, e);
    FrameStep(now, c, e);
    if About(e, i) {
      LapseStep(c.leases[i], e, Locked(now, c, c.leases[i].token), now);
    }
    if e == RenewalLoop(i, true) {
      SinceStays(c, steps, c', i);
      assert steps[0] in steps && PastDeadline(c'.leases[i], i, steps[0]);
    } else {
      LapseRun(next, steps[1..], c', i);
      var s :| s in steps[1..] && PastDeadline(c'.leases[i], i, s);
      assert s in steps;
    }
  }

  /** The only cause: in every run, a callback runs without renewals and without knowing it only after a
      loop test of its renewal task found the deadline passed, 21 days after the receive. Module
      LockRenewal says that this happens even if every renewal succeeds (`HealthyLockLapses`). */
  lemma LapsesOnlyAtDeadline(content: Document, steps: seq<Step>, c: Cell, i: nat)
    requires Run(Pushed(content), steps, c) && i < |c.leases| && Unrenewed(c.leases[i])
    ensures exists s :: s in steps && PastDeadline(c.leases[i], i, s)
  {
    LapseRun(Pushed(content), steps, c, i);
  }

  /** A first execution runs since time 0 and holds the lock at `now`. */
  ghost predicate Holding(c: Cell, half: nat, now: nat) {
    && |c.leases| == 1
    && var l := c.leases[0];
       && l.pc.Executing? && l.renewal.Asleep? && !l.stop && !l.lockLost
       && l.since == 0 && l.duration == 2 * half
       && Locked(now, c, l.token) && c.entry.value.lockedUntil <= now + 2 * half
       && Deserialize(c.entry.value.content).Some?
  }

  /** In time order from `from` on, every step finds the lock held. */
  ghost predicate HeldThroughout(c: Cell, from: nat, steps: seq<Step>, token: nat)
    decreases |steps|
  {
    steps != [] ==>
      && from <= steps[0].now && Locked(steps[0].now, c, token)
      && Enabled(steps[0].now, c, steps[0].event)
      && HeldThroughout(Apply(steps[0].now, c, steps[0].event), steps[0].now, steps[1..], token)
  }

  lemma RenewalHolds(c: Cell, half: nat, now: nat)
    requires half > 0 && Holding(c, half, now)
    ensures Enabled(now, c, RenewalLoop(0, false))
    ensures var c1 := Apply(now, c, RenewalLoop(0, false));
            && Locked(now, c1, c.leases[0].token) && Enabled(now, c1, RenewalDecided(0))
            && var c2 := Apply(now, c1, RenewalDecided(0));
               Holding(c2, half, now + half) && c2.leases[0].token == c.leases[0].token
  {
  }

  lemma PrependHeld(now: nat, c: Cell, e: Event, later: nat, rest: seq<Step>, c': Cell, token: nat)
    requires Enabled(now, c, e) && Locked(now, c, token) && now <= later
    requires Run(Apply(now, c, e), rest, c') && HeldThroughout(Apply(now, c, e), later, rest, token)
    ensures Run(c, [Step(now, e)] + rest, c') && HeldThroughout(c, now, [Step(now, e)] + rest, token)
  {
    assert ([Step(now, e)] + rest)[1..] == rest;
  }

  /** Renewing every `half` of the lock duration, as the source does, holds the lock without a gap. */
  lemma {:induction false} RenewalsHold(c: Cell, half: nat, now: nat, beats: nat) returns (steps: seq<Step>, c': Cell)
    requires half > 0 && Holding(c, half, now)
    ensures Run(c, steps, c') && HeldThroughout(c, now, steps, c.leases[0].token)
    ensures Holding(c', half, now + beats * half)
    decreases beats
  {
    if beats == 0 {
      return [], c;
    }
    RenewalHolds(c, half, now);
    var e1, e2 := RenewalLoop(0, false), RenewalDecided(0);
    var c1 := Apply(now, c, e1);
    var c2 := Apply(now, c1, e2);
    assert now + half + (beats - 1) * half == now + beats * half;
    steps, c' := RenewalsHold(c2, half, now + half, beats - 1);
    PrependHeld(now, c1, e2, now + half, steps, c', c.leases[0].token);
    PrependHeld(now, c, e1, now, [Step(now, e2)] + steps, c', c.leases[0].token);
    steps := [Step(now, e1)] + ([Step(now, e2)] + steps);
  }

  /** Received at time 0, held by accepted renewals up to `end`, and then received by another worker while
      the first callback runs on and does not know. */
  ghost predicate LapsedUnnoticed(content: Document, half: nat, end: nat, renewals: seq<Step>) {
    exists a, b, c ::
      && Run(Pushed(content), [Step(0, Receive(2 * half, true))], a)
      && Run(a, renewals, b) && HeldThroughout(a, 0, renewals, 1)
      && Run(b, [Step(end, RenewalLoop(0, true))] + [Step(end + 2 * half, Receive(2 * half, true))], c)
      && |c.leases| == 2 && Unrenewed(c.leases[0]) && c.leases[1].pc.Executing?
  }

  /** And it happens, although every renewal is accepted: as soon as the beats last for 21 days. */
  lemma RunsWithoutLock(content: Document, half: nat, beats: nat) returns (renewals: seq<Step>)
    requires Deserialize(content).Some? && half > 0 && beats * half >= 21 * 24 * 3600
    ensures LapsedUnnoticed(content, half, beats * half, renewals)
  {
    var a := FirstReceive(content, half);
    var b: Cell;
    renewals, b := RenewalsHold(a, half, 0, beats);
    var c := Lapse(b, half, beats * half);
  }

  lemma FirstReceive(content: Document, half: nat) returns (a: Cell)
    requires Deserialize(content).Some? && half > 0
    ensures Run(Pushed(content), [Step(0, Receive(2 * half, true))], a)
    ensures Holding(a, half, 0) && a.leases[0].token == 1
  {
    var e := Receive(2 * half, true);
    a := Apply(0, Pushed(content), e);
    Prepend(0, Pushed(content), e, [], a);
    assert [Step(0, e)] + [] == [Step(0, e)];
  }

  lemma Lapse(b: Cell, half: nat, end: nat) returns (c: Cell)
    requires half > 0 && Holding(b, half, end) && end >= LIFETIME
    ensures Run(b, [Step(end, RenewalLoop(0, true))] + [Step(end + 2 * half, Receive(2 * half, true))], c)
    ensures |c.leases| == 2 && Unrenewed(c.leases[0]) && c.leases[1].pc.Executing?
  {
    var e1, e2 := RenewalLoop(0, true), Receive(2 * half, true);
    var b1 := Apply(end, b, e1);
    c := Apply(end + 2 * half, b1, e2);
    Prepend(end + 2 * half, b1, e2, [], c);
    assert [Step(end + 2 * half, e2)] + [] == [Step(end + 2 * half, e2)];
    Prepend(end, b, e1, [Step(end + 2 * half, e2)], c);
  }

  lemma Prepend(now: nat, c: Cell, e: Event, rest: seq<Step>, c': Cell)
    requires Enabled(now, c, e) && Run(Apply(now, c, e), rest, c')
    ensures Run(c, [Step(now, e)] + rest, c')
  {
    assert ([Step(now, e)] + rest)[1..] == rest;
  }

  // ---- the documented results ----

  /** Whether anything is asked of the broker. */
  predicate Settles(l: Lease)
    requires l.pc.Stopping?
  {
    l.pc.outcome.Canceled?
    || (!l.pc.sawLost && !l.task.replyRequested && (l.pc.outcome.Succeeded? || l.task.numRetries <= 0))
  }

  function RequestFor(outcome: Outcome): Request {
    match outcome
    case Canceled => Unlock
    case Succeeded => Complete
    case Failed => DeadLetter
  }

  /** How `pull_and_execute` is documented to end. */
  function DocumentedExit(l: Lease): Exit
    requires l.pc.Stopping?
  {
    if l.pc.outcome.Canceled? then RaisedWorkerCanceled
    else if l.pc.sawLost then RaisedLockLost
    else if l.pc.outcome.Succeeded? then ReturnedTrue
    else if l.task.numRetries <= 0 && l.task.replyRequested then RaisedError
    else ReturnedFalse
  }

  /** Lease `l` has come from `from`, where the outcome of its callback was known. */
  ghost predicate OnItsWay(from: Lease, l: Lease)
    requires from.pc.Stopping?
  {
    && l.task == from.task && l.token == from.token
    && match l.pc
       case Stopping(outcome, sawLost) => l.pc == from.pc
       case Settling(outcome, req) =>
         Settles(from) && outcome == from.pc.outcome && req == RequestFor(outcome)
       case Settled(outcome) => Settles(from) && outcome == from.pc.outcome
       case Leaving(how) => how == DocumentedExit(from) || how == Aborted
       case Exited(how) => how == DocumentedExit(from) || how == Aborted || how == Crashed
       case Executing => false
  }

  lemma OnItsWayStep(from: Lease, l: Lease, e: Event, held: bool, now: nat)
    requires from.pc.Stopping? && OnItsWay(from, l) && OfLease(e) && Possible(l, e)
    ensures OnItsWay(from, LeaseAfter(l, e, held, now))
  {
  }

  lemma {:induction false} OnItsWayRun(from: Lease, c: Cell, steps: seq<Step>, c': Cell, i: nat)
    requires from.pc.Stopping? && Run(c, steps, c') && i < |c.leases| && OnItsWay(from, c.leases[i])
    ensures i < |c'.leases| && OnItsWay(from, c'.leases[i])
    decreases |steps|
  {
    if steps != [] {
      var now, e := steps[0].now, steps[0].event;
      FrameStep(now, c, e);
      if About(e, i) {
        OnItsWayStep(from, c.leases[i], e, Locked(now, c, c.leases[i].token), now);
      }
      OnItsWayRun(from, Apply(now, c, e), steps[1..], c', i);
    }
  }

  /** Nothing of execution `i` fails or is cut short. */
  ghost predicate Smooth(steps: seq<Step>, i: nat) {
    forall s :: s in steps ==>
      !(About(s.event, i) && (s.event.SettlementFailed? || s.event.Abort? || s.event.Crash?))
  }

  /** Ended by something else than the code of `pull_and_execute`. */
  predicate CutShort(l: Lease) {
    (l.pc.Leaving? || l.pc.Exited?) && (l.pc.how == Aborted || l.pc.how == Crashed)
  }

  lemma {:induction false} NotCutShort(from: Lease, c: Cell, steps: seq<Step>, c': Cell, i: nat)
    requires from.pc.Stopping? && Run(c, steps, c') && Smooth(steps, i)
    requires i < |c.leases| && OnItsWay(from, c.leases[i]) && !CutShort(c.leases[i])
    ensures i < |c'.leases| && OnItsWay(from, c'.leases[i]) && !CutShort(c'.leases[i])
    decreases |steps|
  {
    if steps != [] {
      var now, e := steps[0].now, steps[0].event;
      assert steps[0] in steps && forall s :: s in steps[1..] ==> s in steps;
      FrameStep(now, c, e);
      if About(e, i) {
        OnItsWayStep(from, c.leases[i], e, Locked(now, c, c.leases[i].token), now);
        StillNotCutShort(from, c.leases[i], e, Locked(now, c, c.leases[i].token), now);
      }
      NotCutShort(from, Apply(now, c, e), steps[1..], c', i);
    }
  }

  lemma StillNotCutShort(from: Lease, l: Lease, e: Event, held: bool, now: nat)
    requires from.pc.Stopping? && OnItsWay(from, l) && !CutShort(l)
    requires OfLease(e) && Possible(l, e) && !e.Abort? && !e.Crash?
    ensures !CutShort(LeaseAfter(l, e, held, now))
  {
  }

  /** Whenever the broker decides about a settlement of `i`, its lock is held. */
  ghost predicate DecidedWhileLocked(c: Cell, steps: seq<Step>, i: nat)
    decreases |steps|
  {
    steps != [] ==>
      && Enabled(steps[0].now, c, steps[0].event)
      && (steps[0].event == SettlementDecided(i) ==> Locked(steps[0].now, c, c.leases[i].token))
      && DecidedWhileLocked(Apply(steps[0].now, c, steps[0].event), steps[1..], i)
  }

  /** What the broker has done for `from` by the time of `c'`, or did at some moment of the run. */
  ghost predicate Served(from: Lease, c: Cell, steps: seq<Step>, c': Cell, i: nat)
    requires from.pc.Stopping?
  {
    match from.pc.outcome
    case Succeeded => c'.entry.None? && c'.completed == 1
    case Failed => c'.entry.None? && c'.dead == [c'.pushed]
    case Canceled => Released(c, steps, i)
  }

  /** At some moment a settlement of `i` made the message visible at once. */
  ghost predicate Released(c: Cell, steps: seq<Step>, i: nat)
    decreases |steps|
  {
    steps != [] && Enabled(steps[0].now, c, steps[0].event) &&
    var next := Apply(steps[0].now, c, steps[0].event);
    || (steps[0].event == SettlementDecided(i) && c.entry.Some?
        && next.entry == Some(c.entry.value.(lockedUntil := steps[0].now)))
    || Released(next, steps[1..], i)
  }

  lemma {:induction false} GoneForGood(c: Cell, steps: seq<Step>, c': Cell)
    requires Run(c, steps, c')
    ensures c.completed <= c'.completed && |c.dead| <= |c'.dead|
    decreases |steps|
  {
    if steps != [] {
      GoneForGood(Apply(steps[0].now, c, steps[0].event), steps[1..], c');
    }
  }

  lemma DecisionServes(from: Lease, now: nat, c: Cell, rest: seq<Step>, c': Cell, i: nat)
    requires Inv(c) && i < |c.leases| && c.leases[i].pc.Settling?
    requires from.pc.Stopping? && OnItsWay(from, c.leases[i]) && Locked(now, c, c.leases[i].token)
    requires Run(Apply(now, c, SettlementDecided(i)), rest, c')
    ensures Served(from, c, [Step(now, SettlementDecided(i))] + rest, c', i)
  {
    var e := SettlementDecided(i);
    assert ([Step(now, e)] + rest)[1..] == rest;
    InvStep(now, c, e);
    InvRun(Apply(now, c, e), rest, c');
    GoneForGood(Apply(now, c, e), rest, c');
  }

  /** A settlement that is due reaches the broker before the execution ends. */
  lemma {:induction false} ServedBeforeExit(from: Lease, c: Cell, steps: seq<Step>, c': Cell, i: nat)
    requires Inv(c) && Run(c, steps, c') && Smooth(steps, i) && DecidedWhileLocked(c, steps, i)
    requires from.pc.Stopping? && Settles(from) && i < |c.leases| && OnItsWay(from, c.leases[i])
    requires c.leases[i].pc.Stopping? || c.leases[i].pc.Settling?
    requires i < |c'.leases| && c'.leases[i].pc.Exited?
    ensures Served(from, c, steps, c', i)
    decreases |steps|
  {
    var now, e, rest := steps[0].now, steps[0].event, steps[1..];
    var next := Apply(now, c, e);
    if e == SettlementDecided(i) {
      DecisionServes(from, now, c, rest, c', i);
      assert [Step(now, e)] + rest == steps;
    } else {
      InvStep(now, c, e);
      OnItsWayRun(from, c, [steps[0]], next, i);
      NotPastSettling(from, now, c, e, i, steps);
      ServedBeforeExit(from, next, rest, c', i);
    }
  }

  lemma NotPastSettling(from: Lease, now: nat, c: Cell, e: Event, i: nat, steps: seq<Step>)
    requires Enabled(now, c, e) && Step(now, e) in steps && Smooth(steps, i) && e != SettlementDecided(i)
    requires from.pc.Stopping? && Settles(from) && i < |c.leases| && OnItsWay(from, c.leases[i])
    requires c.leases[i].pc.Stopping? || c.leases[i].pc.Settling?
    ensures var next := Apply(now, c, e);
            i < |next.leases| && (next.leases[i].pc.Stopping? || next.leases[i].pc.Settling?)
    ensures forall s :: s in steps[1..] ==> s in steps
  {
    assert !(About(Step(now, e).event, i) && (e.SettlementFailed? || e.Abort? || e.Crash?));
    FrameStep(now, c, e);
  }

  /** No settlement of `i` is decided in the run. */
  ghost predicate Undecided(steps: seq<Step>, i: nat) {
    forall s :: s in steps ==> s.event != SettlementDecided(i)
  }

  lemma {:induction false} NotServedUnasked(from: Lease, c: Cell, steps: seq<Step>, c': Cell, i: nat)
    requires from.pc.Stopping? && !Settles(from) && Run(c, steps, c')
    requires i < |c.leases| && OnItsWay(from, c.leases[i])
    ensures Undecided(steps, i)
    decreases |steps|
  {
    if steps != [] {
      var next := Apply(steps[0].now, c, steps[0].event);
      OnItsWayRun(from, c, [steps[0]], next, i);
      NotServedUnasked(from, next, steps[1..], c', i);
      forall s | s in steps ensures s.event != SettlementDecided(i) {
        assert s == steps[0] || s in steps[1..];
      }
    }
  }

  /** From the moment the outcome of the callback is known, whatever others do in between: an execution
      none of whose requests fails and whose settlement is decided while its lock is held ends as
      documented. Success completes the message; failure dead-letters it without retries; cancellation
      makes it visible at once; a lost lock, an owed reply or retries left ask nothing of the broker. */
  lemma SettlesAsDocumented(content: Document, before: seq<Step>, c: Cell, steps: seq<Step>, c': Cell, i: nat)
    requires Run(Pushed(content), before, c) && i < |c.leases| && c.leases[i].pc.Stopping?
    requires Run(c, steps, c') && Smooth(steps, i) && DecidedWhileLocked(c, steps, i)
    requires i < |c'.leases| && c'.leases[i].pc.Exited?
    ensures c'.leases[i].pc.how == DocumentedExit(c.leases[i])
    ensures if Settles(c.leases[i]) then Served(c.leases[i], c, steps, c', i) else Undecided(steps, i)
  {
    Reachable(content, before, c);
    NotCutShort(c.leases[i], c, steps, c', i);
    if Settles(c.leases[i]) {
      ServedBeforeExit(c.leases[i], c, steps, c', i);
    } else {
      NotServedUnasked(c.leases[i], c, steps, c', i);
    }
  }

  /** The documentation of `pull_and_execute`, by the way the callback of `l` ends: `how` is its result,
      and `steps` lead from there to `c'`. */
  ghost predicate DocumentedEnd(l: Lease, e: Event, how: Exit, c: Cell, steps: seq<Step>, c': Cell, i: nat) {
    match e
    case CallbackCanceled(_) => how == RaisedWorkerCanceled && Released(c, steps, i)
    case LockLossNoticed(_) => how == RaisedLockLost && Undecided(steps, i)
    case CallbackReturned(_) =>
      if l.lockLost then how == RaisedLockLost && Undecided(steps, i)
      else how == ReturnedTrue
           && if l.task.replyRequested then Undecided(steps, i) else c'.entry.None? && c'.completed == 1
    case CallbackRaised(_) =>
      if l.lockLost then how == RaisedLockLost && Undecided(steps, i)
      else if l.task.numRetries > 0 then how == ReturnedFalse && Undecided(steps, i)
      else if l.task.replyRequested then how == RaisedError && Undecided(steps, i)
      else how == ReturnedFalse && c'.entry.None? && c'.dead == [c'.pushed]
    case _ => false
  }

  /** The same by name, from the moment the callback ends. */
  lemma EndsAsDocumented(content: Document, before: seq<Step>, c: Cell, now: nat, e: Event, steps: seq<Step>,
          c': Cell, i: nat)
    requires Run(Pushed(content), before, c) && i < |c.leases| && c.leases[i].pc.Executing?
    requires Enabled(now, c, e) && About(e, i) && Apply(now, c, e).leases[i].pc.Stopping?
    requires Run(Apply(now, c, e), steps, c') && Smooth(steps, i) && DecidedWhileLocked(Apply(now, c, e), steps, i)
    requires i < |c'.leases| && c'.leases[i].pc.Exited?
    ensures DocumentedEnd(c.leases[i], e, c'.leases[i].pc.how, Apply(now, c, e), steps, c', i)
  {
    RunSnoc(Pushed(content), before, c, now, e);
    SettlesAsDocumented(content, before + [Step(now, e)], Apply(now, c, e), steps, c', i);
  }

  lemma {:induction false} RunSnoc(c: Cell, steps: seq<Step>, mid: Cell, now: nat, e: Event)
    requires Run(c, steps, mid) && Enabled(now, mid, e)
    ensures Run(c, steps + [Step(now, e)], Apply(now, mid, e))
    decreases |steps|
  {
    if steps == [] {
      assert [Step(now, e)][1..] == [];
    } else {
      RunSnoc(Apply(steps[0].now, c, steps[0].event), steps[1..], mid, now, e);
      assert (steps + [Step(now, e)])[1..] == steps[1..] + [Step(now, e)];
    }
  }

  /** A run to the exit of `i` to which `SettlesAsDocumented` applies. */
  ghost predicate SmoothRun(c: Cell, steps: seq<Step>, c': Cell, i: nat) {
    && Run(c, steps, c') && Smooth(steps, i) && DecidedWhileLocked(c, steps, i)
    && i < |c'.leases| && c'.leases[i].pc.Exited?
  }

  lemma PrependSmooth(now: nat, c: Cell, e: Event, rest: seq<Step>, c': Cell, i: nat)
    requires Enabled(now, c, e) && SmoothRun(Apply(now, c, e), rest, c', i)
    requires !e.SettlementFailed? && !e.Abort? && !e.Crash?
    requires e == SettlementDecided(i) ==> Locked(now, c, c.leases[i].token)
    ensures SmoothRun(c, [Step(now, e)] + rest, c', i)
  {
    assert ([Step(now, e)] + rest)[1..] == rest;
    forall s | s in [Step(now, e)] + rest ensures s.event == e || s in rest {
    }
  }

  lemma SmoothLeaving(now: nat, c: Cell, i: nat) returns (steps: seq<Step>, c': Cell)
    requires i < |c.leases| && c.leases[i].pc.Leaving? && Over(c.leases[i].renewal)
    ensures SmoothRun(c, steps, c', i)
  {
    c' := Apply(now, c, CleanedUp(i));
    assert SmoothRun(c', [], c', i);
    PrependSmooth(now, c, CleanedUp(i), [], c', i);
    steps := [Step(now, CleanedUp(i))] + [];
  }

  lemma SmoothSettling(now: nat, c: Cell, i: nat) returns (steps: seq<Step>, c': Cell)
    requires i < |c.leases| && c.leases[i].pc.Settling? && Over(c.leases[i].renewal)
    requires Locked(now, c, c.leases[i].token)
    ensures SmoothRun(c, steps, c', i)
  {
    var c1 := Apply(now, c, SettlementDecided(i));
    var c2 := Apply(now, c1, SettlementReplied(i));
    steps, c' := SmoothLeaving(now, c2, i);
    PrependSmooth(now, c1, SettlementReplied(i), steps, c', i);
    steps := [Step(now, SettlementReplied(i))] + steps;
    PrependSmooth(now, c, SettlementDecided(i), steps, c', i);
    steps := [Step(now, SettlementDecided(i))] + steps;
  }

  /** How far a renewal task is from its end once it was asked to stop. */
  function Rank(r: Renewal): nat {
    match r
    case Renewing => 2
    case Asleep => 1
    case _ => 0
  }

  /** Then every step of it brings the end closer: `cancel_heartbeat` returns. */
  lemma RenewalEnds(l: Lease, e: Event, held: bool, now: nat)
    requires OfRenewal(e) && Possible(l, e) && l.stop
    ensures Rank(LeaseAfter(l, e, held, now).renewal) < Rank(l.renewal)
  {
  }

  lemma SmoothFromStop(now: nat, c: Cell, i: nat) returns (steps: seq<Step>, c': Cell)
    requires i < |c.leases| && c.leases[i].pc.Stopping? && Over(c.leases[i].renewal)
    requires Locked(now, c, c.leases[i].token)
    ensures SmoothRun(c, steps, c', i)
  {
    var next := Apply(now, c, RenewalStopped(i));
    if next.leases[i].pc.Settling? {
      steps, c' := SmoothSettling(now, next, i);
    } else {
      steps, c' := SmoothLeaving(now, next, i);
    }
    PrependSmooth(now, c, RenewalStopped(i), steps, c', i);
    steps := [Step(now, RenewalStopped(i))] + steps;
  }

  /** There is such a run: while the lock is held nothing keeps an execution from it. */
  lemma CanSettle(now: nat, c: Cell, i: nat) returns (steps: seq<Step>, c': Cell)
    requires i < |c.leases| && c.leases[i].pc.Stopping? && c.leases[i].stop
    requires Locked(now, c, c.leases[i].token)
    ensures SmoothRun(c, steps, c', i)
    decreases Rank(c.leases[i].renewal)
  {
    if Over(c.leases[i].renewal) {
      steps, c' := SmoothFromStop(now, c, i);
    } else {
      var e := if c.leases[i].renewal.Asleep? then RenewalLoop(i, false) else RenewalFailed(i, false, false);
      RenewalEnds(c.leases[i], e, true, now);
      steps, c' := CanSettle(now, Apply(now, c, e), i);
      PrependSmooth(now, c, e, steps, c', i);
      steps := [Step(now, e)] + steps;
    }
  }

  /** The way an execution ends does not depend on the broker: in every run from the moment its outcome
      is known it ends as documented, or by a `CancelledError`, or with its process. */
  lemma ExitsAsDocumented(c: Cell, steps: seq<Step>, c': Cell, i: nat)
    requires i < |c.leases| && c.leases[i].pc.Stopping? && Run(c, steps, c')
    ensures i < |c'.leases|
    ensures c'.leases[i].pc.Exited? ==>
              c'.leases[i].pc.how in {DocumentedExit(c.leases[i]), Aborted, Crashed}
  {
    OnItsWayRun(c.leases[i], c, steps, c', i);
  }
}
