/** The lock-renewal task of the Service Bus backend in real time
    (ai4s/jobq/backend/servicebus_rest.py, `_parse_lock_duration` and `_renew_loop`).

    Scheduling is instantaneous and a request takes no longer than its timeout;
    which replies arrive, how long they take and when the stop event is set is arbitrary.
    The log of the requests determines everything else: the alarms, the end of the loop
    and whether another request follows are functions of it. */
module LockRenewal {
  import opened Basics

  function MaxReal(a: real, b: real): (r: real)
    ensures r >= a && r >= b && (r == a || r == b)
  {
    if a >= b then a else b
  }

  /** `remaining`: seconds until `LockedUntilUtc`, or `None` when that is absent or malformed. */
  function ParseLockDuration(remaining: Option<real>): (d: real)
    ensures d >= 10.0
    ensures remaining.Some? ==> d >= remaining.value && (d == remaining.value || d == 10.0)
    ensures remaining.None? ==> d == 30.0
  {
    match remaining
    case Some(seconds) => MaxReal(seconds, 10.0)
    case None => 30.0
  }

  function Interval(d: real): real {
    MaxReal(d / 2.0, 5.0)
  }

  function Timeout(d: real): real {
    MaxReal(d / 3.0, 5.0)
  }

  /** Longest time from the last successful renewal to the lost event when all renewals fail: the lock duration,
      half of it for an interval, three timeouts of a third of it but no less than 5 s, and 3 s of pauses. */
  function DetectionBound(d: real): real {
    MaxReal(2.5 * d, 1.5 * d + 15.0) + 3.0
  }

  /** How a renewal request ends; a success reports an expiry that the loop ignores. */
  datatype Reply = Renewed(newExpiry: real) | NotFound | HttpError | OtherError | Interrupted

  datatype Attempt = Attempt(duration: real, reply: Reply)

  /** One request; `retry` is its number within the cycle. */
  datatype Record = Record(begin: real, end: real, reply: Reply, retry: nat)

  datatype Cause = Gone | Expired

  /** One call of `lock_lost_event.set()`; `since` is the last success before it. */
  datatype Alarm = Alarm(time: real, cause: Cause, since: real)

  datatype Ending = StopSeen | LockGone | TaskInterrupted | DeadlineReached

  datatype Outcome = Outcome(time: real, ending: Ending)

  /** Start and deadline of the loop, the lock duration, when the stop event is set, and how the `k`-th
      request ends. */
  datatype Setting = Setting(start: real, deadline: real, d: real, stopAt: Option<real>, env: nat -> Attempt) {
    predicate StopSet(t: real) {
      stopAt.Some? && stopAt.value <= t
    }

    ghost predicate Fair() {
      d >= 10.0 && forall k :: 0.0 <= env(k).duration <= MaxReal(d / 3.0, 5.0)
    }
  }

  // ---- what the log says ----

  predicate Fails(r: Reply) {
    r.HttpError? || r.OtherError?
  }

  /** The last success: the end of the last successful renewal, or the start of the task. */
  function Since(s: Setting, log: seq<Record>): real {
    if log == [] then s.start
    else if log[|log| - 1].reply.Renewed? then log[|log| - 1].end
    else Since(s, log[..|log| - 1])
  }

  /** The loop test follows: after a success, or when the third attempt failed and nobody stopped the loop. */
  predicate EndsCycle(s: Setting, r: Record) {
    r.reply.Renewed? || (Fails(r.reply) && r.retry >= 2 && !s.StopSet(r.end))
  }

  /** The time of the last loop test. */
  function TestTime(s: Setting, log: seq<Record>): real {
    if log == [] then s.start
    else if EndsCycle(s, log[|log| - 1]) then log[|log| - 1].end
    else TestTime(s, log[..|log| - 1])
  }

  /** Complete cycles without a success since the last one. */
  function FailedCycles(s: Setting, log: seq<Record>): nat {
    if log == [] || log[|log| - 1].reply.Renewed? then 0
    else FailedCycles(s, log[..|log| - 1]) + if EndsCycle(s, log[|log| - 1]) then 1 else 0
  }

  /** Pause after failed attempt `retry`: `asyncio.sleep(min(2**retry, 5))`, none after the last. */
  function Pause(retry: nat): real {
    if retry == 0 then 1.0 else if retry == 1 then 2.0 else 0.0
  }

  /** The last request failed and the cycle has attempts left. */
  predicate MidCycle(log: seq<Record>) {
    log != [] && Fails(log[|log| - 1].reply) && log[|log| - 1].retry < 2
  }

  /** Where the loop stands after the requests of `log`. */
  function Now(s: Setting, log: seq<Record>): real {
    if log == [] then s.start else log[|log| - 1].end
  }

  /** When the next request is due: after the pause, or an interval after the loop test. */
  function Due(s: Setting, log: seq<Record>): real {
    Now(s, log) + if MidCycle(log) then Pause(log[|log| - 1].retry) else Interval(s.d)
  }

  /** Whether it is sent: not after a 404 or a cancellation, not once the stop event is seen, and no new
      cycle begins at or after the deadline. */
  predicate Continues(s: Setting, log: seq<Record>) {
    if MidCycle(log) then !s.StopSet(Now(s, log))
    else
      && (log == [] || (!log[|log| - 1].reply.NotFound? && !log[|log| - 1].reply.Interrupted?))
      && Now(s, log) < s.deadline && !s.StopSet(Due(s, log))
  }

  function Next(s: Setting, log: seq<Record>): Record {
    var a := s.env(|log|);
    Record(Due(s, log), Due(s, log) + a.duration, a.reply, if MidCycle(log) then log[|log| - 1].retry + 1 else 0)
  }

  /** `log` is what the loop has sent at some time: the environment determines every request. */
  predicate Scheduled(s: Setting, log: seq<Record>) {
    log != [] ==>
      var init := log[..|log| - 1];
      Scheduled(s, init) && Continues(s, init) && log[|log| - 1] == Next(s, init)
  }

  /** No alarm was raised for the success at `since`. */
  predicate NoAlarm(alarms: seq<Alarm>, since: real) {
    forall a :: a in alarms ==> a.since != since
  }

  /** All calls of `lock_lost_event.set()`: at a 404, and at the first end of a failed cycle more than the
      lock duration after the last success; never once the stop event is set. */
  function AlarmsOf(s: Setting, log: seq<Record>): seq<Alarm> {
    if log == [] then []
    else
      var init, r := log[..|log| - 1], log[|log| - 1];
      var prior, since := AlarmsOf(s, init), Since(s, init);
      if s.StopSet(r.end) then prior
      else if r.reply.NotFound? then prior + [Alarm(r.end, Gone, since)]
      else if EndsCycle(s, r) && !r.reply.Renewed? && r.end - since > s.d && NoAlarm(prior, since) then
        prior + [Alarm(r.end, Expired, since)]
      else prior
  }

  /** How and when the loop ends if no request follows. */
  function OutcomeOf(s: Setting, log: seq<Record>): Outcome {
    var now := Now(s, log);
    if log != [] && log[|log| - 1].reply.NotFound? then Outcome(now, LockGone)
    else if log != [] && log[|log| - 1].reply.Interrupted? then Outcome(now, TaskInterrupted)
    else if s.StopSet(now) then Outcome(now, StopSeen)
    else if now >= s.deadline then Outcome(now, DeadlineReached)
    else Outcome(if s.stopAt.Some? then s.stopAt.value else now, StopSeen)
  }

  // ---- the code ----

  /** The local variables of `_renew_loop`. */
  datatype Locals = Locals(now: real, lastSuccess: real, lockLostLogged: bool)

  /** What the locals mean. */
  ghost predicate Matches(s: Setting, v: Locals, log: seq<Record>, alarms: seq<Alarm>) {
    && Scheduled(s, log)
    && v.lastSuccess == Since(s, log)
    && alarms == AlarmsOf(s, log)
    && (v.lockLostLogged <==> !NoAlarm(alarms, v.lastSuccess))
  }

  /** The loop test is next. */
  ghost predicate AtTest(s: Setting, v: Locals, log: seq<Record>, alarms: seq<Alarm>) {
    Matches(s, v, log, alarms) && v.now == Now(s, log) && (log != [] ==> EndsCycle(s, log[|log| - 1]))
  }

  /** Alarms are about successes before them, and before the last request ended. */
  lemma {:induction false} AlarmTimes(s: Setting, log: seq<Record>)
    requires s.Fair() && Scheduled(s, log)
    ensures s.start <= Since(s, log) <= Now(s, log)
    ensures forall a :: a in AlarmsOf(s, log) ==> a.since <= a.time <= Now(s, log)
    decreases |log|
  {
    if log != [] {
      AlarmTimes(s, log[..|log| - 1]);
    }
  }

  lemma ExtendSchedule(s: Setting, log: seq<Record>)
    requires Scheduled(s, log) && Continues(s, log)
    ensures var longer := log + [Next(s, log)];
            && longer[..|log|] == log && longer[|log|] == Next(s, log)
            && Scheduled(s, longer)
  {
    assert (log + [Next(s, log)])[..|log|] == log;
  }

  /** What attempt number `retry` of the cycle begun at `v` needs. */
  ghost predicate Ready(s: Setting, v: Locals, retry: nat, log: seq<Record>, alarms: seq<Alarm>) {
    && Matches(s, v, log, alarms) && Continues(s, log)
    && v.now == Due(s, log) && Next(s, log).retry == retry < 3
  }

  /** The loop is over. */
  ghost predicate Complete(s: Setting, log: seq<Record>, alarms: seq<Alarm>, out: Outcome) {
    && Scheduled(s, log) && !Continues(s, log)
    && alarms == AlarmsOf(s, log) && out == OutcomeOf(s, log)
  }

  datatype Verdict = Retry | CycleOver | Over(ending: Ending)

  /** What follows attempt `retry`: the next one, the loop test, or the end. */
  ghost predicate Follows(s: Setting, v: Locals, retry: nat, log: seq<Record>, alarms: seq<Alarm>, verdict: Verdict) {
    match verdict
    case Retry => Ready(s, v, retry + 1, log, alarms)
    case CycleOver => AtTest(s, v, log, alarms)
    case Over(ending) => Complete(s, log, alarms, Outcome(v.now, ending))
  }

  /** One attempt and what follows it up to the next attempt, the next loop test or the end. */
  method TryRenewal(s: Setting, u: Locals, retry: nat, log0: seq<Record>, alarms0: seq<Alarm>)
    returns (v: Locals, log: seq<Record>, alarms: seq<Alarm>, verdict: Verdict)
    requires s.Fair() && Ready(s, u, retry, log0, alarms0)
    ensures log == log0 + [Next(s, log0)] && Follows(s, v, retry, log, alarms, verdict)
  {
    AlarmTimes(s, log0);
    ExtendSchedule(s, log0);
    var a := s.env(|log0|);
    v, alarms := u.(now := u.now + a.duration), alarms0;
    log := log0 + [Record(u.now, v.now, a.reply, retry)];
    match a.reply {
      case Renewed(_) =>
        v := v.(lastSuccess := v.now, lockLostLogged := false);
        verdict := CycleOver;
      case Interrupted =>
        verdict := Over(TaskInterrupted);
      case NotFound =>
        if !s.StopSet(v.now) {
          alarms := alarms + [Alarm(v.now, Gone, v.lastSuccess)];
        }
        verdict := Over(LockGone);
      case _ =>
        if s.StopSet(v.now) {
          verdict := Over(StopSeen);
        } else if retry < 2 {
          v := v.(now := v.now + Pause(retry));
          verdict := Retry;
        } else {
          v, alarms := EndFailedCycle(s, v, log0, alarms0);
          verdict := CycleOver;
        }
    }
  }

  /** The code after the retry loop when the last request failed as well. */
  method EndFailedCycle(s: Setting, u: Locals, ghost log0: seq<Record>, alarms0: seq<Alarm>)
    returns (v: Locals, alarms: seq<Alarm>)
    requires s.Fair() && Matches(s, u, log0, alarms0) && Continues(s, log0)
    requires var r := Next(s, log0); Fails(r.reply) && r.retry == 2 && u.now == r.end && !s.StopSet(r.end)
    ensures AtTest(s, v, log0 + [Next(s, log0)], alarms)
  {
    ExtendSchedule(s, log0);
    v, alarms := u, alarms0;
    if v.now - v.lastSuccess > s.d && !v.lockLostLogged {
      var alarm := Alarm(v.now, Expired, v.lastSuccess);
      v := v.(lockLostLogged := true);
      alarms := alarms + [alarm];
      assert alarm in alarms;
    }
  }

  /** The requests of one cycle, entered `Interval(d)` after the loop test. */
  method Cycle(s: Setting, u: Locals, log0: seq<Record>, alarms0: seq<Alarm>)
    returns (v: Locals, log: seq<Record>, alarms: seq<Alarm>, ending: Option<Ending>)
    requires s.Fair() && AtTest(s, u, log0, alarms0) && Continues(s, log0)
    ensures v.now >= u.now + Interval(s.d)
    ensures Follows(s, v, 3, log, alarms, if ending.None? then CycleOver else Over(ending.value))
  {
    v, log, alarms := u.(now := u.now + Interval(s.d)), log0, alarms0;
    for retry := 0 to 3
      invariant retry < 3 && Ready(s, v, retry, log, alarms)
      invariant v.now >= u.now + Interval(s.d)
    {
      var verdict: Verdict;
      ghost var before := log;
      v, log, alarms, verdict := TryRenewal(s, v, retry, log, alarms);
      ExtendSchedule(s, before);
      match verdict {
        case Retry =>
        case CycleOver => return v, log, alarms, None;
        case Over(how) => return v, log, alarms, Some(how);
      }
    }
    assert false;
  }

  /** `_renew_loop` from its start to its end. */
  method RenewLoop(s: Setting) returns (log: seq<Record>, alarms: seq<Alarm>, out: Outcome)
    requires s.Fair()
    ensures Complete(s, log, alarms, out)
  {
    var v := Locals(s.start, s.start, false);
    log, alarms := [], [];
    while v.now < s.deadline && !s.StopSet(v.now)
      invariant AtTest(s, v, log, alarms)
      decreases s.deadline - v.now
    {
      // wait_for(stop_event.wait(), timeout=interval)
      if s.StopSet(v.now + Interval(s.d)) {
        out := Outcome(s.stopAt.value, StopSeen);
        return;
      }
      var ending: Option<Ending>;
      v, log, alarms, ending := Cycle(s, v, log, alarms);
      if ending.Some? {
        out := Outcome(v.now, ending.value);
        return;
      }
    }
    out := Outcome(v.now, if s.StopSet(v.now) then StopSeen else DeadlineReached);
  }

  // ---- what the promises come to ----

  /** Time spent sleeping before attempt `retry`. */
  function Slept(retry: nat): real {
    if retry == 0 then 0.0 else if retry == 1 then 1.0 else 3.0
  }

  /** Longest time spent in requests before attempt `retry`. */
  function Requested(retry: nat, d: real): real {
    if retry == 0 then 0.0
    else if retry == 1 then Timeout(d)
    else if retry == 2 then 2.0 * Timeout(d)
    else 3.0 * Timeout(d)
  }

  /** Where a request falls in its cycle. */
  lemma {:induction false} Window(s: Setting, log: seq<Record>)
    requires s.Fair() && Scheduled(s, log) && log != []
    ensures var r, t := log[|log| - 1], TestTime(s, log[..|log| - 1]) + Interval(s.d);
            && r.retry < 3
            && t + Slept(r.retry) <= r.begin <= t + Slept(r.retry) + Requested(r.retry, s.d)
            && r.begin <= r.end <= r.begin + Timeout(s.d)
    decreases |log|
  {
    var init := log[..|log| - 1];
    if MidCycle(init) {
      Window(s, init);
    }
  }

  /** The lost event was set for the success at `since`, no later than the bound. */
  ghost predicate Detected(alarms: seq<Alarm>, d: real, since: real) {
    exists a :: a in alarms && a.since == since && a.time <= since + DetectionBound(d)
  }

  /** How the last loop test, the last success and the alarms lie to each other. */
  ghost predicate Position(s: Setting, log: seq<Record>) {
    var t, since, failed, alarms := TestTime(s, log), Since(s, log), FailedCycles(s, log), AlarmsOf(s, log);
    && since <= t <= Now(s, log)
    && (failed == 0 ==> t == since)
    && (failed >= 1 ==> t >= since + Interval(s.d) + 3.0)
    && (failed >= 2 ==> t > since + s.d)
    && (t - since > s.d ==> Detected(alarms, s.d, since))
    && (NoAlarm(alarms, since) <==> t - since <= s.d)
  }

  lemma SuccessPosition(s: Setting, log: seq<Record>)
    requires s.Fair() && Scheduled(s, log) && log != [] && log[|log| - 1].reply.Renewed?
    ensures Position(s, log)
  {
    AlarmTimes(s, log[..|log| - 1]);
  }

  lemma FailedCyclePosition(s: Setting, log: seq<Record>)
    requires s.Fair() && Scheduled(s, log) && log != []
    requires EndsCycle(s, log[|log| - 1]) && !log[|log| - 1].reply.Renewed?
    requires Position(s, log[..|log| - 1])
    ensures Position(s, log)
  {
    var init, r := log[..|log| - 1], log[|log| - 1];
    var prior, alarms, since := AlarmsOf(s, init), AlarmsOf(s, log), Since(s, log);
    Window(s, log);
    if r.end - since > s.d && NoAlarm(prior, since) {
      assert alarms[|prior|] == Alarm(r.end, Expired, since);
      assert alarms[|prior|] in alarms;
    }
  }

  lemma {:induction false} Positions(s: Setting, log: seq<Record>)
    requires s.Fair() && Scheduled(s, log) && (log != [] ==> !log[|log| - 1].reply.NotFound?)
    ensures Position(s, log)
    decreases |log|
  {
    if log != [] {
      var init, r := log[..|log| - 1], log[|log| - 1];
      if r.reply.Renewed? {
        SuccessPosition(s, log);
      } else {
        Positions(s, init);
        if EndsCycle(s, r) {
          FailedCyclePosition(s, log);
        }
      }
    }
  }

  /** Renewal is timely: a request sent right after a success, or as the first, ends within the lock
      duration of that success. */
  lemma FirstAttemptIsTimely(s: Setting, log: seq<Record>)
    requires s.Fair() && Scheduled(s, log) && log != []
    requires |log| == 1 || log[|log| - 2].reply.Renewed?
    ensures log[|log| - 1].retry == 0 && log[|log| - 1].end <= Since(s, log[..|log| - 1]) + s.d
  {
    var init := log[..|log| - 1];
    Window(s, log);
    assert |log| > 1 ==> init[|init| - 1] == log[|log| - 2];
  }

  lemma {:induction false} PrefixScheduled(s: Setting, log: seq<Record>, k: nat)
    requires Scheduled(s, log) && k <= |log|
    ensures Scheduled(s, log[..k]) && AlarmsOf(s, log[..k]) <= AlarmsOf(s, log)
    ensures k < |log| ==> Continues(s, log[..k]) && log[k] == Next(s, log[..k])
    decreases |log|
  {
    var n := |log|;
    if k == n {
      assert log[..k] == log;
    } else {
      assert log[..n - 1][..k] == log[..k];
      PrefixScheduled(s, log[..n - 1], k);
      assert k == n - 1 ==> log[..k] == log[..n - 1];
    }
  }

  /** The lost event was set at the end of request `k`, for a 404 or because more than the lock duration had
      passed since the last success before it. */
  ghost predicate RaisedBy(s: Setting, log: seq<Record>, k: nat, a: Alarm) {
    && k < |log| && log[k].end == a.time && a.since == Since(s, log[..k]) && !log[k].reply.Renewed?
    && match a.cause
       case Gone => log[k].reply.NotFound?
       case Expired => Fails(log[k].reply) && a.time - a.since > s.d
  }

  /** No false alarm: whatever raised the lost event, it was not after the stop. */
  lemma {:induction false} AlarmsAreJustified(s: Setting, log: seq<Record>, a: Alarm)
    requires Scheduled(s, log) && a in AlarmsOf(s, log)
    ensures !s.StopSet(a.time) && exists k: nat :: RaisedBy(s, log, k, a)
    decreases |log|
  {
    var init := log[..|log| - 1];
    if a in AlarmsOf(s, init) {
      AlarmsAreJustified(s, init, a);
      var k: nat :| RaisedBy(s, init, k, a);
      assert log[..k] == init[..k];
      assert RaisedBy(s, log, k, a);
    } else {
      assert RaisedBy(s, log, |log| - 1, a);
    }
  }

  /** Bounded detection, at every moment of the loop: after two failed cycles the lost event has been set,
      and no request is sent and the loop does not end later than the bound after the last success
      without it. */
  lemma LossIsDetected(s: Setting, log: seq<Record>)
    requires s.Fair() && Scheduled(s, log)
    ensures FailedCycles(s, log) >= 2 ==> Detected(AlarmsOf(s, log), s.d, Since(s, log))
    ensures Continues(s, log) && Due(s, log) > Since(s, log) + DetectionBound(s.d) ==>
              Detected(AlarmsOf(s, log), s.d, Since(s, log))
    ensures !Continues(s, log) && OutcomeOf(s, log).time > Since(s, log) + DetectionBound(s.d) ==>
              Detected(AlarmsOf(s, log), s.d, Since(s, log))
  {
    if log == [] || !log[|log| - 1].reply.NotFound? {
      Positions(s, log);
      if log != [] {
        Window(s, log);
        PositionBefore(s, log);
      }
    } else {
      PositionBefore(s, log);
      Window(s, log);
      var init, since := log[..|log| - 1], Since(s, log);
      if Detected(AlarmsOf(s, init), s.d, since) {
        var a :| a in AlarmsOf(s, init) && a.since == since && a.time <= since + DetectionBound(s.d);
        assert a in AlarmsOf(s, log);
      }
    }
  }

  lemma PositionBefore(s: Setting, log: seq<Record>)
    requires s.Fair() && Scheduled(s, log) && log != []
    ensures Position(s, log[..|log| - 1])
  {
    Positions(s, log[..|log| - 1]);
  }

  /** Exactly which failed cycles raise the lost event: the first if it ends more than the lock duration
      after the last success, else the second, and no later one. */
  lemma WhichCycleAlarms(s: Setting, log: seq<Record>)
    requires s.Fair() && Scheduled(s, log) && log != []
    requires EndsCycle(s, log[|log| - 1]) && !log[|log| - 1].reply.Renewed?
    ensures var init, end, since := log[..|log| - 1], log[|log| - 1].end, Since(s, log);
            var raised := AlarmsOf(s, log) == AlarmsOf(s, init) + [Alarm(end, Expired, since)];
            && (raised || AlarmsOf(s, log) == AlarmsOf(s, init))
            && (raised <==>
                  || (FailedCycles(s, log) == 1 && end - since > s.d)
                  || (FailedCycles(s, log) == 2 && TestTime(s, init) - since <= s.d))
  {
    PositionBefore(s, log);
    Positions(s, log);
    var init := log[..|log| - 1];
    assert |AlarmsOf(s, init) + [Alarm(log[|log| - 1].end, Expired, Since(s, log))]| == |AlarmsOf(s, init)| + 1;
  }

  /** The exact condition under which the loop ends unnoticed, neither stopped nor having raised an alarm
      since the last success: at the deadline, or by a cancellation, no more than the lock duration
      after it. */
  lemma EndsUnnoticed(s: Setting, log: seq<Record>)
    requires s.Fair() && Scheduled(s, log) && !Continues(s, log)
    ensures var out, since := OutcomeOf(s, log), Since(s, log);
            !s.StopSet(out.time) && NoAlarm(AlarmsOf(s, log), since) <==>
              && !s.StopSet(out.time)
              && (|| (out.ending.DeadlineReached? && out.time - since <= s.d)
                  || (out.ending.TaskInterrupted? && TestTime(s, log) - since <= s.d))
  {
    if log != [] && log[|log| - 1].reply.NotFound? {
      var prior := AlarmsOf(s, log[..|log| - 1]);
      if !s.StopSet(log[|log| - 1].end) {
        assert AlarmsOf(s, log)[|prior|].since == Since(s, log);
      }
    } else {
      Positions(s, log);
      if log != [] {
        NowIsTestTime(s, log);
      }
    }
  }

  lemma NowIsTestTime(s: Setting, log: seq<Record>)
    requires s.Fair() && Scheduled(s, log) && log != []
    ensures OutcomeOf(s, log).ending.DeadlineReached? && !Continues(s, log) ==> TestTime(s, log) == Now(s, log)
  {
    Window(s, log);
  }

  // ---- stopping ----

  /** A stop ends the loop when it comes, or as soon as the cycle it comes in is over: at the latest of the
      stop and the end of the last request. */
  lemma StopIsPrompt(s: Setting, log: seq<Record>)
    requires s.Fair() && Scheduled(s, log) && !Continues(s, log) && OutcomeOf(s, log).ending.StopSeen?
    ensures s.stopAt.Some? && OutcomeOf(s, log).time == MaxReal(s.stopAt.value, Now(s, log))
    ensures s.stopAt.value <= Now(s, log) + Interval(s.d)
  {
    if log != [] {
      Window(s, log);
    }
  }

  /** No cycle begins after a stop; at most the retry whose pause it fell into is still sent, within two
      seconds of the stop. */
  lemma NoRequestAfterStop(s: Setting, log: seq<Record>)
    requires s.Fair() && Scheduled(s, log) && log != [] && s.stopAt.Some?
    ensures var r := log[|log| - 1];
            r.begin >= s.stopAt.value ==> r.retry > 0 && r.begin <= s.stopAt.value + 2.0
  {
  }

  /** What a healthy lock comes to: when every renewal succeeds and nobody stops the loop, it ends at the
      deadline, and the lost event is never set. */
  lemma {:induction false} HealthyLockLapses(s: Setting, log: seq<Record>)
    requires Scheduled(s, log) && s.stopAt.None? && forall k :: s.env(k).reply.Renewed?
    ensures AlarmsOf(s, log) == [] && FailedCycles(s, log) == 0
    ensures !Continues(s, log) ==> OutcomeOf(s, log).ending.DeadlineReached? && OutcomeOf(s, log).time >= s.deadline
    decreases |log|
  {
    if log != [] {
      HealthyLockLapses(s, log[..|log| - 1]);
      assert log[|log| - 1].reply == s.env(|log| - 1).reply;
    }
  }
}
