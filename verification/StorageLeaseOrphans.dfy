/** Heartbeats that outlive their execution: which exits leave one behind, and what it does
    (ai4s/jobq/backend/storage_queue.py). */
module StorageLeaseOrphans {
  import opened Basics
  import opened Entities
  import opened StorageLease
  import opened StorageLeaseSafety
  import opened StorageLeaseTheorems

  // ---- which exits leave a heartbeat behind ----

  /** The heartbeat task is over, was told to stop, or was refused by the broker. */
  predicate Ending(l: Lease) {
    l.cancelRequested || HeartbeatOver(l.heartbeat) || l.heartbeat.Refused?
  }

  /** Its next loop test sends another update. */
  predicate SendsNext(l: Lease) {
    l.heartbeat.Waiting? && !l.cancelRequested
  }

  /** No update is sent in any continuation. */
  ghost predicate NeverSends(md5: Md5, c: Cell, i: nat) {
    forall steps, c' :: Run(md5, c, steps, c') ==> i < |c'.leases| && !SendsNext(c'.leases[i])
  }

  lemma ExitedLeaseStep(md5: Md5, c: Cell, l: Lease, e: Event)
    requires OfLease(e) && Possible(l, e) && l.pc.Exited? && Ending(l)
    ensures var l' := LeaseAfter(md5, c, l, e); l'.pc.Exited? && Ending(l')
  {
  }

  lemma {:induction false} EndingRun(md5: Md5, c: Cell, steps: seq<Step>, c': Cell, i: nat)
    requires Run(md5, c, steps, c') && i < |c.leases| && c.leases[i].pc.Exited? && Ending(c.leases[i])
    ensures i < |c'.leases| && Ending(c'.leases[i])
    decreases |steps|
  {
    if steps != [] {
      var e := steps[0].event;
      if About(e, i) {
        ExitedLeaseStep(md5, c, c.leases[i], e);
      }
      EndingRun(md5, Apply(md5, steps[0].now, c, e), steps[1..], c', i);
    }
  }

  lemma OneStep(md5: Md5, c: Cell, now: nat, e: Event)
    requires Enabled(now, c, e)
    ensures Run(md5, c, [Step(now, e)], Apply(md5, now, c, e))
  {
    assert [Step(now, e)][1..] == [];
    assert Run(md5, Apply(md5, now, c, e), [], Apply(md5, now, c, e));
  }

  lemma SendsAgain(md5: Md5, c: Cell, i: nat) returns (steps: seq<Step>, c': Cell)
    requires i < |c.leases| && !Ending(c.leases[i])
    ensures Run(md5, c, steps, c') && i < |c'.leases| && SendsNext(c'.leases[i])
  {
    if c.leases[i].heartbeat.Waiting? {
      return [], c;
    }
    var e := if c.leases[i].heartbeat.Renewed? then HeartbeatReplied(i) else HeartbeatFailed(i, false);
    OneStep(md5, c, 0, e);
    return [Step(0, e)], Apply(md5, 0, c, e);
  }

  /** After the exit of an execution its heartbeat stays silent exactly if it is ending by then. */
  lemma SilentIffEnding(md5: Md5, c: Cell, i: nat)
    requires i < |c.leases| && c.leases[i].pc.Exited?
    ensures NeverSends(md5, c, i) <==> Ending(c.leases[i])
  {
    if Ending(c.leases[i]) {
      forall steps, c' | Run(md5, c, steps, c') ensures i < |c'.leases| && !SendsNext(c'.leases[i]) {
        EndingRun(md5, c, steps, c', i);
      }
    } else {
      var steps, c' := SendsAgain(md5, c, i);
      assert Run(md5, c, steps, c');
    }
  }

  /** Whether the step by which an execution ends leaves its heartbeat behind: a `CancelledError` that
      arrives before `cancel_heartbeat` was called, or an unreadable payload, while there is a
      heartbeat that the broker has not refused. */
  predicate Orphans(c: Cell, e: Event)
    requires OfLease(e) ==> e.i < |c.leases|
  {
    match e
    case Receive(_, heartbeat, _, _) => heartbeat
    case Abort(i, _) =>
      var l := c.leases[i];
      l.pc.Executing? && !HeartbeatOver(l.heartbeat) && !l.heartbeat.Refused?
    case _ => false
  }

  lemma ExitStepEnding(md5: Md5, c: Cell, e: Event)
    requires OfLease(e) && e.i < |c.leases| && Possible(c.leases[e.i], e)
    requires LeaseOk(c, e.i) && StopsForCause(c.leases[e.i])
    requires !c.leases[e.i].pc.Exited? && LeaseAfter(md5, c, c.leases[e.i], e).pc.Exited?
    ensures Ending(LeaseAfter(md5, c, c.leases[e.i], e)) <==> !Orphans(c, e)
  {
  }

  /** The exact condition: an execution of any reachable message that ends with step `e` has a heartbeat
      that sends another update in some continuation if and only if `e` orphans it. */
  lemma OrphaningExits(md5: Md5, content: Document, start: nat, steps: seq<Step>, c: Cell, now: nat, e: Event, i: nat)
    requires Run(md5, Pushed(content, start), steps, c) && Enabled(now, c, e)
    requires if OfLease(e) then i == e.i && !c.leases[i].pc.Exited? else e.Receive? && i == |c.leases|
    requires Apply(md5, now, c, e).leases[i].pc.Exited?
    ensures !NeverSends(md5, Apply(md5, now, c, e), i) <==> Orphans(c, e)
  {
    if OfLease(e) {
      Reachable(md5, content, start, steps, c);
      ReachableStopsForCause(md5, content, start, steps, c, i);
      assert LeaseOk(c, i);
      ExitStepEnding(md5, c, e);
    }
    SilentIffEnding(md5, Apply(md5, now, c, e), i);
  }

  // ---- what an orphan does ----

  /** An exited execution whose heartbeat runs on, holding the current receipt of a message that is
      invisible at `now`. */
  ghost predicate Orphan(c: Cell, i: nat, timeout: nat, now: nat) {
    && i < |c.leases|
    && c.leases[i].pc.Exited? && SendsNext(c.leases[i])
    && c.leases[i].timeout == timeout
    && Current(c, c.leases[i].receipt)
    && now < c.entry.value.visibleAt
  }

  /** The message is still queued but nobody can receive it. */
  ghost predicate Invisible(now: nat, c: Cell) {
    c.entry.Some? && forall e: Event :: e.Receive? ==> !Enabled(now, c, e)
  }

  /** In time order from `from` on, nobody can receive the message at any step of the run. */
  ghost predicate Hidden(md5: Md5, c: Cell, from: nat, steps: seq<Step>)
    decreases |steps|
  {
    steps != [] ==>
      && from <= steps[0].now && Invisible(steps[0].now, c)
      && Enabled(steps[0].now, c, steps[0].event)
      && Hidden(md5, Apply(md5, steps[0].now, c, steps[0].event), steps[0].now, steps[1..])
  }

  /** Puts a step in front of a hidden run. */
  lemma Prepend(md5: Md5, c: Cell, now: nat, e: Event, later: nat, rest: seq<Step>, c': Cell)
    requires Enabled(now, c, e) && Invisible(now, c) && now <= later
    requires Run(md5, Apply(md5, now, c, e), rest, c') && Hidden(md5, Apply(md5, now, c, e), later, rest)
    ensures Run(md5, c, [Step(now, e)] + rest, c') && Hidden(md5, c, now, [Step(now, e)] + rest)
  {
    assert ([Step(now, e)] + rest)[1..] == rest;
  }

  /** The three steps of one heartbeat. */
  lemma BeatStates(md5: Md5, c: Cell, i: nat, timeout: nat, now: nat)
    requires Orphan(c, i, timeout, now)
    ensures Enabled(now, c, HeartbeatLoopTest(i))
    ensures var c1 := Apply(md5, now, c, HeartbeatLoopTest(i));
            && c1.entry == c.entry && Enabled(now, c1, HeartbeatDecided(i))
            && var c2 := Apply(md5, now, c1, HeartbeatDecided(i));
               && c2.entry.Some? && c2.entry.value.visibleAt == now + timeout && Enabled(now, c2, HeartbeatReplied(i))
  {
  }

  lemma BeatResult(md5: Md5, c: Cell, i: nat, timeout: nat, now: nat, later: nat)
    requires Orphan(c, i, timeout, now) && later < now + timeout
    ensures Enabled(now, c, HeartbeatLoopTest(i))
    ensures var c1 := Apply(md5, now, c, HeartbeatLoopTest(i));
            Enabled(now, c1, HeartbeatDecided(i)) &&
            var c2 := Apply(md5, now, c1, HeartbeatDecided(i));
            Enabled(now, c2, HeartbeatReplied(i)) && Orphan(Apply(md5, now, c2, HeartbeatReplied(i)), i, timeout, later)
  {
    BeatStates(md5, c, i, timeout, now);
  }

  /** An orphan that beats every `half` of its timeout, as the source does, keeps the message hidden
      without end: for every number of beats there is a run in which it is invisible throughout. */
  lemma {:induction false} OrphanHides(md5: Md5, c: Cell, i: nat, half: nat, now: nat, beats: nat)
    returns (steps: seq<Step>, c': Cell)
    requires half > 0 && Orphan(c, i, 2 * half, now)
    ensures Run(md5, c, steps, c') && Hidden(md5, c, now, steps)
    ensures Orphan(c', i, 2 * half, now + beats * half)
    decreases beats
  {
    if beats == 0 {
      return [], c;
    }
    var e1, e2, e3 := HeartbeatLoopTest(i), HeartbeatDecided(i), HeartbeatReplied(i);
    BeatStates(md5, c, i, 2 * half, now);
    BeatResult(md5, c, i, 2 * half, now, now + half);
    var c1 := Apply(md5, now, c, e1);
    var c2 := Apply(md5, now, c1, e2);
    var c3 := Apply(md5, now, c2, e3);
    assert now + half + (beats - 1) * half == now + beats * half;
    steps, c' := OrphanHides(md5, c3, i, half, now + half, beats - 1);
    Prepend(md5, c2, now, e3, now + half, steps, c');
    Prepend(md5, c1, now, e2, now, [Step(now, e3)] + steps, c');
    Prepend(md5, c, now, e1, now, [Step(now, e2)] + ([Step(now, e3)] + steps), c');
    steps := [Step(now, e1)] + ([Step(now, e2)] + ([Step(now, e3)] + steps));
  }

  /** Received with a heartbeat and abandoned at once: by a `CancelledError`, or because the payload
      cannot be read. */
  function Abandonment(content: Document, timeout: nat, sig: Signature, worker: Json): seq<Step> {
    var received := Step(0, Receive(timeout, true, sig, worker));
    if Deserialize(content).Some? then [received] + [Step(0, Abort(0, false))] else [received]
  }

  lemma Abandoned(md5: Md5, content: Document, timeout: nat, sig: Signature, worker: Json) returns (c: Cell)
    requires timeout > 0
    ensures Run(md5, Pushed(content, 0), Abandonment(content, timeout, sig, worker), c)
    ensures Orphan(c, 0, timeout, 0)
  {
    var e1, e2 := Receive(timeout, true, sig, worker), Abort(0, false);
    var c0 := Pushed(content, 0);
    OneStep(md5, c0, 0, e1);
    c := Apply(md5, 0, c0, e1);
    if Deserialize(content).Some? {
      OneStep(md5, c, 0, e2);
      RunAppend(md5, c0, [Step(0, e1)], c, [Step(0, e2)], Apply(md5, 0, c, e2));
      c := Apply(md5, 0, c, e2);
    }
  }

  /** A message whose first execution was abandoned at time 0 has stayed hidden up to `horizon`. */
  ghost predicate HiddenUntil(md5: Md5, content: Document, first: seq<Step>, more: seq<Step>, horizon: nat) {
    exists a, c ::
      && Run(md5, Pushed(content, 0), first, a) && Run(md5, a, more, c)
      && Hidden(md5, a, 0, more) && forall now: nat :: now <= horizon ==> Invisible(now, c)
  }

  /** Witness that the bare `yield` matters, for readable and unreadable payloads: no one else can
      receive the message before any given time. */
  lemma OrphanHidesMessage(md5: Md5, content: Document, half: nat, sig: Signature, worker: Json, beats: nat)
    returns (more: seq<Step>)
    requires half > 0
    ensures HiddenUntil(md5, content, Abandonment(content, 2 * half, sig, worker), more, beats * half)
  {
    var a := Abandoned(md5, content, 2 * half, sig, worker);
    var c: Cell;
    more, c := OrphanHides(md5, a, 0, half, 0, beats);
  }
}
