/** `JobQ.pull_and_execute` on a Storage Queue, statement by statement, against
    the protocol of module StorageLease (ai4s/jobq/jobq.py).

    While the coroutine is suspended anything else may happen to the message; an
    `Await` says what. The method performs only protocol steps of its own lease,
    so everything proved about runs holds for it. */
module PullAndExecute {
  import opened Basics
  import opened Entities
  import opened StorageLease
  import opened StorageLeaseSafety
  import opened StorageLeaseTheorems

  /** What happens during one `await`: steps of others and of the own heartbeat,
      and whether the wait ends by a `CancelledError`. */
  datatype Await = Await(others: seq<Step>, cancelled: bool)

  datatype CallbackEnd = Returns | Raises | RaisesWorkerCanceled

  /** Everything `pull_and_execute` does not decide itself. */
  datatype World = World(
    now: nat,                    // time of its own steps
    receive: Event,
    callback: Await,
    callbackEnd: Option<CallbackEnd>,  // how the callback ends; `None` is `CancelledError`
    afterCancel: Option<CallbackEnd>,  // how it ends once it was cancelled
    lostWaiter: Await,           // `await lock_lost_task`, where a `CancelledError` is suppressed
    heartbeatFails: bool,        // whether an update in flight at cancellation raises
    stop: Await,                 // `await envelope.cancel_heartbeat()`
    copy: Await, copyFails: bool, copyLate: bool,
    copyReply: Await, copyReplyFails: bool,
    settle: Await, settleFails: bool, settleLate: bool,
    reply: Await, replyFails: bool)

  /** A wait of this world. */
  predicate IsWait(w: World, a: Await) {
    a in {w.callback, w.lostWaiter, w.stop, w.copy, w.copyReply, w.settle, w.reply}
  }

  /** A step that happens during one of the waits. */
  ghost predicate Foreign(w: World, s: Step) {
    exists a :: IsWait(w, a) && s in a.others
  }

  /** What the execution itself does: it does not crash, and an update of its heartbeat fails only if the
      world says so. */
  predicate Own(w: World, i: nat, e: Event) {
    About(e, i) && !e.Crash? && (e.HeartbeatFailed? ==> w.heartbeatFails)
  }

  /** Every step that `later` adds to `earlier` is one of the execution or one of the world. */
  ghost predicate Extends(earlier: seq<Step>, later: seq<Step>, w: World, i: nat) {
    && earlier <= later
    && forall k :: |earlier| <= k < |later| ==> Own(w, i, later[k].event) || Foreign(w, later[k])
  }

  /** Steps of the coroutine that runs lease `i`. */
  predicate OfCoroutine(e: Event, i: nat) {
    About(e, i) && !OfHeartbeat(e)
  }

  ghost predicate SameExecution(l: Lease, l': Lease) {
    && l'.pc == l.pc && l'.task == l.task && l'.cancelRequested == l.cancelRequested
    && (l.replyLost ==> l'.replyLost)
    && (l.lockLost ==> l'.lockLost)
    && (HeartbeatOver(l.heartbeat) ==> HeartbeatOver(l'.heartbeat) && l'.receipt == l.receipt)
  }

  /** What others can and cannot do to lease `i` and to its message. */
  ghost predicate Undisturbed(c: Cell, c': Cell, i: nat) {
    && i < |c.leases| <= |c'.leases|
    && c'.pushed == c.pushed
    && SameExecution(c.leases[i], c'.leases[i])
    && (c'.lastReceiver == Some(i) ==> c.lastReceiver == Some(i))
    && (c.returned ==> c'.returned)
    && c.dead <= c'.dead
    && (c'.lastReceiver == Some(i) && !c'.leases[i].replyLost && c.leases[i].pc.Settled? ==> c'.entry == c.entry)
  }

  lemma OwnHeartbeatStep(md5: Md5, now: nat, c: Cell, e: Event)
    requires Enabled(now, c, e) && OfHeartbeat(e) && LeaseOk(c, e.i)
    ensures Undisturbed(c, Apply(md5, now, c, e), e.i)
  {
    BrokerFrameStep(md5, now, c, e);
  }

  lemma OthersStep(md5: Md5, now: nat, c: Cell, e: Event, i: nat)
    requires Enabled(now, c, e) && !OfCoroutine(e, i)
    requires ReceiptsOk(c) && i < |c.leases|
    ensures Undisturbed(c, Apply(md5, now, c, e), i)
  {
    if About(e, i) {
      assert LeaseOk(c, i);
      OwnHeartbeatStep(md5, now, c, e);
    } else {
      FrameStep(md5, now, c, e);
      var c' := Apply(md5, now, c, e);
      if c'.lastReceiver == Some(i) && !c'.leases[i].replyLost && c.leases[i].pc.Settled? {
        OnlyHolderWrites(md5, now, c, e, i);
      }
    }
  }

  /** The cell once the steps of `others` that were possible have happened, one after the other. */
  ghost function Meanwhile(md5: Md5, c: Cell, others: seq<Step>, i: nat): Cell {
    if others == [] then c
    else
      var s, before := others[|others| - 1], Meanwhile(md5, c, others[..|others| - 1], i);
      if Enabled(s.now, before, s.event) && !OfCoroutine(s.event, i) then Apply(md5, s.now, before, s.event)
      else before
  }

  lemma UndisturbedTwice(c: Cell, c1: Cell, c2: Cell, i: nat)
    requires Undisturbed(c, c1, i) && Undisturbed(c1, c2, i)
    ensures Undisturbed(c, c2, i)
  {
  }

  /** How far a heartbeat is from its end once `cancel_heartbeat_event` is set. */
  function Rank(h: Heartbeat): nat {
    match h
    case Sending(_) => 3
    case Renewed(_) => 2
    case Refused => 2
    case Waiting => 1
    case _ => 0
  }

  /** The next step of a heartbeat task that is still running. */
  function NextBeat(i: nat, h: Heartbeat, fails: bool): (e: Event)
    requires !HeartbeatOver(h)
    ensures OfHeartbeat(e) && e.i == i && (e.HeartbeatFailed? ==> fails)
  {
    match h
    case Sending(_) => if fails then HeartbeatFailed(i, true) else HeartbeatDecided(i)
    case Waiting => HeartbeatLoopTest(i)
    case _ => HeartbeatReplied(i)
  }

  lemma RankFalls(md5: Md5, c: Cell, l: Lease, i: nat, fails: bool)
    requires l.cancelRequested && !HeartbeatOver(l.heartbeat)
    ensures Possible(l, NextBeat(i, l.heartbeat, fails))
    ensures Rank(LeaseAfter(md5, c, l, NextBeat(i, l.heartbeat, fails)).heartbeat) < Rank(l.heartbeat)
  {
  }

  ghost predicate SameBut(l: Lease, l': Lease) {
    l'.task == l.task && l'.replyLost == l.replyLost && l'.heartbeat == l.heartbeat && l'.receipt == l.receipt
  }

  /** The message, the dead-letter queue and the histories are as before. */
  ghost predicate SameElsewhere(c: Cell, c': Cell) {
    c'.entry == c.entry && c'.dead == c.dead && c'.returned == c.returned && c'.lastReceiver == c.lastReceiver
  }

  class Message {
    const md5: Md5
    const pushed: Document
    const since: nat
    ghost var history: seq<Step>
    var cell: Cell

    ghost predicate Valid()
      reads this
    {
      Run(md5, Pushed(pushed, since), history, cell)
    }

    constructor (md5: Md5, content: Document, now: nat)
      ensures Valid() && cell == Pushed(content, now) && this.md5 == md5 && pushed == content && since == now
    {
      this.md5, pushed, since := md5, content, now;
      history, cell := [], Pushed(content, now);
    }

    method Perform(now: nat, e: Event)
      requires Valid() && Enabled(now, cell, e)
      modifies this
      ensures Valid() && cell == Apply(md5, now, old(cell), e)
      ensures history == old(history) + [Step(now, e)]
    {
      ghost var c := cell;
      cell := Apply(md5, now, cell, e);
      history := history + [Step(now, e)];
      RunAppend(md5, Pushed(pushed, since), old(history), c, [Step(now, e)], cell);
    }

    /** A step of others happens if it is possible. */
    method Happen(w: World, i: nat, s: Step)
      requires Valid() && i < |cell.leases| && Foreign(w, s)
      modifies this
      ensures Valid() && Undisturbed(old(cell), cell, i) && Extends(old(history), history, w, i)
      ensures cell == if Enabled(s.now, old(cell), s.event) && !OfCoroutine(s.event, i)
                      then Apply(md5, s.now, old(cell), s.event) else old(cell)
    {
      if Enabled(s.now, cell, s.event) && !OfCoroutine(s.event, i) {
        Reachable(md5, pushed, since, history, cell);
        OthersStep(md5, s.now, cell, s.event, i);
        Perform(s.now, s.event);
      }
    }

    /** Suspends lease `i`: the scheduled steps that are possible happen. */
    method Suspend(w: World, i: nat, a: Await)
      requires Valid() && i < |cell.leases| && IsWait(w, a)
      modifies this
      ensures Valid() && Undisturbed(old(cell), cell, i) && Extends(old(history), history, w, i)
      ensures cell == Meanwhile(md5, old(cell), a.others, i)
    {
      for k := 0 to |a.others|
        invariant Valid() && Undisturbed(old(cell), cell, i) && Extends(old(history), history, w, i)
        invariant cell == Meanwhile(md5, old(cell), a.others[..k], i)
      {
        ghost var before := cell;
        assert a.others[..k + 1][..k] == a.others[..k];
        assert Foreign(w, a.others[k]);
        Happen(w, i, a.others[k]);
        UndisturbedTwice(old(cell), before, cell, i);
      }
      assert a.others[..|a.others|] == a.others;
    }

    /** A `CancelledError` leaves the coroutine. */
    method Leave(w: World, i: nat, late: bool)
      requires Valid() && i < |cell.leases| && !cell.leases[i].pc.Exited?
      modifies this
      ensures Valid() && Extends(old(history), history, w, i)
      ensures i < |cell.leases| && cell.leases[i] == old(cell.leases[i]).(pc := Exited(Aborted))
      ensures SameElsewhere(old(cell), cell)
    {
      Perform(w.now, Abort(i, late));
    }

    /** A settlement or dead-letter call raises. */
    method Fail(w: World, i: nat, late: bool)
      requires Valid() && i < |cell.leases| && Possible(cell.leases[i], RequestFailed(i, late))
      modifies this
      ensures Valid() && Extends(old(history), history, w, i)
      ensures i < |cell.leases|
      ensures cell.leases[i] == old(cell.leases[i]).(pc := Exited(FailureExit(old(cell.leases[i].pc))))
      ensures SameElsewhere(old(cell), cell)
    {
      Perform(w.now, RequestFailed(i, late));
    }

    /** The next step of the heartbeat task of lease `i`. */
    method HeartbeatStep(w: World, i: nat)
      requires Valid() && i < |cell.leases| && cell.leases[i].cancelRequested
      requires !HeartbeatOver(cell.leases[i].heartbeat)
      modifies this
      ensures Valid() && Undisturbed(old(cell), cell, i) && Extends(old(history), history, w, i)
      ensures Rank(cell.leases[i].heartbeat) < Rank(old(cell.leases[i].heartbeat))
    {
      var e := NextBeat(i, cell.leases[i].heartbeat, w.heartbeatFails);
      RankFalls(md5, cell, cell.leases[i], i, w.heartbeatFails);
      Reachable(md5, pushed, since, history, cell);
      OthersStep(md5, w.now, cell, e, i);
      Perform(w.now, e);
    }

    /** `await heartbeat_cancelled_event.wait()` returns: the heartbeat task comes to its end as
        soon as the update it may have in flight is answered or raises. */
    method FinishHeartbeat(w: World, i: nat)
      requires Valid() && i < |cell.leases| && cell.leases[i].cancelRequested
      modifies this
      ensures Valid() && Undisturbed(old(cell), cell, i) && Extends(old(history), history, w, i)
      ensures HeartbeatOver(cell.leases[i].heartbeat)
    {
      while !HeartbeatOver(cell.leases[i].heartbeat)
        invariant Valid() && Undisturbed(old(cell), cell, i) && Extends(old(history), history, w, i)
        decreases Rank(cell.leases[i].heartbeat)
      {
        ghost var before := cell;
        HeartbeatStep(w, i);
        UndisturbedTwice(old(cell), before, cell, i);
      }
    }

    /** `cancel_heartbeat`, then the code up to the next `await`. False: a `CancelledError` came first. */
    method CancelHeartbeat(w: World, i: nat) returns (done: bool)
      requires Valid() && i < |cell.leases| && cell.leases[i].pc.Stopping?
      modifies this
      ensures Extends(old(history), history, w, i)
      ensures Valid() && i < |cell.leases| && cell.leases[i].task == old(cell.leases[i].task)
      ensures old(cell).returned ==> cell.returned
      ensures Unopposed(cell, i) ==> Unopposed(old(cell), i)
      ensures done <==> !w.stop.cancelled
      ensures !done ==> cell.leases[i].pc == Exited(Aborted)
      ensures done ==>
                cell.leases[i].pc
                == AfterHeartbeat(md5, old(cell.leases[i]).pc, old(cell.leases[i]).task, cell.leases[i].receipt)
    {
      Reachable(md5, pushed, since, history, cell);
      assert LeaseOk(cell, i);
      Suspend(w, i, w.stop);
      if w.stop.cancelled {
        Leave(w, i, false);
        return false;
      }
      FinishHeartbeat(w, i);
      Perform(w.now, HeartbeatCanceled(i));
      return true;
    }

    /** The broker decides about the settlement request of lease `i`. */
    method Decide(w: World, i: nat)
      requires Valid() && i < |cell.leases| && cell.leases[i].pc.Settling?
      modifies this
      ensures Extends(old(history), history, w, i)
      ensures Valid() && |cell.leases| == |old(cell).leases|
      ensures SameBut(old(cell.leases[i]), cell.leases[i])
      ensures cell.lastReceiver == old(cell).lastReceiver
      ensures cell.returned == old(cell).returned && cell.dead == old(cell).dead
      ensures cell.leases[i].pc.Settled? && cell.leases[i].pc.outcome == old(cell.leases[i].pc.outcome)
      ensures Unopposed(cell, i) ==>
                cell.leases[i].pc.accepted && Applied(cell, old(cell.leases[i].pc.req), w.now)
    {
      Reachable(md5, pushed, since, history, cell);
      if Unopposed(cell, i) {
        HandOver(md5, pushed, since, history, cell, i, w.now);
      }
      Perform(w.now, SettlementDecided(i));
    }

    /** The broker has decided; its reply arrives unless a `CancelledError` comes first. */
    method AwaitReply(w: World, i: nat) returns (ok: Option<bool>)
      requires Valid() && i < |cell.leases| && cell.leases[i].pc.Settled?
      modifies this
      ensures Extends(old(history), history, w, i)
      ensures Valid() && i < |cell.leases|
      ensures old(cell).dead <= cell.dead && (old(cell).returned ==> cell.returned)
      ensures Unopposed(cell, i) ==> Unopposed(old(cell), i) && cell.entry == old(cell).entry
      ensures ok.None? <==> w.reply.cancelled
      ensures ok.None? ==> cell.leases[i].pc == Exited(Aborted)
      ensures ok.Some? ==>
                && ok.value == (old(cell.leases[i].pc.accepted) && !w.replyFails)
                && cell.leases[i].pc == Exited(SettlementExit(old(cell.leases[i].pc.outcome), ok.value))
    {
      Suspend(w, i, w.reply);
      if w.reply.cancelled {
        Leave(w, i, false);
        return None;
      }
      if w.replyFails {
        Fail(w, i, false);
        return Some(false);
      }
      ok := Some(cell.leases[i].pc.accepted);
      Perform(w.now, SettlementReplied(i));
    }

    /** One settlement call (`delete`, `replace` or `requeue`): true if it returned, false if it raised.
        `None` means a `CancelledError` left it. */
    method Settle(w: World, i: nat) returns (ok: Option<bool>)
      requires Valid() && i < |cell.leases| && cell.leases[i].pc.Settling?
      modifies this
      ensures Extends(old(history), history, w, i)
      ensures Valid() && i < |cell.leases|
      ensures old(cell).dead <= cell.dead && (old(cell).returned ==> cell.returned)
      ensures Unopposed(cell, i) ==> Unopposed(old(cell), i)
      ensures (w.settle.cancelled ==> ok.None?) && (ok.None? ==> w.settle.cancelled || w.reply.cancelled)
      ensures ok.None? ==> cell.leases[i].pc == Exited(Aborted)
      ensures ok.Some? ==> cell.leases[i].pc == Exited(SettlementExit(old(cell.leases[i].pc.outcome), ok.value))
      ensures Unopposed(cell, i) && ok == Some(true) ==> Applied(cell, old(cell.leases[i].pc.req), w.now)
      ensures Unopposed(cell, i) && !SettleFails(w) ==> ok != Some(false)
      ensures SettleFails(w) ==> ok != Some(true)
    {
      Suspend(w, i, w.settle);
      if w.settle.cancelled {
        Leave(w, i, w.settleLate);
        return None;
      }
      if w.settleFails {
        Fail(w, i, w.settleLate);
        return Some(false);
      }
      Decide(w, i);
      ok := AwaitReply(w, i);
    }

    /** Sends the copy for the dead-letter queue: true if it was stored. */
    method SendCopy(w: World, i: nat) returns (ok: Option<bool>)
      requires Valid() && i < |cell.leases| && cell.leases[i].pc.DeadLettering?
      modifies this
      ensures Extends(old(history), history, w, i)
      ensures Valid() && i < |cell.leases| && cell.leases[i].task == old(cell.leases[i].task)
      ensures Unopposed(cell, i) ==> Unopposed(old(cell), i)
      ensures ok.None? <==> w.copy.cancelled
      ensures ok.None? ==> cell.leases[i].pc == Exited(Aborted)
      ensures ok == Some(false) ==> w.copyFails && cell.leases[i].pc == Exited(RaisedError)
      ensures ok == Some(true) ==>
                !w.copyFails && cell.leases[i].pc.DeadLettered? && cell.leases[i].task.Serialize(md5) in cell.dead
    {
      Suspend(w, i, w.copy);
      if w.copy.cancelled {
        Leave(w, i, w.copyLate);
        return None;
      }
      if w.copyFails {
        Fail(w, i, w.copyLate);
        return Some(false);
      }
      Perform(w.now, DeadLetterStored(i));
      return Some(true);
    }

    /** The copy is stored; its acknowledgement may fail or come too late. */
    method AwaitCopyReply(w: World, i: nat) returns (ok: Option<bool>)
      requires Valid() && i < |cell.leases| && cell.leases[i].pc.DeadLettered?
      requires cell.leases[i].task.Serialize(md5) in cell.dead
      modifies this
      ensures Extends(old(history), history, w, i)
      ensures Valid() && i < |cell.leases|
      ensures Unopposed(cell, i) ==> Unopposed(old(cell), i)
      ensures ok.None? <==> w.copyReply.cancelled
      ensures ok.None? ==> cell.leases[i].pc == Exited(Aborted)
      ensures ok == Some(false) ==> w.copyReplyFails && cell.leases[i].pc == Exited(RaisedError)
      ensures ok == Some(true) ==>
                && !w.copyReplyFails
                && cell.leases[i].pc == Settling(Failed, Delete(cell.leases[i].receipt))
                && old(cell.leases[i].task).Serialize(md5) in cell.dead
    {
      ghost var k :| 0 <= k < |cell.dead| && cell.dead[k] == cell.leases[i].task.Serialize(md5);
      Suspend(w, i, w.copyReply);
      assert cell.dead[k] == old(cell.dead)[k];
      if w.copyReply.cancelled {
        Leave(w, i, false);
        return None;
      }
      if w.copyReplyFails {
        Fail(w, i, false);
        return Some(false);
      }
      Perform(w.now, DeadLetterReplied(i));
      return Some(true);
    }

    /** `add_to_dead_letter_queue`: true if the copy was stored and acknowledged. */
    method StoreCopy(w: World, i: nat) returns (ok: Option<bool>)
      requires Valid() && i < |cell.leases| && cell.leases[i].pc.DeadLettering?
      modifies this
      ensures Extends(old(history), history, w, i)
      ensures Valid() && i < |cell.leases|
      ensures Unopposed(cell, i) ==> Unopposed(old(cell), i)
      ensures (w.copy.cancelled ==> ok.None?) && (ok.None? ==> w.copy.cancelled || w.copyReply.cancelled)
      ensures ok.None? ==> cell.leases[i].pc == Exited(Aborted)
      ensures ok == Some(false) ==> CopyFails(w) && cell.leases[i].pc == Exited(RaisedError)
      ensures ok == Some(true) ==>
                && !CopyFails(w)
                && cell.leases[i].pc == Settling(Failed, Delete(cell.leases[i].receipt))
                && old(cell.leases[i].task).Serialize(md5) in cell.dead
    {
      ok := SendCopy(w, i);
      if ok == Some(true) {
        ok := AwaitCopyReply(w, i);
      }
    }

    /** `envelope.delete(success=False)`: dead-letter copy first, delete second. */
    method GiveUp(w: World, i: nat) returns (ok: Option<bool>)
      requires Valid() && i < |cell.leases| && cell.leases[i].pc.DeadLettering?
      modifies this
      ensures Extends(old(history), history, w, i)
      ensures Valid() && i < |cell.leases|
      ensures Unopposed(cell, i) ==> Unopposed(old(cell), i)
      ensures (w.copy.cancelled ==> ok.None?) && (ok.None? ==> SettlementCancelled(w))
      ensures ok.None? ==> cell.leases[i].pc == Exited(Aborted)
      ensures ok.Some? ==> cell.leases[i].pc == Exited(SettlementExit(Failed, ok.value))
      ensures ok == Some(true) ==> old(cell.leases[i].task).Serialize(md5) in cell.dead
      ensures Unopposed(cell, i) && ok == Some(true) ==> cell.entry.None?
      ensures Unopposed(cell, i) && !CopyFails(w) && !SettleFails(w) ==> ok != Some(false)
      ensures CopyFails(w) || SettleFails(w) ==> ok != Some(true)
    {
      ok := StoreCopy(w, i);
      if ok == Some(true) {
        ghost var copy := old(cell.leases[i].task).Serialize(md5);
        ghost var k :| 0 <= k < |cell.dead| && cell.dead[k] == copy;
        ghost var stored := cell.dead;
        ok := Settle(w, i);
        assert cell.dead[k] == stored[k];
      }
    }

    ghost method NoticeLoss(i: nat)
      requires Valid() && i < |cell.leases| && cell.leases[i].pc.Executing?
      ensures cell.leases[i].lockLost ==> !Unopposed(cell, i)
    {
      if cell.leases[i].lockLost {
        LockLossIsReal(md5, pushed, since, history, cell, i);
      }
    }

    /** The callback ended with `outcome`; `lock_lost` is sampled and the heartbeat asked to stop. */
    method Conclude(w: World, i: nat, outcome: Outcome)
      requires Valid() && i < |cell.leases| && cell.leases[i].pc.Executing?
      modifies this
      ensures Extends(old(history), history, w, i)
      ensures Valid() && |cell.leases| == |old(cell).leases| && SameBut(old(cell.leases[i]), cell.leases[i])
      ensures cell.lastReceiver == old(cell).lastReceiver
      ensures cell.leases[i].pc.Stopping? && cell.leases[i].pc.outcome == outcome
      ensures outcome == Succeeded ==> cell.returned
      ensures Unopposed(cell, i) ==> !cell.leases[i].pc.sawLost
    {
      NoticeLoss(i);
      match outcome {
        case Succeeded => Perform(w.now, CallbackReturned(i));
        case Failed => Perform(w.now, CallbackRaised(i));
        case Canceled => Perform(w.now, CallbackCanceled(i));
      }
    }

    /** Waits for the callback or the lost event, then samples `lock_lost`; ends where
        `cancel_heartbeat` is called. `None` means a `CancelledError` left it. */
    method RunCallback(w: World, i: nat) returns (outcome: Option<Outcome>)
      requires Valid() && i < |cell.leases| && cell.leases[i].pc.Executing?
      modifies this
      ensures Extends(old(history), history, w, i)
      ensures Valid() && i < |cell.leases| && cell.leases[i].task == old(cell.leases[i].task)
      ensures Unopposed(cell, i) ==> Unopposed(old(cell), i)
      ensures outcome.None? ==> EndOf(w).None? && cell.leases[i].pc == Exited(Aborted)
      ensures EndOf(w).None? && Unopposed(cell, i) ==> outcome.None?
      ensures outcome.Some? ==> cell.leases[i].pc.Stopping? && cell.leases[i].pc.outcome == outcome.value
      ensures outcome == Some(Succeeded) && !cell.leases[i].pc.sawLost ==> cell.returned
      ensures outcome.Some? && Unopposed(cell, i) ==> !cell.leases[i].pc.sawLost && outcome.value == OutcomeOf(w)
    {
      Suspend(w, i, w.callback);
      NoticeLoss(i);
      if !w.callback.cancelled && cell.leases[i].lockLost {
        Perform(w.now, LockLossNoticed(i));
        return Some(Succeeded);
      }
      Suspend(w, i, w.lostWaiter);
      if EndOf(w).None? {
        Leave(w, i, false);
        return None;
      }
      Conclude(w, i, OutcomeOf(w));
      return Some(OutcomeOf(w));
    }

    /** From `cancel_heartbeat` to the end of `pull_and_execute`. */
    method SettleExecution(w: World, i: nat, outcome: Outcome) returns (r: Exit)
      requires Valid() && i < |cell.leases| && cell.leases[i].pc.Stopping? && cell.leases[i].pc.outcome == outcome
      requires outcome.Succeeded? && !cell.leases[i].pc.sawLost ==> cell.returned
      modifies this
      ensures Extends(old(history), history, w, i)
      ensures Valid() && i < |cell.leases| && cell.leases[i].pc == Exited(r) && !r.BadPayload? && !r.Crashed?
      ensures (w.stop.cancelled ==> r.Aborted?) && (r.Aborted? ==> w.stop.cancelled || SettlementCancelled(w))
      ensures r == ReturnedTrue ==> cell.returned
      ensures Unopposed(cell, i) ==> Unopposed(old(cell), i)
      ensures Unopposed(cell, i) && !r.Aborted? && !old(cell.leases[i].pc.sawLost) ==>
                Documented(md5, w, outcome, old(cell.leases[i].task), r, cell)
    {
      var task, lockLost := cell.leases[i].task, cell.leases[i].pc.sawLost;
      var done := CancelHeartbeat(w, i);
      if !done {
        return Aborted;
      }
      var ok: Option<bool>;
      if outcome == Canceled {
        ok := Settle(w, i);
        return if ok.None? then Aborted else RaisedWorkerCanceled;
      }
      if lockLost {
        return RaisedLockLost;
      }
      if outcome == Succeeded {
        if task.replyRequested {
          return ReturnedTrue;
        }
        ok := Settle(w, i);
        return if ok.None? then Aborted else ReturnedTrue;
      }
      if task.numRetries <= 0 {
        if task.replyRequested {
          return RaisedError;
        }
        ok := GiveUp(w, i);
      } else {
        ok := Settle(w, i);
      }
      return if ok.None? then Aborted else if ok.value then ReturnedFalse else RaisedError;
    }

    /** `pull_and_execute` from the receipt of the message to its exit. */
    method PullAndExecute(w: World) returns (r: Exit)
      requires Valid() && w.receive.Receive? && Enabled(w.now, cell, w.receive)
      modifies this
      ensures Valid()
      ensures |old(cell).leases| < |cell.leases| && cell.leases[|old(cell).leases|].pc == Exited(r)
      // nothing happens but the receive, steps of the execution and what the world does during its waits
      ensures Extends(old(history) + [Step(w.now, w.receive)], history, w, |old(cell).leases|)
      ensures r.BadPayload? <==> Deserialize(old(cell).entry.value.content).None?
      ensures r == ReturnedTrue ==> cell.returned
      // it does not end early without a cause
      ensures !r.Crashed? && (r.Aborted? ==> EndOf(w).None? || w.stop.cancelled || SettlementCancelled(w))
      ensures Calm(w, |old(cell).leases|) ==> Unopposed(cell, |old(cell).leases|)
      ensures Unopposed(cell, |old(cell).leases|) && !r.Aborted? && !r.BadPayload? ==>
                var received := Deserialize(old(cell).entry.value.content).value;
                var t := InjectArguments(received, w.receive.sig, w.receive.worker);
                forall outcome :: EndsAs(w, outcome) ==> Documented(md5, w, outcome, t, r, cell)
    {
      var i := |cell.leases|;
      Perform(w.now, w.receive);
      ghost var received, begun := cell, history;
      r := Execute(w, i);
      CalmStaysUnopposed(md5, Pushed(pushed, since), begun, received, history, cell, w, i);
    }

    /** The body of the `async with` block. */
    method Execute(w: World, i: nat) returns (r: Exit)
      requires Valid() && i < |cell.leases|
      requires cell.leases[i].pc.Executing? || cell.leases[i].pc == Exited(BadPayload)
      modifies this
      ensures Valid() && Extends(old(history), history, w, i)
      ensures i < |cell.leases| && cell.leases[i].pc == Exited(r)
      ensures r.BadPayload? <==> old(cell.leases[i].pc.Exited?)
      ensures r == ReturnedTrue ==> cell.returned
      ensures !r.Crashed? && (r.Aborted? ==> EndOf(w).None? || w.stop.cancelled || SettlementCancelled(w))
      ensures Unopposed(cell, i) && !r.Aborted? && !r.BadPayload? ==>
                Documented(md5, w, OutcomeOf(w), old(cell.leases[i].task), r, cell)
    {
      if cell.leases[i].pc.Exited? {
        return BadPayload;
      }
      var outcome := RunCallback(w, i);
      if outcome.None? {
        return Aborted;
      }
      r := SettleExecution(w, i, outcome.value);
    }
  }

  /** Nobody else receives the message and no heartbeat update of lease `i` fails. */
  ghost predicate Calm(w: World, i: nat) {
    && !w.heartbeatFails
    && forall s :: Foreign(w, s) ==> Harmless(s.event, i)
  }

  predicate Harmless(e: Event, i: nat) {
    !e.Receive? && !(About(e, i) && (e.HeartbeatFailed? || e.Crash?))
  }

  lemma HarmlessStep(md5: Md5, now: nat, c: Cell, e: Event, i: nat)
    requires Enabled(now, c, e) && i < |c.leases| && Harmless(e, i) && Unopposed(c, i)
    ensures i < |Apply(md5, now, c, e).leases| && Unopposed(Apply(md5, now, c, e), i)
  {
    if About(e, i) {
      assert LeaseAfter(md5, c, c.leases[i], e).replyLost == c.leases[i].replyLost;
    }
  }

  lemma {:induction false} HarmlessRun(md5: Md5, c: Cell, steps: seq<Step>, c': Cell, i: nat)
    requires Run(md5, c, steps, c') && i < |c.leases| && Unopposed(c, i)
    requires forall k :: 0 <= k < |steps| ==> Harmless(steps[k].event, i)
    ensures i < |c'.leases| && Unopposed(c', i)
    decreases |steps|
  {
    if steps != [] {
      HarmlessStep(md5, steps[0].now, c, steps[0].event, i);
      HarmlessRun(md5, Apply(md5, steps[0].now, c, steps[0].event), steps[1..], c', i);
    }
  }

  lemma {:induction false} RunTail(md5: Md5, c: Cell, first: seq<Step>, mid: Cell, steps: seq<Step>, c': Cell)
    requires first <= steps && Run(md5, c, first, mid) && Run(md5, c, steps, c')
    ensures Run(md5, mid, steps[|first|..], c')
    decreases |first|
  {
    if first != [] {
      RunTail(md5, Apply(md5, steps[0].now, c, steps[0].event), first[1..], mid, steps[1..], c');
      assert steps[1..][|first| - 1..] == steps[|first|..];
    }
  }

  /** In a calm world an execution stays unopposed. */
  lemma CalmStaysUnopposed(md5: Md5, c: Cell, begun: seq<Step>, mid: Cell, steps: seq<Step>, c': Cell, w: World, i: nat)
    requires Run(md5, c, begun, mid) && Run(md5, c, steps, c') && Extends(begun, steps, w, i)
    requires i < |mid.leases| && Unopposed(mid, i)
    ensures Calm(w, i) ==> i < |c'.leases| && Unopposed(c', i)
  {
    if Calm(w, i) {
      RunTail(md5, c, begun, mid, steps, c');
      forall k | 0 <= k < |steps[|begun|..]| ensures Harmless(steps[|begun|..][k].event, i) {
        assert steps[|begun|..][k] == steps[|begun| + k];
      }
      HarmlessRun(md5, mid, steps[|begun|..], c', i);
    }
  }

  /** A `CancelledError` arrives while the execution waits for a settlement. */
  predicate SettlementCancelled(w: World) {
    w.copy.cancelled || w.copyReply.cancelled || w.settle.cancelled || w.reply.cancelled
  }

  /** How the callback ended; `None` is a `CancelledError`. */
  function EndOf(w: World): Option<CallbackEnd> {
    if w.callback.cancelled then w.afterCancel else w.callbackEnd
  }

  /** The outcome of a callback that did not end by a `CancelledError`. When the outer task was cancelled
      the callback is cancelled too; one that returns nevertheless makes `lock_lost_task in done`
      raise, as `done` is unbound. */
  function OutcomeOf(w: World): Outcome {
    match EndOf(w)
    case Some(Returns) => if w.callback.cancelled then Failed else Succeeded
    case Some(RaisesWorkerCanceled) => Canceled
    case _ => Failed
  }

  /** The same by name: a success is a callback that returns uncancelled, a cancellation one that raises
      `WorkerCanceled`, and everything else is a failure, also a callback that returns although it was cancelled. */
  predicate EndsAs(w: World, outcome: Outcome) {
    match outcome
    case Succeeded => !w.callback.cancelled && w.callbackEnd == Some(Returns)
    case Canceled =>
      || (!w.callback.cancelled && w.callbackEnd == Some(RaisesWorkerCanceled))
      || (w.callback.cancelled && w.afterCancel == Some(RaisesWorkerCanceled))
    case Failed =>
      || (!w.callback.cancelled && w.callbackEnd == Some(Raises))
      || (w.callback.cancelled && w.afterCancel in {Some(Raises), Some(Returns)})
  }

  /** The settlement request could not be sent, or its reply did not arrive. */
  predicate SettleFails(w: World) {
    w.settleFails || w.replyFails
  }

  /** The copy for the dead-letter queue could not be stored, or not be acknowledged. */
  predicate CopyFails(w: World) {
    w.copyFails || w.copyReplyFails
  }

  /** Nobody else received the message since lease `i` did, and none of its heartbeat replies was lost. */
  predicate Unopposed(c: Cell, i: nat)
    requires i < |c.leases|
  {
    c.lastReceiver == Some(i) && !c.leases[i].replyLost
  }

  ghost predicate Applied(c: Cell, req: Request, now: nat) {
    match req
    case Delete(_) => c.entry.None?
    case Update(_, content, _) =>
      c.entry.Some? && c.entry.value.content == content && c.entry.value.visibleAt == now
  }

  ghost predicate Requeued(md5: Md5, c: Cell, t: Task, now: nat) {
    c.entry.Some? && c.entry.value.content == t.Serialize(md5) && c.entry.value.visibleAt == now
  }

  /** The documented result of one execution whose requests all came through: success deletes the
      message; failure puts it back with one retry less or, with none left, moves it to the
      dead-letter queue; cancellation puts it back unchanged; a lost lock is not possible. */
  ghost predicate Documented(md5: Md5, w: World, outcome: Outcome, t: Task, r: Exit, c: Cell) {
    match outcome
    case Canceled =>
      r == RaisedWorkerCanceled && (!SettleFails(w) ==> Requeued(md5, c, t, w.now))
    case Succeeded =>
      r == ReturnedTrue && (!SettleFails(w) && !t.replyRequested ==> c.entry.None?)
    case Failed =>
      if t.numRetries > 0 then
        && (r == ReturnedFalse <==> !SettleFails(w))
        && (r == ReturnedFalse ==> Requeued(md5, c, t.(numRetries := t.numRetries - 1), w.now))
      else if t.replyRequested then r == RaisedError
      else
        && (r == ReturnedFalse <==> !CopyFails(w) && !SettleFails(w))
        && (r == ReturnedFalse ==> c.entry.None? && t.Serialize(md5) in c.dead)
  }
}
