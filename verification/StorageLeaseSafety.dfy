/** Properties of every run of the Storage Queue lease protocol. */
module StorageLeaseSafety {
  import opened Basics
  import opened Entities
  import opened StorageLease

  // ---- runs ----

  datatype Step = Step(now: nat, event: Event)

  ghost predicate Run(md5: Md5, c: Cell, steps: seq<Step>, c': Cell)
    decreases |steps|
  {
    if steps == [] then c == c'
    else
      && Enabled(steps[0].now, c, steps[0].event)
      && Run(md5, Apply(md5, steps[0].now, c, steps[0].event), steps[1..], c')
  }

  lemma {:induction false} RunAppend(md5: Md5, c: Cell, steps: seq<Step>, mid: Cell, more: seq<Step>, c': Cell)
    requires Run(md5, c, steps, mid) && Run(md5, mid, more, c')
    ensures Run(md5, c, steps + more, c')
    decreases |steps|
  {
    if steps == [] {
      assert steps + more == more;
    } else {
      RunAppend(md5, Apply(md5, steps[0].now, c, steps[0].event), steps[1..], mid, more, c');
      assert (steps + more)[1..] == steps[1..] + more;
    }
  }

  // ---- what a step leaves alone ----

  ghost predicate Frame(c: Cell, e: Event, c': Cell) {
    && BrokerFrame(c, e, c')
    && |c.leases| <= |c'.leases|
    && (forall i :: 0 <= i < |c.leases| && !About(e, i) ==> c'.leases[i] == c.leases[i])
    && (forall i :: 0 <= i < |c.leases| ==> LeaseMonotone(c.leases[i], c'.leases[i]))
  }

  ghost predicate BrokerFrame(c: Cell, e: Event, c': Cell) {
    && c'.pushed == c.pushed && c.replaced <= c'.replaced && c.nextReceipt <= c'.nextReceipt
    && (c.returned ==> c'.returned) && c.dead <= c'.dead && c.strays <= c'.strays
    && c'.lastReceiver == (if e.Receive? then Some(|c.leases|) else c.lastReceiver)
    && ((c'.entry == c.entry && !e.Receive?) || c'.entry.None? || c'.entry.value.receipt >= c.nextReceipt)
  }

  ghost predicate LeaseMonotone(l: Lease, l': Lease) {
    (l.replyLost ==> l'.replyLost) && (l.pc.Exited? ==> l'.pc == l.pc)
  }

  lemma BrokerFrameStep(md5: Md5, now: nat, c: Cell, e: Event)
    requires Enabled(now, c, e)
    ensures BrokerFrame(c, e, Apply(md5, now, c, e))
  {
  }

  /** Only the lease a step is about may change, and only forwards. */
  lemma LeaseFrame(leases: seq<Lease>, i: nat, l: Lease)
    requires i < |leases| && LeaseMonotone(leases[i], l)
    ensures forall k :: 0 <= k < |leases| ==> LeaseMonotone(leases[k], leases[i := l][k])
    ensures forall k :: 0 <= k < |leases| && k != i ==> leases[i := l][k] == leases[k]
  {
  }

  lemma FrameStep(md5: Md5, now: nat, c: Cell, e: Event)
    requires Enabled(now, c, e)
    ensures Frame(c, e, Apply(md5, now, c, e))
    ensures !e.Receive? ==> |Apply(md5, now, c, e).leases| == |c.leases|
  {
    var c' := Apply(md5, now, c, e);
    BrokerFrameStep(md5, now, c, e);
    if OfLease(e) {
      if OfHeartbeat(e) {
        HeartbeatMonotoneStep(md5, now, c, e);
      } else {
        CoroutineMonotoneStep(md5, now, c, e);
      }
      LeaseFrame(c.leases, e.i, c'.leases[e.i]);
    }
  }

  lemma HeartbeatMonotoneStep(md5: Md5, now: nat, c: Cell, e: Event)
    requires Enabled(now, c, e) && OfHeartbeat(e)
    ensures var c' := Apply(md5, now, c, e);
            && c'.leases == c.leases[e.i := c'.leases[e.i]]
            && LeaseMonotone(c.leases[e.i], c'.leases[e.i])
            && c'.leases[e.i].pc == c.leases[e.i].pc && c'.leases[e.i].task == c.leases[e.i].task
  {
  }

  lemma CoroutineMonotoneStep(md5: Md5, now: nat, c: Cell, e: Event)
    requires Enabled(now, c, e) && OfLease(e) && !OfHeartbeat(e)
    ensures var c' := Apply(md5, now, c, e);
            c'.leases == c.leases[e.i := c'.leases[e.i]] && LeaseMonotone(c.leases[e.i], c'.leases[e.i])
  {
  }

  // ---- no task is lost ----

  /** The message is still queued, or was executed to a normal return, or has a dead-letter copy. */
  ghost predicate Kept(c: Cell) {
    c.entry.Some? || Accounted(c)
  }

  ghost predicate Accounted(c: Cell) {
    c.returned || c.dead != []
  }

  ghost predicate MayDelete(pc: Pc) {
    || (pc.Stopping? && pc.outcome.Succeeded? && !pc.sawLost)
    || pc.DeadLettered?
    || (pc.Settling? && pc.req.Delete?)
  }

  /** Whoever is about to delete the message knows it is accounted for. */
  ghost predicate DeletionsAccounted(c: Cell) {
    && (forall i :: 0 <= i < |c.leases| && MayDelete(c.leases[i].pc) ==> Accounted(c))
    && (forall s :: s in c.strays && s.LateSettlement? && s.req.Delete? ==> Accounted(c))
  }

  lemma DeleterStep(md5: Md5, now: nat, c: Cell, e: Event)
    requires Enabled(now, c, e) && OfLease(e)
    requires MayDelete(c.leases[e.i].pc) ==> Accounted(c)
    ensures var c' := Apply(md5, now, c, e); MayDelete(c'.leases[e.i].pc) ==> Accounted(c')
  {
    if OfHeartbeat(e) {
      HeartbeatMonotoneStep(md5, now, c, e);
    }
  }

  lemma LateDeletionStep(md5: Md5, now: nat, c: Cell, e: Event, s: Stray)
    requires Enabled(now, c, e) && OfLease(e)
    requires MayDelete(c.leases[e.i].pc) ==> Accounted(c)
    requires s in Apply(md5, now, c, e).strays && s !in c.strays && s.LateSettlement? && s.req.Delete?
    ensures Accounted(Apply(md5, now, c, e))
  {
  }

  /** Only somebody who knows the message accounted for takes it off the queue. */
  lemma EntryStep(md5: Md5, now: nat, c: Cell, e: Event)
    requires Enabled(now, c, e)
    requires Kept(c) && DeletionsAccounted(c)
    ensures Kept(Apply(md5, now, c, e))
  {
    if e.SettlementDecided? {
      assert MayDelete(c.leases[e.i].pc) ==> Accounted(c);
    }
  }

  lemma KeptStep(md5: Md5, now: nat, c: Cell, e: Event)
    requires Enabled(now, c, e)
    requires Kept(c) && DeletionsAccounted(c)
    ensures Kept(Apply(md5, now, c, e)) && DeletionsAccounted(Apply(md5, now, c, e))
  {
    var c' := Apply(md5, now, c, e);
    EntryStep(md5, now, c, e);
    FrameStep(md5, now, c, e);
    if OfLease(e) {
      assert MayDelete(c.leases[e.i].pc) ==> Accounted(c);
      DeleterStep(md5, now, c, e);
    }
    forall s | s in c'.strays && s.LateSettlement? && s.req.Delete? ensures Accounted(c') {
      if s !in c.strays {
        LateDeletionStep(md5, now, c, e, s);
      }
    }
  }

  // ---- receipts ----

  ghost function Retries(d: Document): int {
    match d
    case V1(_, body) => body.numRetries
    case V0(_, _, n) => n
    case Unreadable => 0
  }

  /** Holding the current receipt means: last receiver, with up-to-date content. */
  ghost predicate Holds(c: Cell, owner: nat, receipt: nat, retries: int) {
    && receipt < c.nextReceipt
    && (Current(c, receipt) ==> c.lastReceiver == Some(owner) && retries == Retries(c.entry.value.content))
  }

  ghost predicate RequestMatches(req: Request, retries: int) {
    req.Update? ==>
      if req.retry then retries > 0 && Retries(req.content) == retries - 1
      else Retries(req.content) == retries
  }

  ghost predicate CleanExit(how: Exit) {
    !how.Aborted? && !how.BadPayload?
  }

  ghost predicate LeaseOk(c: Cell, i: nat)
    requires i < |c.leases|
  {
    var l := c.leases[i];
    && (l.pc == Exited(BadPayload) || Holds(c, i, l.receipt, l.task.numRetries))
    && (l.pc == Exited(BadPayload) ==> Holds(c, i, l.receipt, 0))
    && (l.heartbeat.Sending? ==> l.heartbeat.used == l.receipt)
    && (l.heartbeat.Renewed? ==>
          Holds(c, i, l.heartbeat.next, if l.pc == Exited(BadPayload) then 0 else l.task.numRetries))
    && (l.pc.Stopping? ==> l.cancelRequested)
    && (l.pc.DeadLettering? || l.pc.DeadLettered? || l.pc.Settling? || l.pc.Settled? ==> HeartbeatOver(l.heartbeat))
    && (l.pc.Exited? && CleanExit(l.pc.how) ==> HeartbeatOver(l.heartbeat))
    && (l.pc.Settling? ==> l.pc.req.receipt == l.receipt && RequestMatches(l.pc.req, l.task.numRetries))
  }

  ghost predicate StrayOk(c: Cell, s: Stray) {
    match s
    case LateHeartbeat(owner, receipt, _) =>
      && owner < |c.leases| && receipt < c.nextReceipt
      && (Current(c, receipt) ==> c.lastReceiver == Some(owner) && c.leases[owner].replyLost)
    case LateSettlement(owner, req) =>
      && owner < |c.leases| && req.receipt < c.nextReceipt
      && (Current(c, req.receipt) ==>
            && c.lastReceiver == Some(owner)
            && c.leases[owner].pc.Exited?
            && RequestMatches(req, Retries(c.entry.value.content)))
    case LateDeadLetter(_) => true
  }

  /** `num_retries` of the queued content plus the accepted `replace` calls is constant. */
  ghost predicate BudgetKept(c: Cell) {
    && (c.entry.Some? ==>
          && c.entry.value.receipt < c.nextReceipt
          && Retries(c.entry.value.content) + c.replaced == Retries(c.pushed))
    && (Retries(c.pushed) >= 0 ==> c.replaced <= Retries(c.pushed))
    && (Retries(c.pushed) < 0 ==> c.replaced == 0)
  }

  ghost predicate ReceiptsOk(c: Cell) {
    && BudgetKept(c)
    && (forall i :: 0 <= i < |c.leases| ==> LeaseOk(c, i))
    && (forall s :: s in c.strays ==> StrayOk(c, s))
  }

  lemma BudgetStep(md5: Md5, now: nat, c: Cell, e: Event)
    requires Enabled(now, c, e)
    requires ReceiptsOk(c)
    ensures BudgetKept(Apply(md5, now, c, e))
  {
    if e.StrayArrives? {
      assert StrayOk(c, e.stray);
    } else if e.SettlementDecided? {
      assert LeaseOk(c, e.i);
    }
  }

  /** A lease the step is not about keeps its receipt, which at most became stale. */
  lemma BystanderOk(c: Cell, e: Event, c': Cell, i: nat)
    requires Frame(c, e, c') && i < |c.leases| && !About(e, i) && LeaseOk(c, i)
    ensures LeaseOk(c', i)
  {
  }

  lemma OldStrayOk(c: Cell, e: Event, c': Cell, s: Stray)
    requires Frame(c, e, c') && StrayOk(c, s)
    ensures StrayOk(c', s)
  {
    if !s.LateDeadLetter? {
      assert LeaseMonotone(c.leases[s.owner], c'.leases[s.owner]);
    }
  }

  lemma OwnCoroutineStep(md5: Md5, now: nat, c: Cell, e: Event)
    requires Enabled(now, c, e)
    requires OfLease(e) && !OfHeartbeat(e)
    requires LeaseOk(c, e.i)
    ensures LeaseOk(Apply(md5, now, c, e), e.i)
  {
  }

  lemma OwnHeartbeatStep(md5: Md5, now: nat, c: Cell, e: Event)
    requires Enabled(now, c, e) && OfHeartbeat(e)
    requires LeaseOk(c, e.i)
    ensures LeaseOk(Apply(md5, now, c, e), e.i)
  {
  }

  lemma NewStrayOk(md5: Md5, now: nat, c: Cell, e: Event, s: Stray)
    requires Enabled(now, c, e) && OfLease(e)
    requires LeaseOk(c, e.i)
    requires s in Apply(md5, now, c, e).strays && s !in c.strays
    ensures StrayOk(Apply(md5, now, c, e), s)
  {
  }

  lemma ReceiptsStep(md5: Md5, now: nat, c: Cell, e: Event)
    requires Enabled(now, c, e)
    requires ReceiptsOk(c)
    ensures ReceiptsOk(Apply(md5, now, c, e))
  {
    var c' := Apply(md5, now, c, e);
    BudgetStep(md5, now, c, e);
    FrameStep(md5, now, c, e);
    forall i | 0 <= i < |c'.leases| ensures LeaseOk(c', i) {
      if i == |c.leases| {
        NewLeaseOk(md5, now, c, e);
      } else if !About(e, i) {
        BystanderOk(c, e, c', i);
      } else if OfHeartbeat(e) {
        OwnHeartbeatStep(md5, now, c, e);
      } else {
        OwnCoroutineStep(md5, now, c, e);
      }
    }
    forall s | s in c'.strays ensures StrayOk(c', s) {
      if s in c.strays {
        OldStrayOk(c, e, c', s);
      } else {
        NewStrayOk(md5, now, c, e, s);
      }
    }
  }

  lemma NewLeaseOk(md5: Md5, now: nat, c: Cell, e: Event)
    requires Enabled(now, c, e) && |Apply(md5, now, c, e).leases| > |c.leases|
    ensures |Apply(md5, now, c, e).leases| == |c.leases| + 1 && LeaseOk(Apply(md5, now, c, e), |c.leases|)
  {
  }

  // ---- the job survives ----

  ghost predicate LeaseKeepsJob(md5: Md5, c: Cell, l: Lease) {
    && (l.pc != Exited(BadPayload) ==>
          && l.task.id.Some? && l.task.id != Some("")
          && JobOf(md5, l.task.Serialize(md5)) == JobOf(md5, c.pushed))
    && (l.pc.Settling? && l.pc.req.Update? ==> Carries(md5, c, l.pc.req.content))
  }

  ghost predicate Carries(md5: Md5, c: Cell, d: Document) {
    Identified(d) && JobOf(md5, d) == JobOf(md5, c.pushed)
  }

  ghost predicate StrayKeepsJob(md5: Md5, c: Cell, s: Stray) {
    match s
    case LateHeartbeat(_, _, _) => true
    case LateSettlement(_, req) => req.Update? ==> Carries(md5, c, req.content)
    case LateDeadLetter(copy) => Carries(md5, c, copy)
  }

  ghost predicate JobKept(md5: Md5, c: Cell) {
    && (c.entry.Some? ==> Carries(md5, c, c.entry.value.content))
    && (forall i :: 0 <= i < |c.leases| ==> LeaseKeepsJob(md5, c, c.leases[i]))
    && (forall s :: s in c.strays ==> StrayKeepsJob(md5, c, s))
    && (forall d :: d in c.dead ==> Carries(md5, c, d))
  }

  lemma RetriesDoNotMatter(md5: Md5, t: Task, retries: int)
    requires t.id.Some? && t.id != Some("")
    ensures JobOf(md5, t.(numRetries := retries).Serialize(md5)) == JobOf(md5, t.Serialize(md5))
    ensures Identified(t.(numRetries := retries).Serialize(md5))
  {
  }

  /** Only `AfterHeartbeat` writes new content into a request; nothing changes the task of a lease. */
  lemma TaskStays(md5: Md5, now: nat, c: Cell, e: Event)
    requires Enabled(now, c, e)
    requires OfLease(e) && !OfHeartbeat(e) && !e.HeartbeatCanceled?
    ensures var l, l' := c.leases[e.i], Apply(md5, now, c, e).leases[e.i];
            l'.task == l.task && (l'.pc.Settling? ==> l'.pc.req.Delete?)
  {
  }

  lemma BadPayloadStays(md5: Md5, now: nat, c: Cell, e: Event)
    requires Enabled(now, c, e)
    requires OfLease(e) && !OfHeartbeat(e)
    ensures c.leases[e.i].pc == Exited(BadPayload) <==> Apply(md5, now, c, e).leases[e.i].pc == Exited(BadPayload)
  {
    if !c.leases[e.i].pc.Exited? {
      assert !e.HeartbeatCanceled? ==> Apply(md5, now, c, e).leases[e.i].pc != Exited(BadPayload);
    }
  }

  lemma JobAfterHeartbeat(md5: Md5, c: Cell, l: Lease)
    requires l.pc.Stopping? && LeaseKeepsJob(md5, c, l)
    ensures LeaseKeepsJob(md5, c, l.(pc := AfterHeartbeat(md5, l.pc, l.task, l.receipt)))
  {
    RetriesDoNotMatter(md5, l.task, l.task.numRetries - 1);
    RetriesDoNotMatter(md5, l.task, l.task.numRetries);
    assert l.task.(numRetries := l.task.numRetries) == l.task;
  }

  /** The lease an event is about, before and after. */
  lemma JobOwnStep(md5: Md5, now: nat, c: Cell, e: Event)
    requires Enabled(now, c, e)
    requires OfLease(e)
    requires LeaseKeepsJob(md5, c, c.leases[e.i])
    ensures LeaseKeepsJob(md5, c, Apply(md5, now, c, e).leases[e.i])
  {
    if e.HeartbeatCanceled? {
      JobAfterHeartbeat(md5, c, c.leases[e.i]);
    } else if OfHeartbeat(e) {
      HeartbeatMonotoneStep(md5, now, c, e);
    } else {
      TaskStays(md5, now, c, e);
      BadPayloadStays(md5, now, c, e);
    }
  }

  lemma JobReceiveStep(md5: Md5, now: nat, c: Cell, e: Event)
    requires Enabled(now, c, e)
    requires JobKept(md5, c)
    requires e.Receive?
    ensures LeaseKeepsJob(md5, c, ReceiveLease(c, e))
  {
    var content := c.entry.value.content;
    if Deserialize(content).Some? {
      var t := Deserialize(content).value;
      DeliveryKeepsJob(md5, content, e.sig, e.worker, t.numRetries);
      assert InjectArguments(t, e.sig, e.worker).(numRetries := t.numRetries) == InjectArguments(t, e.sig, e.worker);
    }
  }

  lemma JobBrokerStep(md5: Md5, now: nat, c: Cell, e: Event)
    requires Enabled(now, c, e)
    requires JobKept(md5, c)
    ensures var c' := Apply(md5, now, c, e);
            && c'.pushed == c.pushed
            && (c'.entry.Some? ==> Carries(md5, c, c'.entry.value.content))
            && (forall s :: s in c'.strays ==> StrayKeepsJob(md5, c, s))
            && (forall d :: d in c'.dead ==> Carries(md5, c, d))
  {
    if e.StrayArrives? {
      assert StrayKeepsJob(md5, c, e.stray);
    } else if !e.Receive? {
      var l := c.leases[e.i];
      assert LeaseKeepsJob(md5, c, l);
      if l.pc != Exited(BadPayload) {
        RetriesDoNotMatter(md5, l.task, l.task.numRetries);
        assert l.task.(numRetries := l.task.numRetries) == l.task;
      }
    }
  }

  lemma JobLeaseStep(md5: Md5, now: nat, c: Cell, e: Event, i: nat)
    requires Enabled(now, c, e)
    requires JobKept(md5, c)
    requires i < |Apply(md5, now, c, e).leases|
    ensures LeaseKeepsJob(md5, c, Apply(md5, now, c, e).leases[i])
  {
    if i == |c.leases| {
      JobReceiveStep(md5, now, c, e);
    } else {
      FrameStep(md5, now, c, e);
      assert LeaseKeepsJob(md5, c, c.leases[i]);
      if About(e, i) {
        JobOwnStep(md5, now, c, e);
      }
    }
  }

  lemma JobStep(md5: Md5, now: nat, c: Cell, e: Event)
    requires Enabled(now, c, e)
    requires JobKept(md5, c)
    ensures JobKept(md5, Apply(md5, now, c, e))
  {
    var c' := Apply(md5, now, c, e);
    JobBrokerStep(md5, now, c, e);
    forall i | 0 <= i < |c'.leases| ensures LeaseKeepsJob(md5, c, c'.leases[i]) {
      JobLeaseStep(md5, now, c, e, i);
    }
    JobOfPushed(md5, c, c');
  }

  lemma JobOfPushed(md5: Md5, c: Cell, c': Cell)
    requires c'.pushed == c.pushed
    ensures forall l :: LeaseKeepsJob(md5, c, l) ==> LeaseKeepsJob(md5, c', l)
    ensures forall s :: StrayKeepsJob(md5, c, s) ==> StrayKeepsJob(md5, c', s)
    ensures forall d :: Carries(md5, c, d) ==> Carries(md5, c', d)
  {
  }

  // ---- giving up ----

  ghost predicate GivesUpOnlyWhenSpent(c: Cell, l: Lease) {
    && (l.pc == Exited(BadPayload) || l.task.numRetries + c.replaced >= Retries(c.pushed))
    && (l.pc.DeadLettering? ==> l.task.numRetries <= 0)
  }

  /** A dead-letter copy is made only after the whole retry budget was spent. */
  ghost predicate GivesUpLate(c: Cell) {
    && (forall i :: 0 <= i < |c.leases| ==> GivesUpOnlyWhenSpent(c, c.leases[i]))
    && (forall s :: s in c.strays && s.LateDeadLetter? ==> c.replaced >= Retries(c.pushed))
    && (c.dead != [] ==> c.replaced >= Retries(c.pushed))
  }

  lemma GiveUpOwnStep(md5: Md5, now: nat, c: Cell, e: Event)
    requires Enabled(now, c, e)
    requires OfLease(e)
    requires GivesUpOnlyWhenSpent(c, c.leases[e.i])
    ensures var c' := Apply(md5, now, c, e);
            c'.leases == c.leases[e.i := c'.leases[e.i]] && GivesUpOnlyWhenSpent(c', c'.leases[e.i])
  {
  }

  lemma GiveUpLeaseStep(md5: Md5, now: nat, c: Cell, e: Event, i: nat)
    requires Enabled(now, c, e)
    requires BudgetKept(c) && GivesUpLate(c)
    requires i < |Apply(md5, now, c, e).leases|
    ensures var c' := Apply(md5, now, c, e); GivesUpOnlyWhenSpent(c', c'.leases[i])
  {
    FrameStep(md5, now, c, e);
    assert i < |c.leases| ==> GivesUpOnlyWhenSpent(c, c.leases[i]);
    if i < |c.leases| && About(e, i) {
      GiveUpOwnStep(md5, now, c, e);
    }
  }

  lemma GiveUpStep(md5: Md5, now: nat, c: Cell, e: Event)
    requires Enabled(now, c, e)
    requires BudgetKept(c) && GivesUpLate(c)
    ensures GivesUpLate(Apply(md5, now, c, e))
  {
    forall i | 0 <= i < |Apply(md5, now, c, e).leases|
      ensures var c' := Apply(md5, now, c, e); GivesUpOnlyWhenSpent(c', c'.leases[i])
    {
      GiveUpLeaseStep(md5, now, c, e, i);
    }
    GiveUpCopiesStep(md5, now, c, e);
  }

  lemma GiveUpCopiesStep(md5: Md5, now: nat, c: Cell, e: Event)
    requires Enabled(now, c, e)
    requires GivesUpLate(c)
    ensures var c' := Apply(md5, now, c, e);
            && (forall s :: s in c'.strays && s.LateDeadLetter? ==> c'.replaced >= Retries(c'.pushed))
            && (c'.dead != [] ==> c'.replaced >= Retries(c'.pushed))
  {
    if OfLease(e) {
      assert GivesUpOnlyWhenSpent(c, c.leases[e.i]);
    }
  }

  // ---- heartbeat hand-over ----

  /** Lease `i` was the last to receive the message, knows the fate of all its
      updates, and its own settlement has not been decided yet. */
  ghost predicate Owns(c: Cell, i: nat)
    requires i < |c.leases|
  {
    && c.lastReceiver == Some(i)
    && !c.leases[i].replyLost
    && !c.leases[i].pc.Exited?
    && !c.leases[i].pc.Settled?
  }

  ghost predicate ReceiptCurrent(c: Cell, l: Lease) {
    && !l.lockLost
    && !l.heartbeat.Refused?
    && if l.heartbeat.Renewed? then Current(c, l.heartbeat.next) else Current(c, l.receipt)
  }

  ghost predicate OwnersCurrent(c: Cell) {
    forall i :: 0 <= i < |c.leases| && Owns(c, i) ==> ReceiptCurrent(c, c.leases[i])
  }

  /** Nobody but the last receiver changes the message, or a late request of a lease that
      lost a reply or is over. */
  lemma OnlyHolderWrites(md5: Md5, now: nat, c: Cell, e: Event, i: nat)
    requires Enabled(now, c, e) && ReceiptsOk(c)
    requires i < |c.leases| && !About(e, i) && !e.Receive?
    requires c.lastReceiver == Some(i) && !c.leases[i].replyLost && !c.leases[i].pc.Exited?
    ensures Apply(md5, now, c, e).entry == c.entry
  {
    if e.StrayArrives? {
      assert StrayOk(c, e.stray);
    } else {
      assert LeaseOk(c, e.i);
    }
  }

  lemma OwnersHeartbeatStep(md5: Md5, now: nat, c: Cell, e: Event)
    requires Enabled(now, c, e) && OfHeartbeat(e)
    requires LeaseOk(c, e.i) && (Owns(c, e.i) ==> ReceiptCurrent(c, c.leases[e.i]))
    ensures var c' := Apply(md5, now, c, e); Owns(c', e.i) ==> ReceiptCurrent(c', c'.leases[e.i])
  {
  }

  lemma OwnersCoroutineStep(md5: Md5, now: nat, c: Cell, e: Event)
    requires Enabled(now, c, e) && OfLease(e) && !OfHeartbeat(e)
    requires Owns(c, e.i) ==> ReceiptCurrent(c, c.leases[e.i])
    ensures var c' := Apply(md5, now, c, e); Owns(c', e.i) ==> ReceiptCurrent(c', c'.leases[e.i])
  {
  }

  lemma OwnerStep(md5: Md5, now: nat, c: Cell, e: Event, i: nat)
    requires Enabled(now, c, e)
    requires ReceiptsOk(c) && OwnersCurrent(c)
    requires i < |c.leases|
    ensures var c' := Apply(md5, now, c, e);
            i < |c'.leases| && (Owns(c', i) ==> ReceiptCurrent(c', c'.leases[i]))
  {
    FrameStep(md5, now, c, e);
    if About(e, i) {
      assert LeaseOk(c, i);
      if OfHeartbeat(e) {
        OwnersHeartbeatStep(md5, now, c, e);
      } else {
        OwnersCoroutineStep(md5, now, c, e);
      }
    } else if Owns(Apply(md5, now, c, e), i) {
      OnlyHolderWrites(md5, now, c, e, i);
    }
  }

  lemma OwnersStep(md5: Md5, now: nat, c: Cell, e: Event)
    requires Enabled(now, c, e)
    requires ReceiptsOk(c) && OwnersCurrent(c)
    ensures OwnersCurrent(Apply(md5, now, c, e))
  {
    var c' := Apply(md5, now, c, e);
    forall i | 0 <= i < |c'.leases| ensures Owns(c', i) ==> ReceiptCurrent(c', c'.leases[i]) {
      if i < |c.leases| {
        OwnerStep(md5, now, c, e, i);
      }
    }
  }

  // ---- all runs ----

  ghost predicate Inv(md5: Md5, c: Cell) {
    && Kept(c) && DeletionsAccounted(c)
    && ReceiptsOk(c)
    && (Identified(c.pushed) ==> JobKept(md5, c))
    && GivesUpLate(c)
    && OwnersCurrent(c)
  }

  lemma InvStep(md5: Md5, now: nat, c: Cell, e: Event)
    requires Enabled(now, c, e) && Inv(md5, c)
    ensures Inv(md5, Apply(md5, now, c, e)) && Apply(md5, now, c, e).pushed == c.pushed
  {
    FrameStep(md5, now, c, e);
    KeptStep(md5, now, c, e);
    ReceiptsStep(md5, now, c, e);
    if Identified(c.pushed) {
      JobStep(md5, now, c, e);
    }
    GiveUpStep(md5, now, c, e);
    OwnersStep(md5, now, c, e);
  }

  lemma {:induction false} InvRun(md5: Md5, c: Cell, steps: seq<Step>, c': Cell)
    requires Inv(md5, c) && Run(md5, c, steps, c')
    ensures Inv(md5, c') && c'.pushed == c.pushed
    decreases |steps|
  {
    if steps != [] {
      InvStep(md5, steps[0].now, c, steps[0].event);
      InvRun(md5, Apply(md5, steps[0].now, c, steps[0].event), steps[1..], c');
    }
  }
}
