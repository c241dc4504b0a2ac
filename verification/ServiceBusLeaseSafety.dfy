/** Properties of every run of the Service Bus lease protocol. */
module ServiceBusLeaseSafety {
  import opened Basics
  import opened Entities
  import opened ServiceBusLease

  /** `reply_requested` and `num_retries` of the content. */
  ghost predicate Wants(d: Document) {
    d.V1? && d.body.replyRequested
  }

  ghost function Budget(d: Document): int {
    match d
    case V1(_, body) => body.numRetries
    case V0(_, _, n) => n
    case Unreadable => 0
  }

  // ---- leases ----

  ghost predicate Allowed(returned: bool, pushed: Document, req: Request) {
    match req
    case Complete => returned && !Wants(pushed)
    case DeadLetter => Budget(pushed) <= 0 && !Wants(pushed)
    case Unlock => true
  }

  /** What an exit of `pull_and_execute` tells its caller. */
  ghost predicate Honest(returned: bool, pushed: Document, how: Exit) {
    match how
    case ReturnedTrue => returned
    case ReturnedFalse => !Wants(pushed) || Budget(pushed) > 0
    case RaisedError => Wants(pushed) && Budget(pushed) <= 0
    case BadPayload => Deserialize(pushed).None?
    case _ => true
  }

  ghost predicate LeaseOk(returned: bool, pushed: Document, l: Lease) {
    && (l.pc.Leaving? || l.pc.Exited? ==> Honest(returned, pushed, l.pc.how))
    && (l.pc.Settling? || l.pc.Settled? ==>
          && (l.pc.outcome.Succeeded? ==> returned)
          && (l.pc.outcome.Failed? ==> !Wants(pushed)))
    && (!l.pc.Leaving? && !l.pc.Exited? ==> Deserialize(pushed) == Some(l.task))
    && (l.pc.Stopping? && l.pc.outcome.Succeeded? && !l.pc.sawLost ==> returned)
    && (l.pc.Settling? ==> Allowed(returned, pushed, l.pc.req))
    && (l.pc.Stopping? || l.pc.Leaving? ==> l.stop)
    && (l.pc.Settling? || l.pc.Settled? || l.pc.Exited? ==> Over(l.renewal))
  }

  lemma RenewalKeepsLease(returned: bool, pushed: Document, l: Lease, e: Event, held: bool, now: nat)
    requires OfRenewal(e) && Possible(l, e) && LeaseOk(returned, pushed, l)
    ensures LeaseOk(returned, pushed, LeaseAfter(l, e, held, now))
  {
  }

  lemma CallbackKeepsLease(returned: bool, pushed: Document, l: Lease, e: Event, held: bool, now: nat)
    requires e.CallbackReturned? || e.CallbackRaised? || e.CallbackCanceled? || e.LockLossNoticed?
    requires Possible(l, e) && LeaseOk(returned, pushed, l)
    ensures LeaseOk(returned || e.CallbackReturned?, pushed, LeaseAfter(l, e, held, now))
  {
  }

  lemma HeartbeatEndKeepsLease(returned: bool, pushed: Document, l: Lease, e: Event, held: bool, now: nat)
    requires e.RenewalStopped? && Possible(l, e) && LeaseOk(returned, pushed, l)
    ensures LeaseOk(returned, pushed, LeaseAfter(l, e, held, now))
  {
  }

  lemma SettlementKeepsLease(returned: bool, pushed: Document, l: Lease, e: Event, held: bool, now: nat)
    requires e.SettlementResent? || e.SettlementDecided? || e.SettlementReplied? || e.SettlementFailed?
    requires Possible(l, e) && LeaseOk(returned, pushed, l)
    ensures LeaseOk(returned, pushed, LeaseAfter(l, e, held, now))
  {
  }

  lemma ExitKeepsLease(returned: bool, pushed: Document, l: Lease, e: Event, held: bool, now: nat)
    requires e.Abort? || e.CleanedUp? || e.Crash?
    requires Possible(l, e) && LeaseOk(returned, pushed, l)
    ensures LeaseOk(returned, pushed, LeaseAfter(l, e, held, now))
  {
  }

  lemma OwnStep(returned: bool, pushed: Document, l: Lease, e: Event, held: bool, now: nat)
    requires OfLease(e) && Possible(l, e) && LeaseOk(returned, pushed, l)
    ensures LeaseOk(returned || e.CallbackReturned?, pushed, LeaseAfter(l, e, held, now))
  {
    if OfRenewal(e) {
      RenewalKeepsLease(returned, pushed, l, e, held, now);
    } else if l.pc.Executing? && !e.Abort? && !e.Crash? {
      CallbackKeepsLease(returned, pushed, l, e, held, now);
    } else if e.RenewalStopped? {
      HeartbeatEndKeepsLease(returned, pushed, l, e, held, now);
    } else if e.Abort? || e.CleanedUp? || e.Crash? {
      ExitKeepsLease(returned, pushed, l, e, held, now);
    } else {
      SettlementKeepsLease(returned, pushed, l, e, held, now);
    }
  }

  lemma LaterLeaseOk(returned: bool, returned': bool, pushed: Document, l: Lease)
    requires (returned ==> returned') && LeaseOk(returned, pushed, l)
    ensures LeaseOk(returned', pushed, l)
  {
  }

  // ---- places and tokens ----

  ghost function Copies(c: Cell): nat {
    (if c.entry.Some? then 1 else 0) + c.completed + |c.dead|
  }

  /** Where the message is and why it left the queue. */
  ghost predicate PlacesOk(c: Cell) {
    && Copies(c) == 1
    && (c.entry.Some? ==> c.entry.value.content == c.pushed)
    && (c.completed > 0 ==> c.returned && !Wants(c.pushed))
    && (c.dead != [] ==> c.dead == [c.pushed] && Budget(c.pushed) <= 0 && !Wants(c.pushed))
  }

  function TokenOf(s: Stray): nat {
    s.token
  }

  /** Every receive issues the next token: the `k`-th lease has token `k`, and only the last lease has
      the token of the queued message. */
  ghost predicate TokensOk(c: Cell) {
    && c.nextToken == |c.leases| + 1
    && (c.entry.Some? ==> c.entry.value.token == |c.leases|)
    && (forall i :: 0 <= i < |c.leases| ==> c.leases[i].token == i + 1)
    && (forall s :: s in c.strays ==> 1 <= TokenOf(s) <= |c.leases|)
  }

  ghost predicate Inv(c: Cell) {
    && PlacesOk(c)
    && TokensOk(c)
    && (forall i :: 0 <= i < |c.leases| ==> LeaseOk(c.returned, c.pushed, c.leases[i]))
    && (forall s :: s in c.strays && s.LateSettlement? ==> Allowed(c.returned, c.pushed, s.req))
  }

  // ---- one step ----

  /** What a step leaves alone. */
  lemma FrameStep(now: nat, c: Cell, e: Event)
    requires Enabled(now, c, e)
    ensures var c' := Apply(now, c, e);
            && c'.pushed == c.pushed
            && c'.returned == (c.returned || e.CallbackReturned?)
            && |c'.leases| == |c.leases| + (if e.Receive? then 1 else 0)
            && forall i :: 0 <= i < |c.leases| && !About(e, i) ==> c'.leases[i] == c.leases[i]
  {
  }

  lemma PlacesStep(now: nat, c: Cell, e: Event)
    requires Enabled(now, c, e) && Inv(c)
    ensures PlacesOk(Apply(now, c, e))
  {
    if e.SettlementDecided? {
      assert LeaseOk(c.returned, c.pushed, c.leases[e.i]);
    }
  }

  lemma TokenStays(l: Lease, e: Event, held: bool, now: nat)
    requires OfLease(e) && Possible(l, e)
    ensures LeaseAfter(l, e, held, now).token == l.token
  {
  }

  lemma EntryTokenStays(now: nat, c: Cell, e: Event)
    requires Enabled(now, c, e) && !e.Receive?
    ensures var c' := Apply(now, c, e);
            && c'.nextToken == c.nextToken
            && (c'.entry.Some? ==> c.entry.Some? && c'.entry.value.token == c.entry.value.token)
  {
  }

  /** A request left behind carries the token of its lease and is as justified as it was. */
  lemma NewStray(now: nat, c: Cell, e: Event, s: Stray)
    requires Enabled(now, c, e) && s in Apply(now, c, e).strays && s !in c.strays
    ensures OfLease(e) && s.token == c.leases[e.i].token
    ensures s.LateSettlement? ==> c.leases[e.i].pc == Settling(c.leases[e.i].pc.outcome, s.req)
  {
  }

  lemma TokensStep(now: nat, c: Cell, e: Event)
    requires Enabled(now, c, e) && TokensOk(c)
    ensures TokensOk(Apply(now, c, e))
  {
    var c' := Apply(now, c, e);
    FrameStep(now, c, e);
    if !e.Receive? {
      EntryTokenStays(now, c, e);
    }
    if OfLease(e) {
      TokenStays(c.leases[e.i], e, Locked(now, c, c.leases[e.i].token), now);
    }
    forall s | s in c'.strays ensures 1 <= TokenOf(s) <= |c'.leases| {
      if s in c.strays {
        assert 1 <= TokenOf(s) <= |c.leases|;
      } else {
        NewStray(now, c, e, s);
      }
    }
  }

  lemma LeaseStep(now: nat, c: Cell, e: Event, i: nat)
    requires Enabled(now, c, e) && Inv(c)
    requires i < |Apply(now, c, e).leases|
    ensures LeaseOk(Apply(now, c, e).returned, c.pushed, Apply(now, c, e).leases[i])
  {
    FrameStep(now, c, e);
    if i < |c.leases| {
      assert LeaseOk(c.returned, c.pushed, c.leases[i]);
      if About(e, i) {
        OwnStep(c.returned, c.pushed, c.leases[i], e, Locked(now, c, c.leases[i].token), now);
      } else {
        LaterLeaseOk(c.returned, Apply(now, c, e).returned, c.pushed, c.leases[i]);
      }
    }
  }

  lemma StraysStep(now: nat, c: Cell, e: Event)
    requires Enabled(now, c, e) && Inv(c)
    ensures var c' := Apply(now, c, e);
            forall s :: s in c'.strays && s.LateSettlement? ==> Allowed(c'.returned, c'.pushed, s.req)
  {
    var c' := Apply(now, c, e);
    FrameStep(now, c, e);
    forall s | s in c'.strays && s.LateSettlement? ensures Allowed(c'.returned, c'.pushed, s.req) {
      if s !in c.strays {
        NewStray(now, c, e, s);
        assert LeaseOk(c.returned, c.pushed, c.leases[e.i]);
      }
    }
  }

  lemma InvStep(now: nat, c: Cell, e: Event)
    requires Enabled(now, c, e) && Inv(c)
    ensures Inv(Apply(now, c, e)) && Apply(now, c, e).pushed == c.pushed
  {
    var c' := Apply(now, c, e);
    FrameStep(now, c, e);
    PlacesStep(now, c, e);
    TokensStep(now, c, e);
    StraysStep(now, c, e);
    forall i | 0 <= i < |c'.leases| ensures LeaseOk(c'.returned, c'.pushed, c'.leases[i]) {
      LeaseStep(now, c, e, i);
    }
  }

  lemma {:induction false} InvRun(c: Cell, steps: seq<Step>, c': Cell)
    requires Inv(c) && Run(c, steps, c')
    ensures Inv(c') && c'.pushed == c.pushed
    decreases |steps|
  {
    if steps != [] {
      InvStep(steps[0].now, c, steps[0].event);
      InvRun(Apply(steps[0].now, c, steps[0].event), steps[1..], c');
    }
  }

  lemma Reachable(content: Document, steps: seq<Step>, c: Cell)
    requires Run(Pushed(content), steps, c)
    ensures Inv(c) && c.pushed == content
  {
    InvRun(Pushed(content), steps, c);
  }
}
