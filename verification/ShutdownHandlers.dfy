/** The objects behind the shutdown protocol, statement by statement: `shutdown_handler` and
    `wait_for_hard_stop` of `launch_workers`, and `PreemptionEventHandler`.

    A `Launcher` performs only steps of module WorkerShutdown and keeps their history, so
    everything proved about runs holds for it. */
module ShutdownHandlers {
  import opened Basics
  import opened WorkerShutdown

  /** `asyncio.Event`, shared by both. */
  class SharedEvent {
    var isSet: bool

    constructor ()
      ensures !isSet
    {
      isSet := false;
    }

    method Set()
      modifies this
      ensures isSet
    {
      isSet := true;
    }

    method Clear()
      modifies this
      ensures !isSet
    {
      isSet := false;
    }
  }

  /** An entry of the scheduled events document; only its type matters. */
  datatype ScheduledEvent = ScheduledEvent(eventId: string, eventType: string)

  predicate AnnouncesPreemption(events: seq<ScheduledEvent>) {
    exists e :: e in events && e.eventType == "Preempt"
  }

  class PreemptionEventHandler {
    const shutdownEvent: SharedEvent
    const disabled: bool
    var initiatedByUs: bool

    constructor (shutdownEvent: SharedEvent, disabled: bool)
      ensures this.shutdownEvent == shutdownEvent && this.disabled == disabled && !initiatedByUs
    {
      this.shutdownEvent, this.disabled, initiatedByUs := shutdownEvent, disabled, false;
    }

    /** The poll callback is the `Poll` of the protocol, whatever the rest of the state is. */
    method Callback(events: seq<ScheduledEvent>, ghost rest: Control)
      requires rest.shutdown == shutdownEvent.isSet && rest.initiatedByUs == initiatedByUs
      modifies this, shutdownEvent
      ensures var c := Poll(rest, AnnouncesPreemption(events), disabled);
              && shutdownEvent.isSet == c.shutdown && initiatedByUs == c.initiatedByUs
              && c == rest.(shutdown := c.shutdown, initiatedByUs := c.initiatedByUs)
    {
      var isPreempted := false;
      for k := 0 to |events|
        invariant isPreempted <==> AnnouncesPreemption(events[..k])
      {
        assert events[..k + 1] == events[..k] + [events[k]];
        if events[k].eventType == "Preempt" {
          isPreempted := true;
        }
      }
      assert events[..|events|] == events;
      if isPreempted {
        if !disabled {
          shutdownEvent.Set();
          initiatedByUs := true;
        }
      } else if shutdownEvent.isSet && initiatedByUs {
        if !disabled {
          shutdownEvent.Clear();
          initiatedByUs := false;
        }
      }
    }
  }

  /** By the end of `history` some signal was a hard one or came while the event was set, or the last
      signal does not allow resuming. */
  ghost predicate StopRequested(cfg: Config, numWorkers: nat, history: seq<Event>) {
    HardRequested(cfg, Launch(numWorkers), history) || !LastMayResume(history)
  }

  lemma StopIffRequested(cfg: Config, numWorkers: nat, history: seq<Event>, s: State)
    requires Run(cfg, Launch(numWorkers), history, s)
    ensures s.control.hard || !s.control.resume <==> StopRequested(cfg, numWorkers, history)
  {
    HardIffRequested(cfg, Launch(numWorkers), history, s);
    FlagsFollowLast(cfg, numWorkers, history, s);
  }

  lemma RunPoll(cfg: Config, numWorkers: nat, history: seq<Event>, s: State, preempted: bool)
    requires Run(cfg, Launch(numWorkers), history, s) && !s.control.loopStopped
    ensures Run(cfg, Launch(numWorkers), history + [Polled(preempted)], Apply(cfg, s, Polled(preempted)))
  {
    RunSnoc(cfg, Launch(numWorkers), history, s, Polled(preempted));
  }

  /** Everything but what wakes it. */
  predicate SameWorker(w: Worker, w': Worker) {
    w' == w || w' == w.(waiter := Woken)
  }

  /** The state once the steps of `others`, not of worker `i`, that were possible have happened. */
  ghost function Meanwhile(cfg: Config, s: State, others: seq<Event>, i: nat): State {
    if others == [] then s
    else
      var e, before := others[|others| - 1], Meanwhile(cfg, s, others[..|others| - 1], i);
      if Enabled(before, e) && (e.Signaled? || e.Polled? || e.i != i) then Apply(cfg, before, e) else before
  }

  /** `part` is `whole` with some elements left out. */
  predicate Subsequence(part: seq<Event>, whole: seq<Event>) {
    if part == [] then true
    else if whole == [] then false
    else
      var p, w := |part| - 1, |whole| - 1;
      (part[p] == whole[w] && Subsequence(part[..p], whole[..w])) || Subsequence(part, whole[..w])
  }

  lemma SubsequenceStep(part: seq<Event>, whole: seq<Event>, e: Event)
    requires Subsequence(part, whole)
    ensures Subsequence(part, whole + [e]) && Subsequence(part + [e], whole + [e])
  {
    assert (whole + [e])[..|whole|] == whole && (part + [e])[..|part|] == part;
  }

  lemma {:induction false} SubsequenceOf(part: seq<Event>, whole: seq<Event>)
    requires Subsequence(part, whole)
    ensures forall e :: e in part ==> e in whole
    decreases |whole|
  {
    if part != [] {
      var p, w := |part| - 1, |whole| - 1;
      if part[p] == whole[w] && Subsequence(part[..p], whole[..w]) {
        SubsequenceOf(part[..p], whole[..w]);
      } else {
        SubsequenceOf(part, whole[..w]);
      }
      assert forall e :: e in part ==> e in part[..p] || e == part[p];
    }
  }

  /** The variables `launch_workers` shares with its closures, and where its workers stand. */
  class Launcher {
    const cfg: Config
    const numWorkers: nat
    const shutdownEvent: SharedEvent
    const hardStopEvent: SharedEvent
    const preemption: PreemptionEventHandler
    var flagResumeIfNotKilled: bool
    var flagPassSignalToSubprocess: bool
    var loopStopped: bool
    var workers: seq<Worker>
    ghost var history: seq<Event>

    function View(): State
      reads this, shutdownEvent, hardStopEvent, preemption
    {
      State(Control(shutdownEvent.isSet, hardStopEvent.isSet, flagResumeIfNotKilled, flagPassSignalToSubprocess,
                    preemption.initiatedByUs, loopStopped), workers)
    }

    ghost predicate Valid()
      reads this, shutdownEvent, hardStopEvent, preemption
    {
      && shutdownEvent != hardStopEvent
      && preemption.shutdownEvent == shutdownEvent && preemption.disabled == cfg.disabled
      && Run(cfg, Launch(numWorkers), history, View())
    }

    constructor (cfg: Config, numWorkers: nat)
      ensures Valid() && View() == Launch(numWorkers) && history == []
      ensures this.cfg == cfg && this.numWorkers == numWorkers
      ensures fresh(shutdownEvent) && fresh(hardStopEvent) && fresh(preemption)
    {
      var shutdown := new SharedEvent();
      var hard := new SharedEvent();
      var handler := new PreemptionEventHandler(shutdown, cfg.disabled);
      this.cfg, this.numWorkers := cfg, numWorkers;
      shutdownEvent, hardStopEvent, preemption := shutdown, hard, handler;
      flagResumeIfNotKilled, flagPassSignalToSubprocess, loopStopped := true, true, false;
      workers, history := Launch(numWorkers).workers, [];
    }

    /** Enters the step just taken from `before` into the history. */
    ghost method Record(e: Event, before: State)
      requires shutdownEvent != hardStopEvent
      requires preemption.shutdownEvent == shutdownEvent && preemption.disabled == cfg.disabled
      requires Run(cfg, Launch(numWorkers), history, before) && Enabled(before, e) && View() == Apply(cfg, before, e)
      modifies this`history
      ensures Valid() && history == old(history) + [e]
    {
      RunSnoc(cfg, Launch(numWorkers), history, before, e);
      history := history + [e];
    }

    /** `shutdown_handler` with the arguments bound for `s`. */
    method HandleShutdown(s: Signal)
      requires Valid()
      modifies this, shutdownEvent, hardStopEvent
      ensures Valid() && history == old(history) + [Signaled(s)]
      ensures View() == Apply(cfg, old(View()), Signaled(s))
    {
      ghost var before := View();
      flagResumeIfNotKilled := MayResume(s);
      flagPassSignalToSubprocess := PassesSignal(s);
      if IsHard(s) {
        hardStopEvent.Set();
      }
      if shutdownEvent.isSet {
        if !hardStopEvent.isSet {
          hardStopEvent.Set();
        } else {
          loopStopped := true;
        }
      }
      shutdownEvent.Set();
      workers := Wake(workers);
      Record(Signaled(s), before);
    }

    /** Setting the event completes every pending wait for it. */
    method WakeAfterPoll(ghost before: State, ghost preempted: bool)
      requires Enabled(before, Polled(preempted))
      requires workers == before.workers
      requires View().control == Poll(before.control, preempted, cfg.disabled)
      modifies this`workers
      ensures View() == Apply(cfg, before, Polled(preempted))
    {
      if shutdownEvent.isSet {
        workers := Wake(workers);
      }
    }

    /** One poll of the scheduled events. */
    method PollScheduledEvents(events: seq<ScheduledEvent>)
      requires Valid() && !loopStopped
      modifies this, shutdownEvent, preemption
      ensures Valid() && history == old(history) + [Polled(AnnouncesPreemption(events))]
      ensures View() == Apply(cfg, old(View()), Polled(AnnouncesPreemption(events)))
    {
      ghost var before, p := View(), AnnouncesPreemption(events);
      preemption.Callback(events, View().control);
      WakeAfterPoll(before, p);
      RunPoll(cfg, numWorkers, history, before, p);
      history := history + [Polled(p)];
    }

    /** A step of one worker that changes nothing shared. */
    method Advance(e: Event)
      requires Valid() && Enabled(View(), e) && !e.Signaled? && !e.Polled? && !e.BraceEnds?
      modifies this
      ensures Valid() && history == old(history) + [e] && View() == Apply(cfg, old(View()), e)
    {
      ghost var before := View();
      workers := workers[e.i := WorkerStep(cfg, View().control, workers[e.i], e)];
      Record(e, before);
    }

    /** The span of `wait_for_hard_stop` from its last checks to the clear. It stops the worker for good
        exactly if the signals so far asked for it; if not, nobody's shutdown event is left set. */
    method CheckAfterBracing(i: nat) returns (stop: bool)
      requires Valid() && Enabled(View(), BraceEnds(i))
      modifies this, shutdownEvent
      ensures Valid() && history == old(history) + [BraceEnds(i)]
      ensures View() == Apply(cfg, old(View()), BraceEnds(i))
      ensures stop <==> StopRequested(cfg, numWorkers, old(history))
      ensures workers[i].pc == if stop then Ended(HardOrFinal) else Resuming
      ensures !stop ==> !shutdownEvent.isSet
    {
      ghost var before := View();
      StopIffRequested(cfg, numWorkers, history, View());
      workers := workers[i := WorkerStep(cfg, View().control, workers[i], BraceEnds(i))];
      if hardStopEvent.isSet {
        stop := true;
      } else if !flagResumeIfNotKilled {
        stop := true;
      } else {
        shutdownEvent.Clear();
        stop := false;
      }
      Record(BraceEnds(i), before);
    }

    /** Any step of the protocol. */
    method Perform(e: Event)
      requires Valid() && Enabled(View(), e)
      modifies this, shutdownEvent, hardStopEvent, preemption
      ensures Valid() && history == old(history) + [e] && View() == Apply(cfg, old(View()), e)
    {
      match e {
        case Signaled(s) =>
          HandleShutdown(s);
        case Polled(preempted) =>
          var events := if preempted then [ScheduledEvent("", "Preempt")] else [];
          assert preempted ==> events[0] in events;
          PollScheduledEvents(events);
        case BraceEnds(i) =>
          var _ := CheckAfterBracing(i);
        case _ =>
          Advance(e);
      }
    }

    /** While worker `i` is suspended, signals, polls and the other workers go on: those of `others` that
        are possible, in order. */
    method Suspend(i: nat, others: seq<Event>) returns (ghost done: seq<Event>)
      requires Valid() && i < |workers|
      modifies this, shutdownEvent, hardStopEvent, preemption
      ensures Valid() && |workers| == |old(workers)| && SameWorker(old(workers[i]), workers[i])
      ensures history == old(history) + done && Subsequence(done, others)
      ensures View() == Meanwhile(cfg, old(View()), others, i)
    {
      done := [];
      for k := 0 to |others|
        invariant Valid() && |workers| == |old(workers)| && SameWorker(old(workers[i]), workers[i])
        invariant history == old(history) + done && Subsequence(done, others[..k])
        invariant View() == Meanwhile(cfg, old(View()), others[..k], i)
      {
        var e := others[k];
        assert others[..k + 1] == others[..k] + [e] && others[..k + 1][..k] == others[..k];
        SubsequenceStep(done, others[..k], e);
        if Enabled(View(), e) && (e.Signaled? || e.Polled? || e.i != i) {
          WorkersStep(cfg, View(), e, i);
          Perform(e);
          done := done + [e];
        }
      }
      assert others[..|others|] == others;
    }

    /** Waits for a hard stop, a clear or the timeout, then makes the last checks. `None`: the event loop was
        stopped meanwhile, and the worker waits for good. */
    method Brace(i: nat, bracing: seq<Event>) returns (stop: Option<bool>, ghost done: seq<Event>)
      requires Valid() && i < |workers| && workers[i].pc.Bracing?
      modifies this, shutdownEvent, hardStopEvent, preemption
      ensures Valid() && i < |workers| && Subsequence(done, bracing)
      ensures stop.None? <==> loopStopped
      ensures stop.None? ==> history == old(history) + done && workers[i].pc == Bracing
      ensures stop.Some? ==>
                && history == old(history) + done + [BraceEnds(i)]
                && (stop.value <==> StopRequested(cfg, numWorkers, old(history) + done))
                && workers[i].pc == if stop.value then Ended(HardOrFinal) else Resuming
    {
      done := Suspend(i, bracing);
      if loopStopped {
        return None, done;
      }
      var answer := CheckAfterBracing(i);
      stop := Some(answer);
    }

    /** `await processor.resume()`: true if the event loop got to its end. */
    method Resume(i: nat, resuming: seq<Event>) returns (ok: bool, ghost done: seq<Event>)
      requires Valid() && i < |workers| && workers[i].pc.Resuming?
      modifies this, shutdownEvent, hardStopEvent, preemption
      ensures Valid() && i < |workers| && Subsequence(done, resuming)
      ensures ok <==> !loopStopped
      ensures workers[i].pc == if ok then Top else Resuming
      ensures history == old(history) + done + if ok then [ResumeDone(i)] else []
    {
      done := Suspend(i, resuming);
      ok := !loopStopped;
      if ok {
        Advance(ResumeDone(i));
      }
    }

    /** What a call of `wait_for_hard_stop` may add to the history `start`, by its result: its own three steps,
        `braced` during the first wait and `resumed` during the second. It stops the worker exactly if a
        stop was requested before the call or by the time of its last checks. */
    ghost predicate WaitedFor(i: nat, start: seq<Event>, stop: Option<bool>, braced: seq<Event>, resumed: seq<Event>)
      reads this
    {
      var checked := start + [Flushed(i)] + braced;
      if StopRequested(cfg, numWorkers, start) then
        stop == Some(true) && history == start + [Flushed(i)]
      else
        match stop
        case Some(true) => StopRequested(cfg, numWorkers, checked) && history == checked + [BraceEnds(i)]
        case Some(false) =>
          && !StopRequested(cfg, numWorkers, checked)
          && history == checked + [BraceEnds(i)] + resumed + [ResumeDone(i)]
        case None =>
          || history == checked
          || (!StopRequested(cfg, numWorkers, checked) && history == checked + [BraceEnds(i)] + resumed)
    }

    /** `wait_for_hard_stop`; `bracing` and `resuming` offer what others do during its two waits, `braced`
        and `resumed` are those of them that were possible. `None`: the event loop was stopped in a wait. */
    method WaitForHardStop(i: nat, bracing: seq<Event>, resuming: seq<Event>)
      returns (stop: Option<bool>, ghost braced: seq<Event>, ghost resumed: seq<Event>)
      requires Valid() && i < |workers| && workers[i].pc.Flushing? && !loopStopped
      modifies this, shutdownEvent, hardStopEvent, preemption
      ensures Valid() && i < |workers|
      ensures Subsequence(braced, bracing) && Subsequence(resumed, resuming)
      ensures WaitedFor(i, old(history), stop, braced, resumed)
      ensures stop.None? <==> loopStopped
      ensures stop.Some? ==> workers[i].pc == if stop.value then Ended(HardOrFinal) else Top
    {
      braced, resumed := [], [];
      StopIffRequested(cfg, numWorkers, history, View());
      var early := hardStopEvent.isSet || !flagResumeIfNotKilled;
      Advance(Flushed(i));
      if early {
        return Some(true), [], [];
      }
      stop, braced := Brace(i, bracing);
      if stop != Some(false) {
        return;
      }
      var ok: bool;
      ok, resumed := Resume(i, resuming);
      if !ok {
        stop := None;
      }
    }
  }

  /** A worker that a call of `wait_for_hard_stop` stops without a request before the call was stopped by
      somebody else: among what happened during its wait is a signal. */
  lemma StoppedBySomebody(cfg: Config, numWorkers: nat, before: seq<Event>, braced: seq<Event>, i: nat, s: State)
    requires !StopRequested(cfg, numWorkers, before)
    requires StopRequested(cfg, numWorkers, before + [Flushed(i)] + braced)
    requires Run(cfg, Launch(numWorkers), before + [Flushed(i)] + braced, s)
    ensures exists e :: e in braced && e.Signaled?
  {
    if forall e :: e in braced ==> !e.Signaled? {
      assert before + [Flushed(i)] + braced == before + ([Flushed(i)] + braced);
      QuietKeepsStop(cfg, numWorkers, before, [Flushed(i)] + braced, s);
    }
  }

  lemma QuietKeepsStop(cfg: Config, numWorkers: nat, before: seq<Event>, steps: seq<Event>, s: State)
    requires Run(cfg, Launch(numWorkers), before + steps, s) && Unsignaled(steps)
    ensures StopRequested(cfg, numWorkers, before + steps) <==> StopRequested(cfg, numWorkers, before)
  {
    var mid := SplitRun(cfg, Launch(numWorkers), before, steps, s);
    StopIffRequested(cfg, numWorkers, before, mid);
    StopIffRequested(cfg, numWorkers, before + steps, s);
    UnsignaledKeepsStop(cfg, mid, steps, s);
  }

  lemma {:induction false} UnsignaledKeepsStop(cfg: Config, s: State, events: seq<Event>, s': State)
    requires Run(cfg, s, events, s') && Unsignaled(events)
    ensures s'.control.hard == s.control.hard && s'.control.resume == s.control.resume
    decreases |events|
  {
    if events != [] {
      assert events[0] in events && forall e :: e in events[1..] ==> e in events;
      UnsignaledKeepsStop(cfg, Apply(cfg, s, events[0]), events[1..], s');
    }
  }
}
