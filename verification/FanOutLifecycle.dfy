/** What handlers, `start` and `stop` go through: when force is used, what is joined, what a restart brings back. */
module FanOutLifecycle {
  import opened Ids
  import opened Frames
  import opened Registry
  import opened Subscriptions
  import opened FanOut
  import opened FanOutInvariant
  import opened FanOutSteps
  import opened FanOutSafety
  import opened FanOutCoverage

  // ----- the failure path of a handler -----

  /** On the path of a subscribe that has timed out. */
  predicate Failing(pc: HandlerPc) {
    || pc.AtTimeoutPop? || pc.JoinAfterTimeout? || pc.AtFailDisconnect? || pc.AtFailPop? || pc.JoinAfterFail?
    || pc.AtSocketClose?
  }

  lemma OwnStepFails(s: State, step: Step)
    requires Enabled(s, step) && IsHandlerStep(step)
    ensures var pc, pc' := s.handlers[step.h].pc, Apply(s, step).handlers[step.h].pc;
            && (Failing(pc') <==> step.HTimeout? || (Failing(pc) && !step.HSocketClosed?))
            && (Failing(pc) && !Failing(pc') ==> pc'.Gone? && pc.AtSocketClose?)
            && !pc.Gone?
  {
  }

  lemma OthersKeepPoint(s: State, step: Step, h: nat)
    requires Enabled(s, step) && h < |s.handlers| && !(IsHandlerStep(step) && step.h == h)
    ensures h < |Apply(s, step).handlers| && Apply(s, step).handlers[h].pc == s.handlers[h].pc
  {
    if IsHandlerStep(step) {
      HandlerStepFootprint(s, step);
    } else if IsLoopStep(step) {
      LoopStepFootprint(s, step);
    }
  }

  lemma NewHandlersConnect(s: State, step: Step, h: nat)
    requires Enabled(s, step) && |s.handlers| <= h < |Apply(s, step).handlers|
    ensures Apply(s, step).handlers[h].pc.AtConnect?
  {
    if IsHandlerStep(step) {
      HandlerStepFootprint(s, step);
    } else if IsLoopStep(step) {
      LoopStepFootprint(s, step);
    }
  }

  /** A handler is on the failure path only after its own wait has timed out, and never on any other path after. */
  predicate TimeoutOk(s: State, h: nat, timedOut: bool) {
    && (h < |s.handlers| && Failing(s.handlers[h].pc) ==> timedOut)
    && (timedOut ==> h < |s.handlers| && (Failing(s.handlers[h].pc) || s.handlers[h].pc.Gone?))
  }

  lemma TimeoutStep(s: State, step: Step, h: nat, timedOut: bool)
    requires Enabled(s, step) && TimeoutOk(s, h, timedOut)
    ensures TimeoutOk(Apply(s, step), h, timedOut || step == HTimeout(h))
  {
    if IsHandlerStep(step) && step.h == h {
      HandlerStepFootprint(s, step);
      OwnStepFails(s, step);
    } else if h < |s.handlers| {
      OthersKeepPoint(s, step, h);
    } else if h < |Apply(s, step).handlers| {
      NewHandlersConnect(s, step, h);
    }
  }

  /** On every run, force is used by those handlers only whose wait for the `ready` event has timed out; and such a
      handler never runs the chat service: it leaves on the failure path, which ends with the closed socket. */
  lemma {:induction false} FailureMeansTimeout(logs: map<Uuid, seq<Payload>>, steps: seq<Step>, h: nat)
    requires Trace(Init(logs), steps)
    ensures TimeoutOk(After(Init(logs), steps), h, HTimeout(h) in steps)
    decreases |steps|
  {
    if steps != [] {
      var n := |steps| - 1;
      assert steps == steps[..n] + [steps[n]];
      TraceSplits(Init(logs), steps[..n], [steps[n]]);
      FailureMeansTimeout(logs, steps[..n], h);
      TimeoutStep(After(Init(logs), steps[..n]), steps[n], h, HTimeout(h) in steps[..n]);
    }
  }

  lemma ForceMeansTimeout(logs: map<Uuid, seq<Payload>>, steps: seq<Step>, h: nat)
    requires Trace(Init(logs), steps) && Enabled(After(Init(logs), steps), HForcePop(h))
    ensures HTimeout(h) in steps
  {
    FailureMeansTimeout(logs, steps, h);
  }

  // ----- coverage without timeouts -----

  /** No `stop`, and no wait of a handler of conversation `c` times out. */
  predicate IsCalm(s: State, step: Step, c: Uuid) {
    match step
    case CStop(_) => false
    case HTimeout(h) => !(h < |s.handlers| && s.handlers[h].conversationId == c)
    case _ => true
  }

  predicate CalmRun(s: State, steps: seq<Step>, c: Uuid)
    requires Trace(s, steps)
    decreases |steps|
  {
    steps == [] || (IsCalm(s, steps[0], c) && CalmRun(Apply(s, steps[0]), steps[1..], c))
  }

  /** Registered, and past the subscribe section. */
  predicate HasSubscribed(s: State, h: nat) {
    Registered(s, h) && !s.handlers[h].pc.AtConnect? && !s.handlers[h].pc.AtSubscribe?
  }

  ghost predicate CalmOk(s: State, c: Uuid) {
    && !s.hub.stopping
    && (forall h :: 0 <= h < |s.handlers| && s.handlers[h].conversationId == c ==> !Failing(s.handlers[h].pc))
    && (forall h :: 0 <= h < |s.handlers| && s.handlers[h].conversationId == c && HasSubscribed(s, h) ==>
          c in s.hub.subscriptions)
  }

  lemma StoppingChanges(s: State, step: Step)
    requires Enabled(s, step)
    ensures Apply(s, step).hub.stopping <==> step.CStop? || (s.hub.stopping && !step.CStart?)
  {
    if IsLoopStep(step) {
      LoopStepKeepsStopping(s, step);
    } else if IsHandlerStep(step) {
      HandlerStepKeepsStopping(s, step);
    }
  }

  lemma LoopStepKeepsStopping(s: State, step: Step)
    requires Enabled(s, step) && IsLoopStep(step)
    ensures Apply(s, step).hub.stopping == s.hub.stopping
  {
  }

  lemma HandlerStepKeepsStopping(s: State, step: Step)
    requires Enabled(s, step) && IsHandlerStep(step)
    ensures Apply(s, step).hub.stopping == s.hub.stopping
  {
  }

  lemma CalmFailing(s: State, step: Step, c: Uuid, h: nat)
    requires Enabled(s, step) && IsCalm(s, step, c) && CalmOk(s, c)
    requires h < |Apply(s, step).handlers| && Apply(s, step).handlers[h].conversationId == c
    ensures !Failing(Apply(s, step).handlers[h].pc)
  {
    if h >= |s.handlers| {
      NewHandlersConnect(s, step, h);
    } else {
      HandlersPersist(s, step, h);
      if IsHandlerStep(step) && step.h == h {
        OwnStepFails(s, step);
      } else {
        OthersKeepPoint(s, step, h);
      }
    }
  }

  /** Only its subscribe section makes a handler a subscribed one. */
  lemma BecomesSubscribed(s: State, step: Step, h: nat)
    requires Inv(s) && Enabled(s, step) && HasSubscribed(Apply(s, step), h)
    requires !(h < |s.handlers| && HasSubscribed(s, h))
    ensures h < |s.handlers| && step == HSubscribe(h)
  {
    if h >= |s.handlers| {
      NewHandlersConnect(s, step, h);
    } else if IsHandlerStep(step) && step.h == h {
      OwnStepSubscribes(s, step);
    } else {
      OthersKeepPoint(s, step, h);
    }
    if h < |s.handlers| && !s.handlers[h].pc.AtConnect? && !Registered(s, h) {
      NeverReRegistered(s, step, h);
    }
  }

  lemma OwnStepSubscribes(s: State, step: Step)
    requires Enabled(s, step) && IsHandlerStep(step)
    ensures var pc, pc' := s.handlers[step.h].pc, Apply(s, step).handlers[step.h].pc;
            && (pc.AtConnect? ==> pc'.AtSubscribe?)
            && (pc.AtSubscribe? ==> step.HSubscribe?)
  {
  }

  lemma CalmCovered(s: State, step: Step, c: Uuid, h: nat)
    requires Inv(s) && Enabled(s, step) && IsCalm(s, step, c) && CalmOk(s, c)
    requires h < |Apply(s, step).handlers| && Apply(s, step).handlers[h].conversationId == c
    requires HasSubscribed(Apply(s, step), h)
    ensures c in Apply(s, step).hub.subscriptions
  {
    if h < |s.handlers| && HasSubscribed(s, h) {
      HandlersPersist(s, step, h);
      CalmKeepsEntry(s, step, c, h);
    } else {
      BecomesSubscribed(s, step, h);
      HandlersPersist(s, step, h);
      SubscribeKeeps(s.hub, c);
    }
  }

  lemma CalmKeepsEntry(s: State, step: Step, c: Uuid, h: nat)
    requires Inv(s) && Enabled(s, step) && IsCalm(s, step, c) && CalmOk(s, c)
    requires h < |s.handlers| && s.handlers[h].conversationId == c && HasSubscribed(s, h)
    ensures c in Apply(s, step).hub.subscriptions
  {
    EntryChangesExactly(s, step, c);
    if step.HForcePop? {
      OwnStepFails(s, step);
    }
  }

  lemma CalmStep(s: State, step: Step, c: Uuid)
    requires Inv(s) && Enabled(s, step) && IsCalm(s, step, c) && CalmOk(s, c)
    ensures CalmOk(Apply(s, step), c)
  {
    StoppingChanges(s, step);
    var s' := Apply(s, step);
    forall h | 0 <= h < |s'.handlers| && s'.handlers[h].conversationId == c ensures !Failing(s'.handlers[h].pc) {
      CalmFailing(s, step, c, h);
    }
    forall h | 0 <= h < |s'.handlers| && s'.handlers[h].conversationId == c && HasSubscribed(s', h)
      ensures c in s'.hub.subscriptions
    {
      CalmCovered(s, step, c, h);
    }
  }

  lemma {:induction false} CalmSteps(s: State, steps: seq<Step>, c: Uuid)
    requires Inv(s) && Trace(s, steps) && CalmRun(s, steps, c) && CalmOk(s, c)
    ensures CalmOk(After(s, steps), c)
    decreases |steps|
  {
    if steps != [] {
      CalmStep(s, steps[0], c);
      StepKeeps(s, steps[0]);
      CalmSteps(Apply(s, steps[0]), steps[1..], c);
    }
  }

  /** The documented promise, and what it takes: while no wait for Redis of a client of the conversation times out and
      nobody stops the instance, every client that has subscribed and is still registered has a subscription behind
      it, however many others come and go. */
  lemma CoveredWhileCalm(logs: map<Uuid, seq<Payload>>, steps: seq<Step>, c: Uuid, h: nat)
    requires Trace(Init(logs), steps) && CalmRun(Init(logs), steps, c)
    requires var s := After(Init(logs), steps);
             h < |s.handlers| && s.handlers[h].conversationId == c && HasSubscribed(s, h)
    ensures Covered(After(Init(logs), steps), h)
  {
    InitOk(logs);
    CalmSteps(Init(logs), steps, c);
  }

  // ----- subscribing -----

  /** A subscribe that is turned away, and one to an entry whose event is set, goes on to the chat service at once; any
      other waits for the event of the state it stored or found. */
  lemma SubscribeWaitsExactly(s: State, h: nat)
    requires Inv(s) && Enabled(s, HSubscribe(h))
    ensures var s', c := Apply(s, HSubscribe(h)), s.handlers[h].conversationId;
            var ready := c in s.hub.subscriptions && s.hub.tasks[s.hub.subscriptions[c]].ready;
            if s.hub.stopping || ready then s'.handlers[h].pc == Running
            else
              && c in s'.hub.subscriptions && s'.hub.subscriptions[c] < |s'.hub.tasks|
              && s'.handlers[h].pc == Awaiting(s'.hub.subscriptions[c], s'.hub.tasks[s'.hub.subscriptions[c]].wakes)
              && (c in s.hub.subscriptions ==> s'.hub.subscriptions[c] == s.hub.subscriptions[c])
  {
    var c := s.handlers[h].conversationId;
    SubscribeKeeps(s.hub, c);
    if c in s.hub.subscriptions {
      StoredTaskIsLive(s.hub, c);
    }
  }

  // ----- restarting -----

  predicate NoStop(steps: seq<Step>) {
    forall i :: 0 <= i < |steps| ==> !steps[i].CStop?
  }

  lemma {:induction false} StaysStarted(s: State, steps: seq<Step>)
    requires Inv(s) && Trace(s, steps) && NoStop(steps) && !s.hub.stopping
    ensures Inv(After(s, steps)) && !After(s, steps).hub.stopping
    decreases |steps|
  {
    if steps != [] {
      StoppingChanges(s, steps[0]);
      StepKeeps(s, steps[0]);
      assert NoStop(steps[1..]);
      StaysStarted(Apply(s, steps[0]), steps[1..]);
    }
  }

  /** After a `start`, while no `stop` follows, every subscribe gives its conversation an entry with a live loop. */
  lemma RestartCovers(s: State, k: nat, steps: seq<Step>, h: nat)
    requires Inv(s) && Enabled(s, CStart(k)) && Trace(Apply(s, CStart(k)), steps) && NoStop(steps)
    requires Enabled(After(Apply(s, CStart(k)), steps), HSubscribe(h))
    ensures var s' := Apply(After(Apply(s, CStart(k)), steps), HSubscribe(h));
            && Covered(s', h)
            && LoopRuns(s', s'.hub.subscriptions[s'.handlers[h].conversationId])
  {
    StepKeeps(s, CStart(k));
    StoppingChanges(s, CStart(k));
    StaysStarted(Apply(s, CStart(k)), steps);
    SubscribeCovers(After(Apply(s, CStart(k)), steps), h);
  }

  lemma SubscribeCovers(s: State, h: nat)
    requires Inv(s) && Enabled(s, HSubscribe(h)) && !s.hub.stopping
    ensures var s' := Apply(s, HSubscribe(h));
            && Covered(s', h)
            && LoopRuns(s', s'.hub.subscriptions[s'.handlers[h].conversationId])
  {
    SubscribeKeeps(s.hub, s.handlers[h].conversationId);
    StepKeeps(s, HSubscribe(h));
  }

  // ----- the calls -----

  /** The `_started` flag. */
  lemma StartedChanges(s: State, step: Step)
    requires Enabled(s, step)
    ensures Apply(s, step).hub.started <==>
      step.CStart? || (step.HSubscribe? && !s.hub.stopping) || (s.hub.started && !step.CStopEnd?)
  {
    if IsLoopStep(step) {
      LoopStepKeepsStarted(s, step);
    } else if IsHandlerStep(step) {
      HandlerStepKeepsStarted(s, step);
    }
  }

  lemma LoopStepKeepsStarted(s: State, step: Step)
    requires Enabled(s, step) && IsLoopStep(step)
    ensures Apply(s, step).hub.started == s.hub.started
  {
  }

  lemma HandlerStepKeepsStarted(s: State, step: Step)
    requires Enabled(s, step) && IsHandlerStep(step)
    ensures Apply(s, step).hub.started == (s.hub.started || (step.HSubscribe? && !s.hub.stopping))
  {
  }

  /** A `start` is one section. A `stop` is a section, the join of the loops that were stored, if any, and another
      section. Each call goes through its own stages in that order, whatever the rest does. */
  lemma CallStages(s: State, step: Step, k: nat)
    requires Enabled(s, step)
    ensures k < |s.controls| ==>
      k < |Apply(s, step).controls| && Apply(s, step).controls[k] == NextStage(s, step, k)
    ensures |Apply(s, step).controls| == |s.controls| + (if step.CallStart? || step.CallStop? then 1 else 0)
    ensures step.CallStart? ==> Apply(s, step).controls[|s.controls|] == AtStart
    ensures step.CallStop? ==> Apply(s, step).controls[|s.controls|] == AtStop
  {
    if IsHandlerStep(step) {
      HandlerStepFootprint(s, step);
    } else if IsLoopStep(step) {
      LoopStepFootprint(s, step);
    } else if k < |s.controls| {
      OtherStepStages(s, step, k);
    }
  }

  lemma OtherStepStages(s: State, step: Step, k: nat)
    requires Enabled(s, step) && !IsHandlerStep(step) && !IsLoopStep(step) && k < |s.controls|
    ensures k < |Apply(s, step).controls| && Apply(s, step).controls[k] == NextStage(s, step, k)
  {
    if step == CStop(k) {
      StoredNumbers(s.hub.subscriptions);
    }
  }

  lemma StoredNumbers(subs: map<Uuid, nat>)
    ensures subs.Values == {} <==> subs == map[]
  {
    if c :| c in subs {
      assert subs[c] in subs.Values;
    }
  }

  function NextStage(s: State, step: Step, k: nat): ControlPc
    requires k < |s.controls|
  {
    if step != CStart(k) && step != CStop(k) && step != CJoined(k) && step != CStopEnd(k) then s.controls[k]
    else
      match s.controls[k]
      case AtStop => if s.hub.subscriptions == map[] then AtStopEnd else JoinAll(s.hub.subscriptions.Values)
      case JoinAll(_) => AtStopEnd
      case _ => ControlDone
  }

  // ----- joins -----

  /** Loop `l` has ended, or handler `h` still waits for its end. */
  predicate HandlerJoins(s: State, h: nat, l: nat) {
    TaskAt(s.hub, l).done || Joins(s, HandlerTask(h), l)
  }

  predicate ControlJoins(s: State, k: nat, l: nat) {
    TaskAt(s.hub, l).done || Joins(s, ControlTask(k), l)
  }

  lemma DoneStays(s: State, step: Step, l: nat)
    requires Enabled(s, step) && l < |s.hub.tasks| && s.hub.tasks[l].done
    ensures l < |Apply(s, step).hub.tasks| && Apply(s, step).hub.tasks[l].done
  {
    if IsLoopStep(step) {
      LoopStepKeepsDone(s, step, l);
    } else if IsHandlerStep(step) {
      HandlerStepKeepsDone(s, step, l);
    }
  }

  lemma LoopStepKeepsDone(s: State, step: Step, l: nat)
    requires Enabled(s, step) && IsLoopStep(step) && l < |s.hub.tasks| && s.hub.tasks[l].done
    ensures l < |Apply(s, step).hub.tasks| && Apply(s, step).hub.tasks[l].done
  {
  }

  lemma HandlerStepKeepsDone(s: State, step: Step, l: nat)
    requires Enabled(s, step) && IsHandlerStep(step) && l < |s.hub.tasks| && s.hub.tasks[l].done
    ensures l < |Apply(s, step).hub.tasks| && Apply(s, step).hub.tasks[l].done
  {
  }

  /** Whoever pops an entry joins the loop it cancels: it goes on only once that loop has ended. */
  lemma PopIsJoined(s: State, step: Step, l: nat)
    requires Inv(s) && Enabled(s, step) && (step.HForcePop? || step.HUnsubscribe?)
    requires var c := s.handlers[step.h].conversationId;
             && c in s.hub.subscriptions && s.hub.subscriptions[c] == l
             && c !in Apply(s, step).hub.subscriptions
    ensures l < |Apply(s, step).hub.tasks| && HandlerJoins(Apply(s, step), step.h, l)
  {
    StepKeeps(s, step);
  }

  lemma {:induction false} JoinOutlasts(s: State, steps: seq<Step>, h: nat, l: nat)
    requires Trace(s, steps) && l < |s.hub.tasks| && HandlerJoins(s, h, l)
    ensures l < |After(s, steps).hub.tasks| && HandlerJoins(After(s, steps), h, l)
    decreases |steps|
  {
    if steps != [] {
      JoinStep(s, steps[0], h, l);
      JoinOutlasts(Apply(s, steps[0]), steps[1..], h, l);
    }
  }

  lemma JoinStep(s: State, step: Step, h: nat, l: nat)
    requires Enabled(s, step) && l < |s.hub.tasks| && HandlerJoins(s, h, l)
    ensures l < |Apply(s, step).hub.tasks| && HandlerJoins(Apply(s, step), h, l)
  {
    TasksStay(s, step);
    if s.hub.tasks[l].done {
      DoneStays(s, step, l);
    } else if !(IsHandlerStep(step) && step.h == h) {
      OthersKeepPoint(s, step, h);
    } else {
      JoinerSteps(s, step, l);
    }
  }

  /** A handler that joins a task can do nothing else, and not before the task has ended. */
  lemma JoinerSteps(s: State, step: Step, l: nat)
    requires Enabled(s, step) && IsHandlerStep(step) && Joins(s, HandlerTask(step.h), l)
    ensures TaskAt(s.hub, l).done
  {
  }

  lemma TasksStay(s: State, step: Step)
    requires Enabled(s, step)
    ensures |s.hub.tasks| <= |Apply(s, step).hub.tasks|
  {
    if IsHandlerStep(step) {
      HandlerStepFootprint(s, step);
    } else if IsLoopStep(step) {
      LoopStepFootprint(s, step);
    }
  }

  /** The first section of `stop` leaves its caller joining every loop that was stored. */
  lemma StopIsJoined(s: State, k: nat, l: nat)
    requires Inv(s) && Enabled(s, CStop(k)) && l in s.hub.subscriptions.Values
    ensures l < |Apply(s, CStop(k)).hub.tasks| && ControlJoins(Apply(s, CStop(k)), k, l)
  {
    StopCancelsStored(s.hub);
  }

  lemma ControlJoinStep(s: State, step: Step, k: nat, l: nat)
    requires Enabled(s, step) && l < |s.hub.tasks| && ControlJoins(s, k, l)
    ensures l < |Apply(s, step).hub.tasks| && ControlJoins(Apply(s, step), k, l)
  {
    TasksStay(s, step);
    if s.hub.tasks[l].done {
      DoneStays(s, step, l);
    } else {
      JoiningControlStays(s, step, k, l);
    }
  }

  lemma JoiningControlStays(s: State, step: Step, k: nat, l: nat)
    requires Enabled(s, step) && Joins(s, ControlTask(k), l) && !TaskAt(s.hub, l).done
    ensures Joins(Apply(s, step), ControlTask(k), l)
  {
    if IsHandlerStep(step) {
      HandlerStepFootprint(s, step);
    } else if IsLoopStep(step) {
      LoopStepFootprint(s, step);
    }
  }

  /** `stop` returns only when every loop it cancelled has ended. */
  lemma {:induction false} StopReturnsAfterLoops(s: State, steps: seq<Step>, k: nat, l: nat)
    requires Trace(s, steps) && l < |s.hub.tasks| && ControlJoins(s, k, l)
    ensures l < |After(s, steps).hub.tasks| && ControlJoins(After(s, steps), k, l)
    ensures var s' := After(s, steps);
            k < |s'.controls| && (s'.controls[k].AtStopEnd? || s'.controls[k].ControlDone?) ==> TaskAt(s'.hub, l).done
    decreases |steps|
  {
    if steps != [] {
      ControlJoinStep(s, steps[0], k, l);
      StopReturnsAfterLoops(Apply(s, steps[0]), steps[1..], k, l);
    }
  }
}
