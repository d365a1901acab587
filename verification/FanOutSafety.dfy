/** What holds in every reachable state of one instance: ownership, readiness, leaks, stop, delays, locks. */
module FanOutSafety {
  import opened Ids
  import opened Frames
  import opened Registry
  import opened Backoff
  import opened Subscriptions
  import opened FanOut
  import opened FanOutInvariant
  import opened FanOutSteps

  lemma ReachableOk(logs: map<Uuid, seq<Payload>>, steps: seq<Step>)
    requires Trace(Init(logs), steps)
    ensures Inv(After(Init(logs), steps))
  {
    InitOk(logs);
    RunKeeps(Init(logs), steps);
  }

  // ----- order -----

  /** On every run, what is written to a socket by relaying loops, cancelled ones included, is a strictly increasing
      list of relayable entries of its own conversation's publish log: in order, at most once, and from no other
      conversation. */
  lemma RelayedInOrderAtMostOnce(logs: map<Uuid, seq<Payload>>, steps: seq<Step>, h: nat)
    requires Trace(Init(logs), steps) && h < |After(Init(logs), steps).handlers|
    ensures var s := After(Init(logs), steps);
            && Increasing(s.handlers[h].got)
            && forall j :: 0 <= j < |s.handlers[h].got| ==>
                 Relayable(Log(s, s.handlers[h].conversationId), s.handlers[h].got[j])
  {
    ReachableOk(logs, steps);
  }

  /** What has been written to a socket stays written, whatever follows: a loop that is cancelled while its send is
      under way takes nothing back. */
  lemma {:induction false} WrittenStays(s: State, steps: seq<Step>, h: nat)
    requires Trace(s, steps) && h < |s.handlers|
    ensures h < |After(s, steps).handlers| && s.handlers[h].got <= After(s, steps).handlers[h].got
    decreases |steps|
  {
    if steps != [] {
      StepKeepsWritten(s, steps[0], h);
      WrittenStays(Apply(s, steps[0]), steps[1..], h);
    }
  }

  /** A written frame counts as relayed on every run that follows, a cancellation before its send returns included. */
  lemma WriteSurvives(s: State, l: nat, steps: seq<Step>)
    requires Enabled(s, LWrite(l)) && Trace(Apply(s, LWrite(l)), steps)
    ensures var w, s' := s.loops[l].pc.todo[0], After(Apply(s, LWrite(l)), steps);
            w < |s'.handlers| && s.handlers[w].got + [s.loops[l].pc.i] <= s'.handlers[w].got
  {
    WrittenStays(Apply(s, LWrite(l)), steps, s.loops[l].pc.todo[0]);
  }

  lemma StepKeepsWritten(s: State, step: Step, h: nat)
    requires Enabled(s, step) && h < |s.handlers|
    ensures h < |Apply(s, step).handlers| && s.handlers[h].got <= Apply(s, step).handlers[h].got
  {
    if IsHandlerStep(step) {
      HandlerStepFootprint(s, step);
    } else if IsLoopStep(step) {
      LoopStepFootprint(s, step);
    }
  }

  /** A frame is written to a socket of the loop's own conversation, and to no socket that is past the entry. */
  lemma WriteStaysInConversation(s: State, l: nat)
    requires Inv(s) && Enabled(s, LWrite(l))
    ensures var w := s.loops[l].pc.todo[0];
            && s.handlers[w].conversationId == ConversationOf(s, l)
            && Below(s.handlers[w].got, s.loops[l].pc.i)
            && Relayable(Log(s, ConversationOf(s, l)), s.loops[l].pc.i)
  {
    RunningLoop(s, l);
    var w := s.loops[l].pc.todo[0];
    assert w in s.loops[l].pc.todo;
    assert Below(s.handlers[w].got, Bound(s.loops[l], w));
  }

  // ----- ownership -----

  /** At most one live uncancelled loop per conversation, and it is the stored one. Such a loop always finds
      itself subscribed, so it never ends on its own; every finished loop was cancelled. */
  lemma OneOwnerPerConversation(logs: map<Uuid, seq<Payload>>, steps: seq<Step>, l: nat)
    requires Trace(Init(logs), steps) && l < |After(Init(logs), steps).loops|
    ensures var s := After(Init(logs), steps);
            && (LoopRuns(s, l) ==>
                  && ConversationOf(s, l) in s.hub.subscriptions
                  && s.hub.subscriptions[ConversationOf(s, l)] == l
                  && IsSubscribed(s.hub, ConversationOf(s, l))
                  && !s.loops[l].pc.Finished?
                  && (forall k :: 0 <= k < |s.loops| && k != l && ConversationOf(s, k) == ConversationOf(s, l) ==>
                        !LoopRuns(s, k)))
            && (s.loops[l].pc.Finished? ==> IsCancelled(s, l))
  {
    ReachableOk(logs, steps);
    var s := After(Init(logs), steps);
    if LoopRuns(s, l) {
      LookupFindsOwnState(s.hub, l);
    }
  }

  /** Marking by conversation touches the event of the marking loop and of no other. */
  lemma MarksTouchOwnEvent(s: State, l: nat, step: Step, k: nat)
    requires Inv(s) && Enabled(s, step) && (step == LMarkReady(l) || step == LMarkNotReady(l)) && k < |s.hub.tasks|
    ensures var t' := Apply(s, step).hub.tasks[k];
            if k == l then t'.ready == step.LMarkReady? else t' == s.hub.tasks[k]
  {
    LookupFindsOwnState(s.hub, l);
  }

  // ----- readiness -----

  /** A set `ready` event of a stored entry means that its loop holds a completed channel subscription, or
      has just failed and not yet cleared the event. */
  lemma ReadyMeansSubscribed(logs: map<Uuid, seq<Payload>>, steps: seq<Step>, c: Uuid)
    requires Trace(Init(logs), steps) && c in After(Init(logs), steps).hub.subscriptions
    ensures var s := After(Init(logs), steps);
            var l := s.hub.subscriptions[c];
            && l < |s.loops| == |s.hub.tasks|
            && (s.hub.tasks[l].ready ==>
                  s.loops[l].subscribed > 0 && (Relaying(s.loops[l].pc) || s.loops[l].pc == MarkingNotReady(true)))
            && (Relaying(s.loops[l].pc) ==> s.hub.tasks[l].ready)
  {
    ReachableOk(logs, steps);
    var s := After(Init(logs), steps);
    assert LoopReadyOk(s.hub.tasks[s.hub.subscriptions[c]], s.loops[s.hub.subscriptions[c]]);
  }

  /** A subscribe that returns normally while not stopping does so after the loop of the state it got has
      completed a channel subscription; one that waited returns only on a `set` that came after. */
  lemma SubscribeReturnsSubscribed(s: State, h: nat)
    requires Inv(s)
    ensures Enabled(s, HWake(h)) ==>
      var pc := s.handlers[h].pc;
      pc.l < |s.loops| && s.loops[pc.l].subscribed > 0 && s.hub.tasks[pc.l].wakes > pc.seen
    ensures Enabled(s, HSubscribe(h)) && !s.hub.stopping && Apply(s, HSubscribe(h)).handlers[h].pc.Running? ==>
      var c := s.handlers[h].conversationId;
      c in s.hub.subscriptions && s.loops[s.hub.subscriptions[c]].subscribed > 0
  {
    if Enabled(s, HWake(h)) {
      assert JoinOk(s.handlers[h].pc, s.hub.tasks);
      assert LoopReadyOk(s.hub.tasks[s.handlers[h].pc.l], s.loops[s.handlers[h].pc.l]);
    }
    if Enabled(s, HSubscribe(h)) && !s.hub.stopping {
      var c := s.handlers[h].conversationId;
      if c in s.hub.subscriptions {
        StoredTaskIsLive(s.hub, c);
        assert LoopReadyOk(s.hub.tasks[s.hub.subscriptions[c]], s.loops[s.hub.subscriptions[c]]);
      }
    }
  }

  // ----- leaks -----

  predicate AllGone(s: State) {
    forall h :: 0 <= h < |s.handlers| ==> s.handlers[h].pc.Gone?
  }

  /** Every entry has a handler that still owes its conversation an unsubscribe, and every registered socket
      belongs to a handler before its disconnect; so nothing is left when all handlers are gone. */
  lemma NoLeaks(logs: map<Uuid, seq<Payload>>, steps: seq<Step>)
    requires Trace(Init(logs), steps)
    ensures var s := After(Init(logs), steps);
            && (forall c :: c in s.hub.subscriptions ==> Owed(s.handlers, c))
            && (forall c: Uuid, h: nat {:trigger h in s.registry[c]} :: c in s.registry && h in s.registry[c] ==>
                  h < |s.handlers| && s.handlers[h].conversationId == c && BeforeDisconnect(s.handlers[h].pc))
            && (AllGone(s) ==> s.hub.subscriptions == map[] && s.registry == map[])
  {
    ReachableOk(logs, steps);
    var s := After(Init(logs), steps);
    forall c | c in s.hub.subscriptions ensures !AllGone(s) {
      var h: nat :| OwedBy(s.handlers, c, h);
      assert !s.handlers[h].pc.Gone?;
    }
    forall c | c in s.registry ensures !AllGone(s) {
      var h: nat :| h in s.registry[c];
      assert !s.handlers[h].pc.Gone?;
    }
  }

  // ----- stop -----

  predicate NoStart(steps: seq<Step>) {
    forall i :: 0 <= i < |steps| ==> !steps[i].CStart?
  }

  /** Still stopping, no new task, and nothing relayed. */
  predicate StaysStopped(s: State, s': State) {
    && s'.hub.stopping && |s'.hub.tasks| == |s.hub.tasks|
    && |s.handlers| <= |s'.handlers|
    && (forall h :: 0 <= h < |s.handlers| ==> s'.handlers[h].got == s.handlers[h].got)
  }

  lemma StoppedHandlerStep(s: State, step: Step)
    requires s.hub.stopping && Enabled(s, step) && IsHandlerStep(step)
    ensures StaysStopped(s, Apply(s, step))
  {
  }

  lemma StoppedOtherStep(s: State, step: Step)
    requires s.hub.stopping && Enabled(s, step) && !IsHandlerStep(step) && !IsLoopStep(step) && !step.CStart?
    ensures StaysStopped(s, Apply(s, step))
  {
  }

  /** No loop runs any more, so the only loop step left is the unwinding of a cancelled one. */
  lemma StoppedLoopStep(s: State, step: Step)
    requires OwnerOk(s.hub, s.loops) && s.hub.stopping && Enabled(s, step) && IsLoopStep(step)
    ensures StaysStopped(s, Apply(s, step))
  {
    assert forall l :: 0 <= l < |s.loops| ==> IsCancelled(s, l);
    assert step.LUnwind?;
  }

  lemma StoppedStep(s: State, step: Step)
    requires Inv(s) && s.hub.stopping && Enabled(s, step) && !step.CStart?
    ensures StaysStopped(s, Apply(s, step))
  {
    if IsHandlerStep(step) {
      StoppedHandlerStep(s, step);
    } else if IsLoopStep(step) {
      StoppedLoopStep(s, step);
    } else {
      StoppedOtherStep(s, step);
    }
  }

  /** From the first section of `stop` until the next `start`: no entry, every loop cancelled or done, none
      created, and not one more frame relayed, whatever subscribes race with it. */
  lemma {:induction false} StopIsFinal(s: State, steps: seq<Step>)
    requires Inv(s) && s.hub.stopping && Trace(s, steps) && NoStart(steps)
    ensures var s' := After(s, steps);
            && StaysStopped(s, s') && s'.hub.subscriptions == map[] && |s'.loops| == |s.loops|
            && (forall l :: 0 <= l < |s'.loops| ==> IsCancelled(s', l))
    decreases |steps|
  {
    if steps != [] {
      var s1 := Apply(s, steps[0]);
      StoppedStep(s, steps[0]);
      StepKeeps(s, steps[0]);
      assert NoStart(steps[1..]);
      StopIsFinal(s1, steps[1..]);
    }
  }

  /** The first section of `stop` leaves that state behind in one step. */
  lemma StopTakesEffect(s: State, k: nat)
    requires Inv(s) && Enabled(s, CStop(k))
    ensures var s' := Apply(s, CStop(k));
            Inv(s') && s'.hub.stopping && s'.hub.subscriptions == map[] &&
            forall l :: 0 <= l < |s'.loops| ==> IsCancelled(s', l)
  {
    StepKeeps(s, CStop(k));
    StopKeeps(s.hub);
  }

  // ----- delays -----

  /** How the attempts of loop `l` have gone in a run: a sleep ends a failed one, marking ready a successful one. */
  function Attempts(steps: seq<Step>, l: nat): seq<Attempt> {
    if steps == [] then []
    else
      Attempts(steps[..|steps| - 1], l) + AttemptOf(steps[|steps| - 1], l)
  }

  function AttemptOf(step: Step, l: nat): seq<Attempt> {
    if step == LSlept(l) then [Attempt.Failed] else if step == LMarkReady(l) then [Attempt.Subscribed] else []
  }

  /** The loop's counter agrees with its attempts; a loop not yet created has made none. */
  predicate Counts(s: State, l: nat, attempts: seq<Attempt>) {
    if l < |s.loops| then s.loops[l].failures == TrailingFailures(attempts) else attempts == []
  }

  lemma LoopStepFailures(s: State, step: Step, l: nat)
    requires Enabled(s, step) && IsLoopStep(step) && l < |s.loops|
    ensures l < |Apply(s, step).loops|
    ensures Apply(s, step).loops[l].failures ==
      if step == LSlept(l) then s.loops[l].failures + 1 else if step == LMarkReady(l) then 0 else s.loops[l].failures
  {
    LoopStepFootprint(s, step);
    if step.l == l {
      OwnStepFailures(s, step);
    }
  }

  lemma OwnStepFailures(s: State, step: Step)
    requires Enabled(s, step) && IsLoopStep(step)
    ensures var before := s.loops[step.l].failures;
            Apply(s, step).loops[step.l].failures ==
              if step.LSlept? then before + 1 else if step.LMarkReady? then 0 else before
  {
    if IsRedisStep(step) {
      OwnRedisStepFailures(s, step);
    }
  }

  lemma OwnRedisStepFailures(s: State, step: Step)
    requires Enabled(s, step) && IsRedisStep(step)
    ensures Apply(s, step).loops[step.l].failures == if step.LMarkReady? then 0 else s.loops[step.l].failures
  {
  }

  lemma OtherStepFailures(s: State, step: Step, l: nat)
    requires Enabled(s, step) && !IsLoopStep(step) && l < |Apply(s, step).loops|
    ensures Apply(s, step).loops[l].failures == if l < |s.loops| then s.loops[l].failures else 0
  {
  }

  lemma {:induction false} FailuresAreTrailing(logs: map<Uuid, seq<Payload>>, steps: seq<Step>, l: nat)
    requires Trace(Init(logs), steps)
    ensures Counts(After(Init(logs), steps), l, Attempts(steps, l))
    decreases |steps|
  {
    if steps != [] {
      var n := |steps| - 1;
      assert steps == steps[..n] + [steps[n]];
      TraceSplits(Init(logs), steps[..n], [steps[n]]);
      FailuresAreTrailing(logs, steps[..n], l);
      FailuresStep(After(Init(logs), steps[..n]), steps[n], l, Attempts(steps[..n], l));
    }
  }

  lemma FailuresStep(s: State, step: Step, l: nat, attempts: seq<Attempt>)
    requires Enabled(s, step) && Counts(s, l, attempts)
    ensures Counts(Apply(s, step), l, attempts + AttemptOf(step, l))
  {
    var after := attempts + AttemptOf(step, l);
    if IsLoopStep(step) && l < |s.loops| {
      LoopStepFailures(s, step, l);
      if AttemptOf(step, l) == [] {
        assert after == attempts;
      } else {
        assert after[..|after| - 1] == attempts;
      }
    } else if !IsLoopStep(step) {
      assert after == attempts;
      if l < |Apply(s, step).loops| {
        OtherStepFailures(s, step, l);
      } else {
        OtherStepAddsLoops(s, step);
      }
    } else {
      LoopStepAddsNoLoop(s, step);
    }
  }

  lemma OtherStepAddsLoops(s: State, step: Step)
    requires Enabled(s, step) && !IsLoopStep(step)
    ensures |s.loops| <= |Apply(s, step).loops|
  {
  }

  lemma LoopStepAddsNoLoop(s: State, step: Step)
    requires Enabled(s, step) && IsLoopStep(step)
    ensures step.l < |s.loops| == |Apply(s, step).loops|
  {
    LoopStepFootprint(s, step);
  }

  /** After `k` consecutive failures since its last successful subscription, a loop's next delay is min(2^k, 30), and
      its sleep since then adds up to 2^k - 1 for k <= 5 and to 31 + 30(k - 5) beyond. */
  lemma BackoffIsBounded(logs: map<Uuid, seq<Payload>>, steps: seq<Step>, l: nat)
    requires Trace(Init(logs), steps) && l < |After(Init(logs), steps).loops|
    ensures var loop, k := After(Init(logs), steps).loops[l], TrailingFailures(Attempts(steps, l));
            && loop.backoff == (if Pow2(k) < 30 then Pow2(k) else 30)
            && loop.slept == (if k <= 5 then Pow2(k) - 1 else 31 + 30 * (k - 5))
            && 1 <= loop.backoff <= 30
  {
    ReachableOk(logs, steps);
    FailuresAreTrailing(logs, steps, l);
  }

  // ----- locks -----

  function Actor(step: Step): Option<Task> {
    match step
    case TakePub(t) => Some(t)
    case TakeMgr(t) => Some(t)
    case HConnect(h) => Some(HandlerTask(h))
    case HSubscribe(h) => Some(HandlerTask(h))
    case HWake(h) => Some(HandlerTask(h))
    case HTimeout(h) => Some(HandlerTask(h))
    case HForcePop(h) => Some(HandlerTask(h))
    case HJoined(h) => Some(HandlerTask(h))
    case HDisconnect(h) => Some(HandlerTask(h))
    case HSocketClosed(h) => Some(HandlerTask(h))
    case HRunEnds(h) => Some(HandlerTask(h))
    case HUnsubscribe(h) => Some(HandlerTask(h))
    case LCheck(l, _) => Some(LoopTask(l))
    case LSubscribed(l, _) => Some(LoopTask(l))
    case LMarkReady(l) => Some(LoopTask(l))
    case LRecheck(l) => Some(LoopTask(l))
    case LPoll(l, _) => Some(LoopTask(l))
    case LSnapshot(l, _) => Some(LoopTask(l))
    case LWrite(l) => Some(LoopTask(l))
    case LSend(l, _) => Some(LoopTask(l))
    case LRemove(l) => Some(LoopTask(l))
    case LMarkNotReady(l) => Some(LoopTask(l))
    case LSlept(l) => Some(LoopTask(l))
    case LClosed(l) => Some(LoopTask(l))
    case LUnwind(l) => Some(LoopTask(l))
    case CStart(k) => Some(ControlTask(k))
    case CStop(k) => Some(ControlTask(k))
    case CJoined(k) => Some(ControlTask(k))
    case CStopEnd(k) => Some(ControlTask(k))
    case _ => None
  }

  /** The task has a step: its own, or the answer of Redis, a socket, a timer or its `ready` event. */
  ghost predicate CanStep(s: State, t: Task) {
    exists step :: Enabled(s, step) && Actor(step) == Some(t)
  }

  predicate Live(s: State, t: Task) {
    match t
    case HandlerTask(h) => h < |s.handlers| && !s.handlers[h].pc.Gone?
    case LoopTask(l) => l < |s.loops| && !s.loops[l].pc.Finished?
    case ControlTask(k) => k < |s.controls| && !s.controls[k].ControlDone?
  }

  /** `t` awaits the coroutine of loop `l`. */
  predicate Joins(s: State, t: Task, l: nat) {
    match t
    case HandlerTask(h) =>
      h < |s.handlers| && var pc := s.handlers[h].pc;
      pc == JoinAfterTimeout(l) || pc == JoinAfterFail(l) || pc == JoinAfterUnsubscribe(l)
    case LoopTask(_) => false
    case ControlTask(k) => k < |s.controls| && s.controls[k].JoinAll? && l in s.controls[k].ls
  }

  /** `t` cannot go on before `u` does: `u` holds the lock it needs, or is the task it joins. */
  predicate WaitsFor(s: State, t: Task, u: Task) {
    || (PubSection(s, t) && s.pubLock == Some(u) && u != t)
    || (MgrSection(s, t) && s.mgrLock == Some(u) && u != t)
    || (u.LoopTask? && Joins(s, t, u.l))
  }

  function Rank(s: State, t: Task): nat {
    if s.mgrLock == Some(t) || (t.LoopTask? && IsCancelled(s, t.l)) then 0
    else if s.pubLock == Some(t) || !PubSection(s, t) then 1
    else 2
  }

  /** A lock is held only inside its own section, never across a join, a sleep or I/O; and a task that holds
      the manager lock needs no other lock that it does not hold already. */
  lemma LockOrder(logs: map<Uuid, seq<Payload>>, steps: seq<Step>, t: Task)
    requires Trace(Init(logs), steps)
    ensures var s := After(Init(logs), steps);
            && (s.pubLock == Some(t) ==> PubSection(s, t))
            && (s.mgrLock == Some(t) ==> MgrSection(s, t))
            && (s.mgrLock == Some(t) && PubSection(s, t) ==> s.pubLock == Some(t))
  {
    ReachableOk(logs, steps);
  }

  lemma {:induction false} Enumerate(ws: set<Socket>) returns (order: seq<Socket>)
    ensures NoDuplicates(order) && (set w | w in order) == ws
  {
    if ws == {} {
      order := [];
    } else {
      var w :| w in ws;
      var rest := Enumerate(ws - {w});
      order := [w] + rest;
      forall v ensures v in order <==> v in ws {
        assert v in (set x | x in rest) <==> v in ws - {w};
      }
    }
  }

  lemma ByWitness(s: State, t: Task, step: Step)
    requires Enabled(s, step) && Actor(step) == Some(t)
    ensures CanStep(s, t)
  {
  }

  lemma CancelledLoopSteps(s: State, l: nat)
    requires Live(s, LoopTask(l)) && IsCancelled(s, l)
    ensures CanStep(s, LoopTask(l))
  {
    ByWitness(s, LoopTask(l), LUnwind(l));
  }

  /** Who holds every lock that the next section needs can run it. */
  lemma HolderSteps(s: State, t: Task)
    requires Inv(s) && Live(s, t) && MayAcquire(s, t)
    requires PubSection(s, t) ==> s.pubLock == Some(t)
    requires MgrSection(s, t) ==> s.mgrLock == Some(t)
    requires forall l :: Joins(s, t, l) ==> TaskAt(s.hub, l).done
    ensures CanStep(s, t)
  {
    match t
    case HandlerTask(h) => HandlerSteps(s, h);
    case LoopTask(l) =>
      RunningLoop(s, l);
      if s.loops[l].pc.Sending? {
        assert s.loops[l].pc.todo[0] in s.loops[l].pc.todo;
      }
      LoopSteps(s, l);
    case ControlTask(k) => ControlSteps(s, k);
  }

  lemma HandlerSteps(s: State, h: nat)
    requires Live(s, HandlerTask(h))
    requires PubSection(s, HandlerTask(h)) ==> s.pubLock == Some(HandlerTask(h))
    requires MgrSection(s, HandlerTask(h)) ==> s.mgrLock == Some(HandlerTask(h))
    requires forall l :: Joins(s, HandlerTask(h), l) ==> TaskAt(s.hub, l).done
    ensures CanStep(s, HandlerTask(h))
  {
    var t, pc := HandlerTask(h), s.handlers[h].pc;
    if PubSection(s, t) || MgrSection(s, t) {
      LockedHandlerSteps(s, h);
    } else if pc.JoinAfterTimeout? || pc.JoinAfterFail? || pc.JoinAfterUnsubscribe? {
      assert Joins(s, t, pc.l);
      ByWitness(s, t, HJoined(h));
    } else {
      WaitingHandlerSteps(s, h);
    }
  }

  /** At a section under a lock. */
  lemma LockedHandlerSteps(s: State, h: nat)
    requires PubSection(s, HandlerTask(h)) || MgrSection(s, HandlerTask(h))
    requires PubSection(s, HandlerTask(h)) ==> s.pubLock == Some(HandlerTask(h))
    requires MgrSection(s, HandlerTask(h)) ==> s.mgrLock == Some(HandlerTask(h))
    ensures CanStep(s, HandlerTask(h))
  {
    var t, pc := HandlerTask(h), s.handlers[h].pc;
    if pc.AtConnect? {
      ByWitness(s, t, HConnect(h));
    } else if pc.AtSubscribe? {
      ByWitness(s, t, HSubscribe(h));
    } else if pc.AtUnsubscribe? {
      ByWitness(s, t, HUnsubscribe(h));
    } else if PubSection(s, t) {
      ByWitness(s, t, HForcePop(h));
    } else {
      ByWitness(s, t, HDisconnect(h));
    }
  }

  /** Awaiting its event, the socket or the chat service. */
  lemma WaitingHandlerSteps(s: State, h: nat)
    requires h < |s.handlers| && var pc := s.handlers[h].pc; pc.Awaiting? || pc.AtSocketClose? || pc.Running?
    ensures CanStep(s, HandlerTask(h))
  {
    var t := HandlerTask(h);
    match s.handlers[h].pc
    case Awaiting(_, _) => ByWitness(s, t, HTimeout(h));
    case AtSocketClose => ByWitness(s, t, HSocketClosed(h));
    case Running => ByWitness(s, t, HRunEnds(h));
  }

  lemma LoopSteps(s: State, l: nat)
    requires Live(s, LoopTask(l)) && !IsCancelled(s, l) && !s.loops[l].pc.Unwinding?
    requires s.loops[l].pc.Sending? ==> s.loops[l].pc.todo != [] && s.loops[l].pc.todo[0] < |s.handlers|
    requires PubSection(s, LoopTask(l)) ==> s.pubLock == Some(LoopTask(l))
    requires MgrSection(s, LoopTask(l)) ==> s.mgrLock == Some(LoopTask(l))
    ensures CanStep(s, LoopTask(l))
  {
    var t, pc := LoopTask(l), s.loops[l].pc;
    if PubSection(s, t) {
      LockedLoopSteps(s, l);
    } else if pc.Snapshotting? {
      var order := Enumerate(Members(s.registry, ConversationOf(s, l)));
      ByWitness(s, t, LSnapshot(l, order));
    } else if pc.Sending? {
      ByWitness(s, t, if pc.written then LSend(l, Delivered) else LWrite(l));
    } else if pc.Removing? {
      ByWitness(s, t, LRemove(l));
    } else {
      WaitingLoopSteps(s, l);
    }
  }

  /** At a section under the pubsub lock. */
  lemma LockedLoopSteps(s: State, l: nat)
    requires PubSection(s, LoopTask(l)) && s.pubLock == Some(LoopTask(l)) && LoopRuns(s, l)
    ensures CanStep(s, LoopTask(l))
  {
    var t := LoopTask(l);
    match s.loops[l].pc
    case Checking => ByWitness(s, t, LCheck(l, true));
    case MarkingReady => ByWitness(s, t, LMarkReady(l));
    case Rechecking => ByWitness(s, t, LRecheck(l));
    case MarkingNotReady(_) => ByWitness(s, t, LMarkNotReady(l));
  }

  /** Awaiting Redis or a timer. */
  lemma WaitingLoopSteps(s: State, l: nat)
    requires LoopRuns(s, l) && var pc := s.loops[l].pc; pc.Subscribing? || pc.Polling? || pc.Sleeping? || pc.Closing?
    ensures CanStep(s, LoopTask(l))
  {
    var t := LoopTask(l);
    match s.loops[l].pc
    case Subscribing => ByWitness(s, t, LSubscribed(l, true));
    case Polling => ByWitness(s, t, LPoll(l, Nothing));
    case Sleeping(_) => ByWitness(s, t, LSlept(l));
    case Closing => ByWitness(s, t, LClosed(l));
  }

  lemma ControlSteps(s: State, k: nat)
    requires Live(s, ControlTask(k))
    requires PubSection(s, ControlTask(k)) ==> s.pubLock == Some(ControlTask(k))
    requires forall l :: Joins(s, ControlTask(k), l) ==> TaskAt(s.hub, l).done
    ensures CanStep(s, ControlTask(k))
  {
    var t := ControlTask(k);
    match s.controls[k]
    case AtStart => ByWitness(s, t, CStart(k));
    case AtStop => ByWitness(s, t, CStop(k));
    case JoinAll(ls) =>
      forall l | l in ls ensures TaskAt(s.hub, l).done { assert Joins(s, t, l); }
      ByWitness(s, t, CJoined(k));
    case AtStopEnd => ByWitness(s, t, CStopEnd(k));
  }

  /** A task that cannot step waits for a live task of lower rank. */
  lemma BlockedWaits(s: State, t: Task) returns (u: Task)
    requires Inv(s) && Live(s, t) && !CanStep(s, t)
    ensures WaitsFor(s, t, u) && Live(s, u) && Rank(s, u) < Rank(s, t)
  {
    if t.LoopTask? && IsCancelled(s, t.l) {
      CancelledLoopSteps(s, t.l);
    }
    if MgrSection(s, t) && s.mgrLock != Some(t) {
      FreeLockIsTaken(s, t);
      u := s.mgrLock.value;
    } else if PubSection(s, t) && s.pubLock != Some(t) {
      FreeLockIsTaken(s, t);
      u := s.pubLock.value;
    } else if l :| Joins(s, t, l) && !TaskAt(s.hub, l).done {
      u := LoopTask(l);
      JoinedIsCancelled(s, t, l);
    } else {
      HolderSteps(s, t);
    }
  }

  lemma FreeLockIsTaken(s: State, t: Task)
    requires MayAcquire(s, t) && !CanStep(s, t)
    ensures MgrSection(s, t) ==> s.mgrLock.Some?
    ensures PubSection(s, t) ==> s.pubLock.Some?
  {
    if MgrSection(s, t) && s.mgrLock == None {
      ByWitness(s, t, TakeMgr(t));
    }
    if PubSection(s, t) && s.pubLock == None {
      ByWitness(s, t, TakePub(t));
    }
  }

  lemma JoinedIsCancelled(s: State, t: Task, l: nat)
    requires Inv(s) && Joins(s, t, l)
    ensures l < |s.loops| && IsCancelled(s, l)
  {
    if t.HandlerTask? {
      assert JoinOk(s.handlers[t.h].pc, s.hub.tasks);
    }
  }

  /** Deadlock freedom: from every live task, a chain of at most three waits ends in a task that can step. */
  lemma {:induction false} WaitChain(s: State, t: Task) returns (chain: seq<Task>)
    requires Inv(s) && Live(s, t)
    ensures chain != [] && chain[0] == t && |chain| <= Rank(s, t) + 1 <= 3
    ensures forall i :: 0 <= i < |chain| - 1 ==> WaitsFor(s, chain[i], chain[i + 1])
    ensures CanStep(s, chain[|chain| - 1])
    decreases Rank(s, t)
  {
    if CanStep(s, t) {
      chain := [t];
    } else {
      var u := BlockedWaits(s, t);
      var rest := WaitChain(s, u);
      chain := [t] + rest;
    }
  }
}
