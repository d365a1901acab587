/** When a registered socket has a subscription behind it, and when it loses it. */
module FanOutCoverage {
  import opened Ids
  import opened Registry
  import opened Subscriptions
  import opened FanOut
  import opened FanOutInvariant
  import opened FanOutSteps

  predicate Registered(s: State, h: nat) {
    h < |s.handlers| && h in Members(s.registry, s.handlers[h].conversationId)
  }

  /** The conversation of handler `h` has an entry. */
  predicate Covered(s: State, h: nat) {
    h < |s.handlers| && s.handlers[h].conversationId in s.hub.subscriptions
  }

  /** The step is the first section of `stop`, or a forced unsubscribe of conversation `c`. */
  predicate Uncovers(s: State, step: Step, c: Uuid) {
    match step
    case CStop(_) => true
    case HForcePop(h) => h < |s.handlers| && s.handlers[h].conversationId == c
    case _ => false
  }

  /** The step is a subscribe to conversation `c` that is not turned away. */
  predicate Covers(s: State, step: Step, c: Uuid) {
    match step
    case HSubscribe(h) => h < |s.handlers| && s.handlers[h].conversationId == c && !s.hub.stopping
    case _ => false
  }

  // ----- one step -----

  lemma HandlerStepEntry(s: State, step: Step, c: Uuid)
    requires Inv(s) && Enabled(s, step) && IsHandlerStep(step)
    requires Members(s.registry, c) != {}
    ensures var before, after := c in s.hub.subscriptions, c in Apply(s, step).hub.subscriptions;
            && (before ==> (!after <==> Uncovers(s, step, c)))
            && (!before ==> (after <==> Covers(s, step, c)))
  {
    if step.HSubscribe? {
      SubscribeEntry(s, step.h, c);
    } else if step.HForcePop? {
      ForcePopEntry(s, step.h, c);
    } else if step.HUnsubscribe? {
      UnsubscribeEntry(s, step.h, c);
    } else {
      QuietHandlerStep(s, step);
    }
  }

  lemma QuietHandlerStep(s: State, step: Step)
    requires Enabled(s, step) && IsHandlerStep(step) && !step.HSubscribe? && !step.HForcePop? && !step.HUnsubscribe?
    ensures Apply(s, step).hub == s.hub
  {
  }

  lemma SubscribeEntry(s: State, h: nat, c: Uuid)
    requires SingleOwner(s.hub) && h < |s.handlers|
    ensures c in SubscribeStep(s, h).hub.subscriptions <==>
      c in s.hub.subscriptions || Covers(s, HSubscribe(h), c)
  {
    SubscribeKeeps(s.hub, s.handlers[h].conversationId);
  }

  lemma ForcePopEntry(s: State, h: nat, c: Uuid)
    requires h < |s.handlers|
    ensures c in ForcePopStep(s, h).hub.subscriptions <==>
      c in s.hub.subscriptions && !Uncovers(s, HForcePop(h), c)
  {
  }

  lemma UnsubscribeEntry(s: State, h: nat, c: Uuid)
    requires h < |s.handlers| && Members(s.registry, c) != {}
    ensures c in UnsubscribeStep(s, h).hub.subscriptions <==> c in s.hub.subscriptions
  {
  }

  lemma OtherStepEntry(s: State, step: Step, c: Uuid)
    requires Enabled(s, step) && !IsHandlerStep(step)
    ensures var before, after := c in s.hub.subscriptions, c in Apply(s, step).hub.subscriptions;
            && (before ==> (!after <==> Uncovers(s, step, c)))
            && (!before ==> (after <==> Covers(s, step, c)))
  {
    if IsLoopStep(step) {
      LoopStepFootprint(s, step);
    }
  }

  /** While a conversation has a registered socket, its entry goes exactly in the first section of `stop` and in a
      forced unsubscribe of that conversation (no ordinary unsubscribe takes it), and an entry that is gone comes
      back exactly in a subscribe to the conversation while not stopping. */
  lemma EntryChangesExactly(s: State, step: Step, c: Uuid)
    requires Inv(s) && Enabled(s, step) && Members(s.registry, c) != {}
    ensures var before, after := c in s.hub.subscriptions, c in Apply(s, step).hub.subscriptions;
            && (before ==> (!after <==> Uncovers(s, step, c)))
            && (!before ==> (after <==> Covers(s, step, c)))
  {
    if IsHandlerStep(step) {
      HandlerStepEntry(s, step, c);
    } else {
      OtherStepEntry(s, step, c);
    }
  }

  // ----- runs -----

  lemma HandlersPersist(s: State, step: Step, h: nat)
    requires Enabled(s, step) && h < |s.handlers|
    ensures var s' := Apply(s, step);
            && h < |s'.handlers|
            && s'.handlers[h].conversationId == s.handlers[h].conversationId
            && (s'.handlers[h].pc.AtConnect? ==> s.handlers[h].pc.AtConnect?)
  {
    if IsHandlerStep(step) {
      HandlerStepFootprint(s, step);
    } else if IsLoopStep(step) {
      LoopStepFootprint(s, step);
    }
  }

  /** A socket joins the registry once: after its connect it can only leave. */
  lemma NeverReRegistered(s: State, step: Step, h: nat)
    requires Inv(s) && Enabled(s, step) && h < |s.handlers| && !s.handlers[h].pc.AtConnect? && !Registered(s, h)
    ensures !Registered(Apply(s, step), h)
  {
    HandlersPersist(s, step, h);
    if IsHandlerStep(step) {
      HandlerStepRegisters(s, step, h);
    } else {
      OtherStepRegisters(s, step, s.handlers[h].conversationId, h);
    }
  }

  lemma HandlerStepRegisters(s: State, step: Step, h: nat)
    requires Enabled(s, step) && IsHandlerStep(step) && h < |s.handlers| && !s.handlers[h].pc.AtConnect?
    requires !Registered(s, h)
    ensures h !in Members(Apply(s, step).registry, s.handlers[h].conversationId)
  {
  }

  lemma OtherStepRegisters(s: State, step: Step, c: Uuid, h: nat)
    requires Enabled(s, step) && !IsHandlerStep(step) && h !in Members(s.registry, c) && NoEmptySet(s.registry)
    ensures h !in Members(Apply(s, step).registry, c)
  {
    if step.LRemove? {
      RemoveAllMembers(s.registry, ConversationOf(s, step.l), s.loops[step.l].pc.failed);
    }
  }

  /** No step of the run takes the entry of conversation `c` by force. */
  predicate NoForce(s: State, steps: seq<Step>, c: Uuid)
    requires Trace(s, steps)
    decreases |steps|
  {
    steps == [] || (!Uncovers(s, steps[0], c) && NoForce(Apply(s, steps[0]), steps[1..], c))
  }

  lemma {:induction false} StaysUnregistered(s: State, steps: seq<Step>, h: nat)
    requires Inv(s) && Trace(s, steps) && h < |s.handlers| && !s.handlers[h].pc.AtConnect? && !Registered(s, h)
    ensures !Registered(After(s, steps), h)
    decreases |steps|
  {
    if steps != [] {
      StepKeeps(s, steps[0]);
      HandlersPersist(s, steps[0], h);
      NeverReRegistered(s, steps[0], h);
      StaysUnregistered(Apply(s, steps[0]), steps[1..], h);
    }
  }

  /** Coverage lasts as long as the socket stays registered and no force is used on its conversation. */
  lemma {:induction false} CoverageLasts(s: State, steps: seq<Step>, h: nat)
    requires Inv(s) && Trace(s, steps) && h < |s.handlers| && !s.handlers[h].pc.AtConnect? && Covered(s, h)
    requires NoForce(s, steps, s.handlers[h].conversationId)
    requires Registered(After(s, steps), h)
    ensures Covered(After(s, steps), h)
    decreases |steps|
  {
    if steps != [] {
      var s1 := Apply(s, steps[0]);
      if !Registered(s, h) {
        StaysUnregistered(s, steps, h);
      }
      EntryChangesExactly(s, steps[0], s.handlers[h].conversationId);
      StepKeeps(s, steps[0]);
      HandlersPersist(s, steps[0], h);
      CoverageLasts(s1, steps[1..], h);
    }
  }

  /** Some step of the run subscribes to conversation `c`, and no later one takes the entry by force. */
  predicate CoveredAnew(s: State, steps: seq<Step>, c: Uuid)
    requires Trace(s, steps)
    decreases |steps|
  {
    && steps != []
    && var s1, rest := Apply(s, steps[0]), steps[1..];
    (Covers(s, steps[0], c) && NoForce(s1, rest, c)) || CoveredAnew(s1, rest, c)
  }

  /** On a run that leaves the socket registered, it is covered at the end exactly when no force follows the last
      subscribe to its conversation, its coverage at the start counting as one. */
  lemma {:induction false} CoveredExactly(s: State, steps: seq<Step>, h: nat)
    requires Inv(s) && Trace(s, steps) && h < |s.handlers| && !s.handlers[h].pc.AtConnect?
    requires Registered(After(s, steps), h)
    ensures var c := s.handlers[h].conversationId;
            Covered(After(s, steps), h) <==> (Covered(s, h) && NoForce(s, steps, c)) || CoveredAnew(s, steps, c)
    decreases |steps|
  {
    if steps != [] {
      var s1 := Apply(s, steps[0]);
      if !Registered(s, h) {
        StaysUnregistered(s, steps, h);
      }
      EntryChangesExactly(s, steps[0], s.handlers[h].conversationId);
      StepKeeps(s, steps[0]);
      HandlersPersist(s, steps[0], h);
      CoveredExactly(s1, steps[1..], h);
    }
  }

  /** A handler whose subscribe section runs while not stopping is covered from then on: whenever its socket is
      still registered there is an entry for its conversation, unless force has been used on it since. */
  lemma CoverageAfterSubscribe(s: State, h: nat, steps: seq<Step>)
    requires Inv(s) && Enabled(s, HSubscribe(h)) && !s.hub.stopping
    requires Trace(Apply(s, HSubscribe(h)), steps)
    requires NoForce(Apply(s, HSubscribe(h)), steps, s.handlers[h].conversationId)
    requires Registered(After(Apply(s, HSubscribe(h)), steps), h)
    ensures Covered(After(Apply(s, HSubscribe(h)), steps), h)
  {
    StepKeeps(s, HSubscribe(h));
    SubscribeKeeps(s.hub, s.handlers[h].conversationId);
    CoverageLasts(Apply(s, HSubscribe(h)), steps, h);
  }

  /** What a forced unsubscribe does to the others: it leaves a registered socket of its conversation without
      an entry exactly when one is registered beside its own. */
  lemma ForcedUnsubscribeOrphans(s: State, h: nat)
    requires Inv(s) && Enabled(s, HForcePop(h))
    ensures var s', c := Apply(s, HForcePop(h)), s.handlers[h].conversationId;
            (exists k: nat {:trigger Registered(s', k)} ::
               k != h && Registered(s', k) && s'.handlers[k].conversationId == c && !Covered(s', k))
            <==> Members(s.registry, c) - {h} != {}
  {
    var s', c := Apply(s, HForcePop(h)), s.handlers[h].conversationId;
    PopKeeps(s.hub, c);
    assert s'.registry == s.registry && |s'.handlers| == |s.handlers|;
    if Members(s.registry, c) - {h} != {} {
      var k: nat :| k in Members(s.registry, c) - {h};
      assert c in s.registry && k in s.registry[c];
      assert Registered(s', k) && s'.handlers[k].conversationId == c && !Covered(s', k);
    }
    forall k: nat | k != h && Registered(s', k) && s'.handlers[k].conversationId == c && !Covered(s', k)
      ensures k in Members(s.registry, c) - {h}
    {
    }
  }

  // ----- the promise that does not hold -----

  const C: Uuid := 0
  const H0: Task := HandlerTask(0)
  const H1: Task := HandlerTask(1)
  const L0: Task := LoopTask(0)

  const EMPTY: State := Init(map[])

  const REGISTERED: State := EMPTY.(handlers := [Handler(C, AtSubscribe, [])], registry := map[C := {0}])

  const AWAITING: State := REGISTERED.(
    hub := Hub(map[C := 0], [TaskState(C, false, 0, false, false)], true, false),
    loops := [NEW_LOOP], handlers := [Handler(C, Awaiting(0, 0), [])])

  const SUBSCRIBED: State := AWAITING.(loops := [Loop(MarkingReady, 0, 1, 0, 0, 1)])

  /** A client is connected and its loop relays. */
  const CONNECTED: State := SUBSCRIBED.(
    hub := Hub(map[C := 0], [TaskState(C, true, 1, false, false)], true, false),
    loops := [Loop(Rechecking, 0, 1, 0, 0, 1)], handlers := [Handler(C, Running, [])])

  const FAILED: State := CONNECTED.(loops := [Loop(MarkingNotReady(true), 0, 1, 0, 0, 1)])

  /** Redis has failed; the loop has cleared its event and backs off. */
  const BACKING_OFF: State := FAILED.(
    hub := Hub(map[C := 0], [TaskState(C, false, 1, false, false)], true, false),
    loops := [Loop(Sleeping(true), 0, 1, 0, 0, 1)])

  /** The backoff of one second is over. */
  const RETRYING: State := BACKING_OFF.(loops := [Loop(Checking, 0, 2, 1, 1, 1)])

  /** Redis does not answer: the loop hangs in its second subscribe, for longer than anyone waits for it. */
  const HANGING: State := BACKING_OFF.(loops := [Loop(Subscribing, 0, 2, 1, 1, 1)])

  const SECOND: State := HANGING.(
    handlers := [Handler(C, Running, []), Handler(C, AtSubscribe, [])], registry := map[C := {0, 1}])

  /** A second client has waited five seconds on the same entry, all of them while the loop hangs. */
  const TIMED_OUT: State := SECOND.(handlers := [Handler(C, Running, []), Handler(C, AtTimeoutPop, [])])

  const ORPHANED: State := TIMED_OUT.(
    hub := Hub(map[], [TaskState(C, false, 1, true, false)], true, false),
    handlers := [Handler(C, Running, []), Handler(C, JoinAfterTimeout(0), [])])

  const FIRST_CLIENT: seq<Step> :=
    [Open(C), TakeMgr(H0), HConnect(0)] + [TakePub(H0), HSubscribe(0)]
    + [TakePub(L0), LCheck(0, true), LSubscribed(0, true)] + [TakePub(L0), LMarkReady(0), HWake(0)]

  const OUTAGE: seq<Step> :=
    [TakePub(L0), LRecheck(0), LPoll(0, PollFailed)] + [TakePub(L0), LMarkNotReady(0)]
    + [LSlept(0), LClosed(0)] + [TakePub(L0), LCheck(0, true)]

  const SECOND_CLIENT: seq<Step> :=
    [Open(C), TakeMgr(H1), HConnect(1)] + [TakePub(H1), HSubscribe(1), HTimeout(1)] + [TakePub(H1), HForcePop(1)]

  lemma {:induction false} TraceJoins(s: State, first: seq<Step>, rest: seq<Step>)
    requires Trace(s, first) && Trace(After(s, first), rest)
    ensures Trace(s, first + rest) && After(s, first + rest) == After(After(s, first), rest)
    decreases |first|
  {
    if first == [] {
      assert first + rest == rest;
    } else {
      assert (first + rest)[1..] == first[1..] + rest;
      TraceJoins(Apply(s, first[0]), first[1..], rest);
    }
  }

  lemma TwoSteps(s: State, a: Step, b: Step)
    requires Enabled(s, a) && Enabled(Apply(s, a), b)
    ensures Trace(s, [a, b]) && After(s, [a, b]) == Apply(Apply(s, a), b)
  {
    assert [a, b][1..] == [b] && [b][1..] == [];
    assert After(Apply(s, a), [b]) == After(Apply(Apply(s, a), b), []);
  }

  lemma ThreeSteps(s: State, a: Step, b: Step, c: Step)
    requires Enabled(s, a) && Enabled(Apply(s, a), b) && Enabled(Apply(Apply(s, a), b), c)
    ensures Trace(s, [a, b, c]) && After(s, [a, b, c]) == Apply(Apply(Apply(s, a), b), c)
  {
    assert [a, b, c][1..] == [b, c];
    TwoSteps(Apply(s, a), b, c);
  }

  lemma Connects()
    ensures Trace(EMPTY, [Open(C), TakeMgr(H0), HConnect(0)])
    ensures After(EMPTY, [Open(C), TakeMgr(H0), HConnect(0)]) == REGISTERED
  {
    ThreeSteps(EMPTY, Open(C), TakeMgr(H0), HConnect(0));
    var s := Apply(Apply(Apply(EMPTY, Open(C)), TakeMgr(H0)), HConnect(0));
    assert Members(EMPTY.registry, C) + {0} == {0};
    assert s.handlers == REGISTERED.handlers && s.registry == REGISTERED.registry;
  }

  lemma Subscribes()
    ensures Trace(REGISTERED, [TakePub(H0), HSubscribe(0)])
    ensures After(REGISTERED, [TakePub(H0), HSubscribe(0)]) == AWAITING
  {
    TwoSteps(REGISTERED, TakePub(H0), HSubscribe(0));
  }

  lemma LoopSubscribes()
    ensures Trace(AWAITING, [TakePub(L0), LCheck(0, true), LSubscribed(0, true)])
    ensures After(AWAITING, [TakePub(L0), LCheck(0, true), LSubscribed(0, true)]) == SUBSCRIBED
  {
    ThreeSteps(AWAITING, TakePub(L0), LCheck(0, true), LSubscribed(0, true));
  }

  lemma LoopIsReady()
    ensures Trace(SUBSCRIBED, [TakePub(L0), LMarkReady(0), HWake(0)])
    ensures After(SUBSCRIBED, [TakePub(L0), LMarkReady(0), HWake(0)]) == CONNECTED
  {
    ThreeSteps(SUBSCRIBED, TakePub(L0), LMarkReady(0), HWake(0));
  }

  lemma RedisFails()
    ensures Trace(CONNECTED, [TakePub(L0), LRecheck(0), LPoll(0, PollFailed)])
    ensures After(CONNECTED, [TakePub(L0), LRecheck(0), LPoll(0, PollFailed)]) == FAILED
  {
    ThreeSteps(CONNECTED, TakePub(L0), LRecheck(0), LPoll(0, PollFailed));
  }

  lemma LoopBacksOff()
    ensures Trace(FAILED, [TakePub(L0), LMarkNotReady(0)])
    ensures After(FAILED, [TakePub(L0), LMarkNotReady(0)]) == BACKING_OFF
  {
    TwoSteps(FAILED, TakePub(L0), LMarkNotReady(0));
  }

  lemma LoopRetries()
    ensures Trace(BACKING_OFF, [LSlept(0), LClosed(0)])
    ensures After(BACKING_OFF, [LSlept(0), LClosed(0)]) == RETRYING
  {
    TwoSteps(BACKING_OFF, LSlept(0), LClosed(0));
  }

  lemma LoopHangs()
    ensures Trace(RETRYING, [TakePub(L0), LCheck(0, true)])
    ensures After(RETRYING, [TakePub(L0), LCheck(0, true)]) == HANGING
  {
    TwoSteps(RETRYING, TakePub(L0), LCheck(0, true));
  }

  lemma SecondConnects()
    ensures Trace(HANGING, [Open(C), TakeMgr(H1), HConnect(1)])
    ensures After(HANGING, [Open(C), TakeMgr(H1), HConnect(1)]) == SECOND
  {
    ThreeSteps(HANGING, Open(C), TakeMgr(H1), HConnect(1));
    var s := Apply(Apply(Apply(HANGING, Open(C)), TakeMgr(H1)), HConnect(1));
    assert Members(HANGING.registry, C) + {1} == {0, 1};
    assert s.handlers == SECOND.handlers && s.registry == SECOND.registry;
  }

  lemma SecondTimesOut()
    ensures Trace(SECOND, [TakePub(H1), HSubscribe(1), HTimeout(1)])
    ensures After(SECOND, [TakePub(H1), HSubscribe(1), HTimeout(1)]) == TIMED_OUT
  {
    ThreeSteps(SECOND, TakePub(H1), HSubscribe(1), HTimeout(1));
  }

  lemma SecondPops()
    ensures Trace(TIMED_OUT, [TakePub(H1), HForcePop(1)])
    ensures After(TIMED_OUT, [TakePub(H1), HForcePop(1)]) == ORPHANED
  {
    TwoSteps(TIMED_OUT, TakePub(H1), HForcePop(1));
    assert Apply(Apply(TIMED_OUT, TakePub(H1)), HForcePop(1)).hub.tasks == ORPHANED.hub.tasks;
  }

  lemma FirstClientRun()
    ensures Trace(EMPTY, FIRST_CLIENT) && After(EMPTY, FIRST_CLIENT) == CONNECTED
  {
    Connects();
    Subscribes();
    LoopSubscribes();
    LoopIsReady();
    var a, b := [Open(C), TakeMgr(H0), HConnect(0)], [TakePub(H0), HSubscribe(0)];
    TraceJoins(EMPTY, a, b);
    TraceJoins(EMPTY, a + b, [TakePub(L0), LCheck(0, true), LSubscribed(0, true)]);
    TraceJoins(EMPTY, a + b + [TakePub(L0), LCheck(0, true), LSubscribed(0, true)],
               [TakePub(L0), LMarkReady(0), HWake(0)]);
  }

  lemma OutageRun()
    ensures Trace(CONNECTED, OUTAGE) && After(CONNECTED, OUTAGE) == HANGING
  {
    RedisFails();
    LoopBacksOff();
    LoopRetries();
    LoopHangs();
    var a, b := [TakePub(L0), LRecheck(0), LPoll(0, PollFailed)], [TakePub(L0), LMarkNotReady(0)];
    TraceJoins(CONNECTED, a, b);
    TraceJoins(CONNECTED, a + b, [LSlept(0), LClosed(0)]);
    TraceJoins(CONNECTED, a + b + [LSlept(0), LClosed(0)], [TakePub(L0), LCheck(0, true)]);
  }

  lemma SecondClientRun()
    ensures Trace(HANGING, SECOND_CLIENT) && After(HANGING, SECOND_CLIENT) == ORPHANED
  {
    SecondConnects();
    SecondTimesOut();
    SecondPops();
    var a, b := [Open(C), TakeMgr(H1), HConnect(1)], [TakePub(H1), HSubscribe(1), HTimeout(1)];
    TraceJoins(HANGING, a, b);
    TraceJoins(HANGING, a + b, [TakePub(H1), HForcePop(1)]);
  }

  /** "Each instance with local clients for a conversation subscribes to its channel" fails on this run: while Redis
      does not answer, a second client's timeout pops the entry it shares with the first, which stays registered and
      running with no subscription, while nobody is stopping. */
  lemma CoverageLostInOutage()
    ensures Trace(Init(map[]), FIRST_CLIENT + OUTAGE + SECOND_CLIENT)
    ensures var s := After(Init(map[]), FIRST_CLIENT + OUTAGE + SECOND_CLIENT);
            && s == ORPHANED
            && Registered(s, 0) && s.handlers[0].pc.Running? && !Covered(s, 0)
            && !s.hub.stopping
  {
    FirstClientRun();
    OutageRun();
    SecondClientRun();
    TraceJoins(EMPTY, FIRST_CLIENT, OUTAGE);
    TraceJoins(EMPTY, FIRST_CLIENT + OUTAGE, SECOND_CLIENT);
  }

  /** And so it stays, however long it is registered, until someone subscribes to the conversation. */
  lemma OrphanedUntilSubscribe(steps: seq<Step>)
    requires Trace(ORPHANED, steps) && Registered(After(ORPHANED, steps), 0)
    ensures Covered(After(ORPHANED, steps), 0) <==> CoveredAnew(ORPHANED, steps, C)
  {
    FirstClientRun();
    OutageRun();
    SecondClientRun();
    InitOk(map[]);
    RunKeeps(EMPTY, FIRST_CLIENT);
    RunKeeps(CONNECTED, OUTAGE);
    RunKeeps(HANGING, SECOND_CLIENT);
    CoveredExactly(ORPHANED, steps, 0);
  }
}
