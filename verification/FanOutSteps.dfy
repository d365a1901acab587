/** Every step keeps the invariant, and so does every run. */
module FanOutSteps {
  import opened Ids
  import opened Frames
  import opened Registry
  import opened Backoff
  import opened Subscriptions
  import opened FanOut
  import opened FanOutInvariant

  // ----- the environment and the locks -----

  lemma PublishKeeps(s: State, c: Uuid, p: Payload)
    requires Inv(s)
    ensures Inv(Apply(s, Publish(c, p)))
  {
    var s' := Apply(s, Publish(c, p));
    GotFrame(s.handlers, s.handlers, s.logs, s'.logs);
    LoopsFrame(s.loops, s.loops, s.hub.tasks, s.hub.tasks, |s.loops|, s.logs, s'.logs, s.handlers, s.handlers);
  }

  lemma OpenKeeps(s: State, c: Uuid)
    requires Inv(s)
    ensures Inv(Apply(s, Open(c)))
  {
    var s' := Apply(s, Open(c));
    assert Grown(s.logs, s.logs);
    GotFrame(s.handlers, s'.handlers, s.logs, s.logs);
    LoopsFrame(s.loops, s.loops, s.hub.tasks, s.hub.tasks, |s.loops|, s.logs, s.logs, s.handlers, s'.handlers);
    forall c | c in s.hub.subscriptions ensures Owed(s'.handlers, c) {
      var h :| OwedBy(s.handlers, c, h);
      assert OwedBy(s'.handlers, c, h);
    }
    forall d: Uuid, h: nat | d in s.registry && h in s.registry[d]
      ensures h < |s'.handlers| && s'.handlers[h].conversationId == d && BeforeDisconnect(s'.handlers[h].pc)
    {
      assert h < |s.handlers| && s.handlers[h].conversationId == d;
    }
  }

  lemma CallKeeps(s: State, step: Step)
    requires Inv(s) && Enabled(s, step) && (step.CallStart? || step.CallStop?)
    ensures Inv(Apply(s, step))
  {
  }

  lemma AcquireKeeps(s: State, step: Step)
    requires Inv(s) && Enabled(s, step) && (step.TakePub? || step.TakeMgr?)
    ensures Inv(Apply(s, step))
  {
  }

  lemma CloseAllKeeps(s: State, c: Uuid)
    requires Inv(s) && Enabled(s, CloseAll(c))
    ensures Inv(Apply(s, CloseAll(c)))
  {
    ShrinkRegistryKeeps(s, Close(s.registry, c));
  }

  // ----- handlers -----

  /** The handler steps that take no lock. */
  lemma FreeHandlerStepKeeps(s: State, h: nat, step: Step)
    requires Inv(s) && Enabled(s, step)
    requires || step == HWake(h) || step == HTimeout(h) || step == HJoined(h) || step == HSocketClosed(h)
             || step == HRunEnds(h)
    ensures Inv(Apply(s, step))
  {
    var pc' := Apply(s, step).handlers[h].pc;
    assert JoinOk(s.handlers[h].pc, s.hub.tasks);
    if h in Members(s.registry, s.handlers[h].conversationId) {
      assert h in s.registry[s.handlers[h].conversationId];
    }
    MoveHandlerKeeps(s, h, pc');
  }

  lemma HConnectKeeps(s: State, h: nat)
    requires Inv(s) && Enabled(s, HConnect(h))
    ensures Inv(Apply(s, HConnect(h)))
  {
    var s0 := s.(mgrLock := None);
    ReleaseMgrKeeps(s);
    MoveHandlerKeeps(s0, h, AtSubscribe);
    var s1 := MoveHandler(s0, h, AtSubscribe);
    RegisterKeeps(s1, h);
  }

  lemma HSubscribeKeeps(s: State, h: nat)
    requires Inv(s) && Enabled(s, HSubscribe(h))
    ensures Inv(Apply(s, HSubscribe(h)))
  {
    var c := s.handlers[h].conversationId;
    var s0 := s.(pubLock := None);
    ReleasePubKeeps(s);
    SubscribeStateKeeps(s0, h);
    var hub := Subscribe(s.hub, c);
    var s1 := s0.(hub := hub, loops := if |hub.tasks| > |s.hub.tasks| then s.loops + [NEW_LOOP] else s.loops);
    MoveHandlerKeeps(s1, h, Apply(s, HSubscribe(h)).handlers[h].pc);
  }

  lemma HForcePopKeeps(s: State, h: nat)
    requires Inv(s) && Enabled(s, HForcePop(h))
    ensures Inv(Apply(s, HForcePop(h)))
  {
    var s0 := s.(pubLock := None);
    ReleasePubKeeps(s);
    PopStateKeeps(s0, s.handlers[h].conversationId);
    var s1 := s0.(hub := Pop(s.hub, s.handlers[h].conversationId));
    PopKeeps(s.hub, s.handlers[h].conversationId);
    NotRegistered(s, h);
    MoveHandlerKeeps(s1, h, Apply(s, HForcePop(h)).handlers[h].pc);
  }

  /** A registered socket's handler is before its disconnect. */
  lemma NotRegistered(s: State, h: nat)
    requires Inv(s) && h < |s.handlers|
    ensures h in Members(s.registry, s.handlers[h].conversationId) ==> BeforeDisconnect(s.handlers[h].pc)
  {
    if h in Members(s.registry, s.handlers[h].conversationId) {
      assert h in s.registry[s.handlers[h].conversationId];
    }
  }

  lemma HDisconnectKeeps(s: State, h: nat)
    requires Inv(s) && Enabled(s, HDisconnect(h))
    ensures Inv(Apply(s, HDisconnect(h)))
  {
    var c := s.handlers[h].conversationId;
    var s0 := s.(mgrLock := None);
    ReleaseMgrKeeps(s);
    RemoveRefines(s.registry, c, h);
    ShrinkRegistryKeeps(s0, Remove(s.registry, c, h));
    var s1 := s0.(registry := Remove(s.registry, c, h));
    assert h !in Members(s1.registry, c);
    MoveHandlerKeeps(s1, h, Apply(s, HDisconnect(h)).handlers[h].pc);
  }

  lemma HUnsubscribeKeeps(s: State, h: nat)
    requires Inv(s) && Enabled(s, HUnsubscribe(h))
    ensures Inv(Apply(s, HUnsubscribe(h)))
  {
    var s0 := s.(pubLock := None, mgrLock := None);
    ReleaseMgrKeeps(s);
    ReleasePubKeeps(s.(mgrLock := None));
    if |Members(s.registry, s.handlers[h].conversationId)| > 0 {
      LeaveEntryKeeps(s0, h);
    } else {
      PopEntryKeeps(s0, h, Apply(s, HUnsubscribe(h)).handlers[h].pc);
    }
  }

  /** A socket that is still registered owes an unsubscribe of its own, so the entry may stay. */
  lemma LeaveEntryKeeps(s: State, h: nat)
    requires Inv(s) && h < |s.handlers| && HoldsNone(s, HandlerTask(h)) && s.handlers[h].pc.AtUnsubscribe?
    requires |Members(s.registry, s.handlers[h].conversationId)| > 0
    ensures Inv(MoveHandler(s, h, Gone))
  {
    var c := s.handlers[h].conversationId;
    NotRegistered(s, h);
    var k :| k in Members(s.registry, c);
    assert k in s.registry[c];
    assert k != h && OwedBy(s.handlers, c, k);
    MoveHandlerKeeps(s, h, Gone);
  }

  lemma PopEntryKeeps(s: State, h: nat, pc: HandlerPc)
    requires Inv(s) && h < |s.handlers| && HoldsNone(s, HandlerTask(h))
    requires h in Members(s.registry, s.handlers[h].conversationId) ==> BeforeDisconnect(pc)
    requires JoinOk(pc, Pop(s.hub, s.handlers[h].conversationId).tasks)
    ensures Inv(MoveHandler(s, h, pc).(hub := Pop(s.hub, s.handlers[h].conversationId)))
  {
    var c := s.handlers[h].conversationId;
    PopStateKeeps(s, c);
    PopKeeps(s.hub, c);
    MoveHandlerKeeps(s.(hub := Pop(s.hub, c)), h, pc);
  }

  // ----- loops -----

  /** A running loop is the stored one and is not finished. */
  lemma RunningLoop(s: State, l: nat)
    requires Inv(s) && LoopRuns(s, l)
    ensures l < |s.hub.tasks| && !s.hub.tasks[l].done && IsSubscribed(s.hub, ConversationOf(s, l))
    ensures LoopReadyOk(s.hub.tasks[l], s.loops[l])
    ensures Attached(s.loops[l].pc) ==>
      && LoopOk(s.loops[l], ConversationOf(s, l), s.logs, s.handlers)
      && BoundOk(s.loops[l], ConversationOf(s, l), s.handlers)
  {
    LookupFindsOwnState(s.hub, l);
  }

  /** A running loop moves to a point without a Redis cursor. */
  lemma DetachKeeps(s: State, l: nat, loop: Loop)
    requires Inv(s) && LoopRuns(s, l) && HoldsNone(s, LoopTask(l))
    requires !Attached(loop.pc) && !loop.pc.Finished? && !loop.pc.Unwinding? && loop.subscribed == s.loops[l].subscribed
    requires s.hub.tasks[l].ready ==> loop.pc == MarkingNotReady(true)
    requires loop.backoff == Delay(loop.failures) && loop.slept == TotalSleep(loop.failures)
    ensures Inv(SetLoop(s, l, loop))
  {
    RunningLoop(s, l);
    SetLoopKeeps(s, l, loop);
  }

  /** A running loop goes on to its next poll. */
  lemma ProceedKeeps(s: State, l: nat, pc: LoopPc)
    requires Inv(s) && LoopRuns(s, l) && HoldsNone(s, LoopTask(l))
    requires s.loops[l].pc.Rechecking? || s.loops[l].pc.Polling? || s.loops[l].pc.Removing?
    requires pc == Rechecking || pc == Polling
    ensures Inv(MoveLoop(s, l, pc))
  {
    RunningLoop(s, l);
    var loop := s.loops[l].(pc := pc);
    forall h | 0 <= h < |s.handlers| && s.handlers[h].conversationId == ConversationOf(s, l)
      ensures Below(s.handlers[h].got, Bound(loop, h))
    {
      assert Below(s.handlers[h].got, Bound(s.loops[l], h));
    }
    SetLoopKeeps(s, l, loop);
  }

  lemma LSleptKeeps(s: State, l: nat)
    requires Inv(s) && Enabled(s, LSlept(l))
    ensures Inv(Apply(s, LSlept(l)))
  {
    RunningLoop(s, l);
    DelayStep(s.loops[l].failures);
    DetachKeeps(s, l, Apply(s, LSlept(l)).loops[l]);
  }

  lemma LClosedKeeps(s: State, l: nat)
    requires Inv(s) && Enabled(s, LClosed(l))
    ensures Inv(Apply(s, LClosed(l)))
  {
    RunningLoop(s, l);
    DetachKeeps(s, l, s.loops[l].(pc := Checking));
  }

  /** A failed subscribe and a failed poll. */
  lemma LRedisFailsKeeps(s: State, l: nat)
    requires Inv(s) && LoopRuns(s, l) && (s.loops[l].pc.Subscribing? || s.loops[l].pc.Polling?)
    ensures Inv(MoveLoop(s, l, MarkingNotReady(true)))
  {
    RunningLoop(s, l);
    DetachKeeps(s, l, s.loops[l].(pc := MarkingNotReady(true)));
  }

  /** A new subscription starts at the end of the log, past everything relayed before. */
  lemma LSubscribedKeeps(s: State, l: nat)
    requires Inv(s) && Enabled(s, LSubscribed(l, true))
    ensures Inv(Apply(s, LSubscribed(l, true)))
  {
    RunningLoop(s, l);
    var loop := Apply(s, LSubscribed(l, true)).loops[l];
    forall h | 0 <= h < |s.handlers| && s.handlers[h].conversationId == ConversationOf(s, l)
      ensures Below(s.handlers[h].got, Bound(loop, h))
    {
      assert forall j :: 0 <= j < |s.handlers[h].got| ==> Relayable(Log(s, ConversationOf(s, l)), s.handlers[h].got[j]);
    }
    SetLoopKeeps(s, l, loop);
  }

  lemma LReceivedKeeps(s: State, l: nat)
    requires Inv(s) && Enabled(s, LPoll(l, Received))
    ensures Inv(Apply(s, LPoll(l, Received)))
  {
    RunningLoop(s, l);
    var loop := Apply(s, LPoll(l, Received)).loops[l];
    forall h | 0 <= h < |s.handlers| && s.handlers[h].conversationId == ConversationOf(s, l)
      ensures Below(s.handlers[h].got, Bound(loop, h))
    {
      assert Below(s.handlers[h].got, Bound(s.loops[l], h));
    }
    SetLoopKeeps(s, l, loop);
  }

  lemma LPollKeeps(s: State, l: nat, answer: PollAnswer)
    requires Inv(s) && Enabled(s, LPoll(l, answer))
    ensures Inv(Apply(s, LPoll(l, answer)))
  {
    match answer
    case Nothing => ProceedKeeps(s, l, Rechecking);
    case Received => LReceivedKeeps(s, l);
    case PollFailed => LRedisFailsKeeps(s, l);
  }

  lemma LSubscribeAnswerKeeps(s: State, l: nat, ok: bool)
    requires Inv(s) && Enabled(s, LSubscribed(l, ok))
    ensures Inv(Apply(s, LSubscribed(l, ok)))
  {
    if ok {
      LSubscribedKeeps(s, l);
    } else {
      LRedisFailsKeeps(s, l);
    }
  }

  lemma LCheckKeeps(s: State, l: nat, redisOk: bool)
    requires Inv(s) && Enabled(s, LCheck(l, redisOk))
    ensures Inv(Apply(s, LCheck(l, redisOk)))
  {
    RunningLoop(s, l);
    ReleasePubKeeps(s);
    var pc := if redisOk then Subscribing else MarkingNotReady(false);
    DetachKeeps(s.(pubLock := None), l, s.loops[l].(pc := pc));
    assert Apply(s, LCheck(l, redisOk)) == SetLoop(s.(pubLock := None), l, s.loops[l].(pc := pc));
  }

  lemma LRecheckKeeps(s: State, l: nat)
    requires Inv(s) && Enabled(s, LRecheck(l))
    ensures Inv(Apply(s, LRecheck(l)))
  {
    RunningLoop(s, l);
    ReleasePubKeeps(s);
    ProceedKeeps(s.(pubLock := None), l, Polling);
  }

  /** Looking the state up by conversation sets the loop's own event. */
  lemma LMarkReadyKeeps(s: State, l: nat)
    requires Inv(s) && Enabled(s, LMarkReady(l))
    ensures Inv(Apply(s, LMarkReady(l)))
  {
    ReleasePubKeeps(s);
    MarkedReadyKeeps(s.(pubLock := None), l);
    MarksOwnReady(s, l);
  }

  /** Loop `l` alone has its event set and its delay reset. */
  function MarkedReady(s: State, l: nat): State
    requires l < |s.loops| && l < |s.hub.tasks|
  {
    var t := s.hub.tasks[l];
    SetLoop(s, l, s.loops[l].(pc := Rechecking, backoff := INITIAL_BACKOFF, failures := 0, slept := 0))
    .(hub := s.hub.(tasks := s.hub.tasks[l := t.(ready := true, wakes := t.wakes + 1)]))
  }

  lemma MarksOwnReady(s: State, l: nat)
    requires SingleOwner(s.hub) && l < |s.hub.tasks| && Enabled(s, LMarkReady(l))
    ensures Apply(s, LMarkReady(l)) == MarkedReady(s.(pubLock := None), l)
  {
    LookupFindsOwnState(s.hub, l);
  }

  lemma MarkedReadyKeeps(s: State, l: nat)
    requires Inv(s) && LoopRuns(s, l) && HoldsNone(s, LoopTask(l)) && s.loops[l].pc.MarkingReady?
    ensures Inv(MarkedReady(s, l))
  {
    RunningLoop(s, l);
    var t := s.hub.tasks[l];
    var loop := s.loops[l].(pc := Rechecking, backoff := INITIAL_BACKOFF, failures := 0, slept := 0);
    assert Delay(0) == INITIAL_BACKOFF && TotalSleep(0) == 0;
    forall h | 0 <= h < |s.handlers| && s.handlers[h].conversationId == t.conversationId
      ensures Below(s.handlers[h].got, Bound(loop, h))
    {
      assert Below(s.handlers[h].got, Bound(s.loops[l], h));
    }
    SetTaskKeeps(s, l, t.(ready := true, wakes := t.wakes + 1), loop);
  }

  lemma LMarkNotReadyKeeps(s: State, l: nat)
    requires Inv(s) && Enabled(s, LMarkNotReady(l))
    ensures Inv(Apply(s, LMarkNotReady(l)))
  {
    RunningLoop(s, l);
    LookupFindsOwnState(s.hub, l);
    ReleasePubKeeps(s);
    var s0, t' := s.(pubLock := None), s.hub.tasks[l].(ready := false);
    var loop := s.loops[l].(pc := Sleeping(s.loops[l].pc.open));
    SetTaskKeeps(s0, l, t', loop);
    assert Apply(s, LMarkNotReady(l)) == SetLoop(s0, l, loop).(hub := s.hub.(tasks := s.hub.tasks[l := t']));
  }

  lemma SnapshotMembers(s: State, c: Uuid, order: seq<Socket>)
    requires RegistryOk(s.registry, s.handlers) && (set w | w in order) == Members(s.registry, c)
    ensures forall w :: w in order ==> w < |s.handlers| && s.handlers[w].conversationId == c
  {
    forall w: nat | w in order ensures w < |s.handlers| && s.handlers[w].conversationId == c {
      assert w in Members(s.registry, c);
      assert c in s.registry && w in s.registry[c];
    }
  }

  lemma LSnapshotKeeps(s: State, l: nat, order: seq<Socket>)
    requires Inv(s) && Enabled(s, LSnapshot(l, order))
    ensures Inv(Apply(s, LSnapshot(l, order)))
  {
    RunningLoop(s, l);
    ReleaseMgrKeeps(s);
    SnapshotMembers(s, ConversationOf(s, l), order);
    var loop := s.loops[l].(pc := AfterSend(s.loops[l].pc.i, order, []));
    SnapshotBounds(s.loops[l], order, ConversationOf(s, l), s.handlers);
    SetLoopKeeps(s.(mgrLock := None), l, loop);
  }

  lemma SnapshotBounds(loop: Loop, order: seq<Socket>, c: Uuid, hs: seq<Handler>)
    requires loop.pc.Snapshotting? && loop.pc.i + 1 == loop.cursor && BoundOk(loop, c, hs)
    ensures BoundOk(loop.(pc := AfterSend(loop.pc.i, order, [])), c, hs)
  {
    forall h | 0 <= h < |hs| && hs[h].conversationId == c
      ensures Below(hs[h].got, Bound(loop.(pc := AfterSend(loop.pc.i, order, [])), h))
    {
      assert Below(hs[h].got, Bound(loop, h));
    }
  }

  lemma LRemoveKeeps(s: State, l: nat)
    requires Inv(s) && Enabled(s, LRemove(l))
    ensures Inv(Apply(s, LRemove(l)))
  {
    ReleaseMgrKeeps(s);
    var c, s0 := ConversationOf(s, l), s.(mgrLock := None);
    ProceedKeeps(s0, l, Rechecking);
    RemoveAllMembers(s.registry, c, s.loops[l].pc.failed);
    ShrinkRegistryKeeps(MoveLoop(s0, l, Rechecking), RemoveAll(s.registry, c, s.loops[l].pc.failed));
  }

  /** One write: entry `i` goes to a socket that has nothing from `i` on. */
  lemma LWriteKeeps(s: State, l: nat)
    requires Inv(s) && Enabled(s, LWrite(l))
    ensures Inv(Apply(s, LWrite(l)))
  {
    WriteStepKeeps(s, l);
  }

  lemma WriteStepKeeps(s: State, l: nat)
    requires Inv(s) && AtSend(s, l) && !s.loops[l].pc.written
    ensures Inv(WriteStep(s, l))
  {
    WrittenGotOk(s, l);
    WrittenLoopsOk(s, l);
    WrittenRestOk(s, l);
    WrittenLocksOk(s, l);
    SamePointsKeep(s, WriteStep(s, l).handlers);
  }

  lemma WrittenRestOk(s: State, l: nat)
    requires OwnerOk(s.hub, s.loops) && ReadyOk(s.hub.tasks, s.loops) && BackoffOk(s.loops) && AtSend(s, l)
    ensures var s' := WriteStep(s, l);
            OwnerOk(s.hub, s'.loops) && ReadyOk(s.hub.tasks, s'.loops) && BackoffOk(s'.loops)
  {
    var s' := WriteStep(s, l);
    assert s'.loops == s.loops[l := s.loops[l].(pc := s'.loops[l].pc)];
  }

  lemma WrittenLocksOk(s: State, l: nat)
    requires LocksOk(s) && AtSend(s, l)
    ensures LocksOk(WriteStep(s, l))
  {
    assert HoldsNone(s, LoopTask(l));
    assert forall h :: 0 <= h < |s.handlers| ==> WriteStep(s, l).handlers[h].pc == s.handlers[h].pc;
  }

  lemma WrittenGotOk(s: State, l: nat)
    requires Inv(s) && AtSend(s, l) && !s.loops[l].pc.written
    ensures GotOk(WriteStep(s, l).handlers, s.logs)
  {
    RunningLoop(s, l);
    var hs' := WriteStep(s, l).handlers;
    var w, i := s.loops[l].pc.todo[0], s.loops[l].pc.i;
    assert w in s.loops[l].pc.todo;
    assert Below(s.handlers[w].got, Bound(s.loops[l], w));
    forall h | 0 <= h < |hs'|
      ensures Increasing(hs'[h].got)
      ensures forall j :: 0 <= j < |hs'[h].got| ==> Relayable(LogOf(s.logs, hs'[h].conversationId), hs'[h].got[j])
    {
      assert Increasing(s.handlers[h].got);
    }
  }

  lemma WrittenLoopsOk(s: State, l: nat)
    requires Inv(s) && AtSend(s, l)
    ensures var s' := WriteStep(s, l); LoopsOk(s'.loops, s.hub.tasks, s.logs, s'.handlers)
  {
    RunningLoop(s, l);
    LookupFindsOwnState(s.hub, l);
    var s', w := WriteStep(s, l), s.loops[l].pc.todo[0];
    assert w in s.loops[l].pc.todo;
    WrittenLoopOk(s.loops[l], ConversationOf(s, l), s.logs, s.handlers);
    forall k | 0 <= k < |s.loops| && k != l && !s.hub.tasks[k].cancelled && Attached(s.loops[k].pc)
      ensures LoopOk(s.loops[k], s.hub.tasks[k].conversationId, s.logs, s'.handlers)
      ensures BoundOk(s.loops[k], s.hub.tasks[k].conversationId, s'.handlers)
    {
      OtherWriteKeeps(s.loops[k], s.hub.tasks[k].conversationId, s.logs, s.handlers, w, s.loops[l].pc.i);
    }
  }

  /** The writing loop itself: the bound of the one socket that got the entry has moved past it. */
  lemma WrittenLoopOk(loop: Loop, c: Uuid, logs: map<Uuid, seq<Payload>>, hs: seq<Handler>)
    requires loop.pc.Sending? && LoopOk(loop, c, logs, hs) && BoundOk(loop, c, hs)
    ensures var w := loop.pc.todo[0];
            && w < |hs|
            && var hs', loop' := hs[w := Relayed(hs[w], loop.pc.i)], loop.(pc := loop.pc.(written := true));
            LoopOk(loop', c, logs, hs') && BoundOk(loop', c, hs')
  {
    var w := loop.pc.todo[0];
    assert w in loop.pc.todo;
    var hs', loop' := hs[w := Relayed(hs[w], loop.pc.i)], loop.(pc := loop.pc.(written := true));
    forall h | 0 <= h < |hs'| && hs'[h].conversationId == c ensures Below(hs'[h].got, Bound(loop', h)) {
      assert Below(hs[h].got, Bound(loop, h));
    }
  }

  /** Another loop relays to other sockets. */
  lemma OtherWriteKeeps(loop: Loop, c: Uuid, logs: map<Uuid, seq<Payload>>, hs: seq<Handler>, w: Socket, i: nat)
    requires LoopOk(loop, c, logs, hs) && BoundOk(loop, c, hs) && w < |hs| && hs[w].conversationId != c
    ensures var hs' := hs[w := Relayed(hs[w], i)]; LoopOk(loop, c, logs, hs') && BoundOk(loop, c, hs')
  {
    var hs' := hs[w := Relayed(hs[w], i)];
    forall h | 0 <= h < |hs'| && hs'[h].conversationId == c ensures Below(hs'[h].got, Bound(loop, h)) {
      assert Below(hs[h].got, Bound(loop, h));
    }
  }

  /** A send returns, in any of its ways. */
  lemma LSendKeeps(s: State, l: nat, outcome: SendOutcome)
    requires Inv(s) && Enabled(s, LSend(l, outcome))
    ensures Inv(Apply(s, LSend(l, outcome)))
  {
    SendReturnKeeps(s, l, outcome);
  }

  lemma SendReturnKeeps(s: State, l: nat, outcome: SendOutcome)
    requires Inv(s) && AtSend(s, l)
    ensures Inv(MoveLoop(s, l, AfterOutcome(s.loops[l].pc, outcome)))
  {
    RunningLoop(s, l);
    var loop := s.loops[l];
    if outcome.Crashed? {
      DetachKeeps(s, l, loop.(pc := MarkingNotReady(true)));
    } else {
      var failed := if outcome.Delivered? then loop.pc.failed else loop.pc.failed + [loop.pc.todo[0]];
      AdvancedOk(loop, failed, ConversationOf(s, l), s.logs, s.handlers);
      SetLoopKeeps(s, l, Advanced(loop, failed));
    }
  }

  /** The loop's record once the first socket of its to-do list has been tried. */
  function Advanced(loop: Loop, failed: seq<Socket>): Loop
    requires loop.pc.Sending? && loop.pc.todo != []
  {
    loop.(pc := AfterSend(loop.pc.i, loop.pc.todo[1..], failed))
  }

  lemma AdvancedOk(loop: Loop, failed: seq<Socket>, c: Uuid, logs: map<Uuid, seq<Payload>>, hs: seq<Handler>)
    requires loop.pc.Sending? && LoopOk(loop, c, logs, hs) && BoundOk(loop, c, hs)
    ensures LoopOk(Advanced(loop, failed), c, logs, hs) && BoundOk(Advanced(loop, failed), c, hs)
  {
    var todo := loop.pc.todo;
    assert forall w :: w in todo[1..] ==> w in todo;
    forall h | 0 <= h < |hs| && hs[h].conversationId == c ensures Below(hs[h].got, Bound(Advanced(loop, failed), h)) {
      assert Below(hs[h].got, Bound(loop, h));
      AdvanceMovesBound(loop, failed, h);
    }
  }

  /** Once a socket has been tried its bound is past the entry; the bounds of the others stay. */
  lemma AdvanceMovesBound(loop: Loop, failed: seq<Socket>, h: Socket)
    requires loop.pc.Sending? && loop.pc.todo != [] && NoDuplicates(loop.pc.todo) && loop.pc.i + 1 == loop.cursor
    ensures Bound(Advanced(loop, failed), h) == if loop.pc.todo[0] == h then loop.pc.i + 1 else Bound(loop, h)
  {
    var todo := loop.pc.todo;
    assert todo == [todo[0]] + todo[1..];
    assert todo[0] !in todo[1..];
    assert todo[0] != h ==> (h in todo <==> h in todo[1..]);
  }

  lemma LUnwindKeeps(s: State, l: nat)
    requires Inv(s) && Enabled(s, LUnwind(l))
    ensures Inv(Apply(s, LUnwind(l)))
  {
    UnlockedKeeps(s, LoopTask(l));
    UnwoundKeeps(Unlocked(s, LoopTask(l)), l);
  }

  function Unlocked(s: State, t: Task): State {
    s.(pubLock := Released(s.pubLock, t), mgrLock := Released(s.mgrLock, t))
  }

  lemma UnlockedKeeps(s: State, t: Task)
    requires Inv(s)
    ensures Inv(Unlocked(s, t)) && HoldsNone(Unlocked(s, t), t)
  {
    if s.mgrLock == Some(t) {
      ReleaseMgrKeeps(s);
    }
    if s.pubLock == Some(t) {
      ReleasePubKeeps(s.(mgrLock := Released(s.mgrLock, t)));
    }
  }

  lemma UnwoundKeeps(s: State, l: nat)
    requires Inv(s) && l < |s.loops| && IsCancelled(s, l) && HoldsNone(s, LoopTask(l)) && !s.loops[l].pc.Finished?
    ensures Inv(if HoldsChannel(s.loops[l].pc) then MoveLoop(s, l, Unwinding) else EndLoop(s, l))
  {
    assert LoopReadyOk(s.hub.tasks[l], s.loops[l]);
    if HoldsChannel(s.loops[l].pc) {
      SetLoopKeeps(s, l, s.loops[l].(pc := Unwinding));
    } else {
      EndLoopKeeps(s, l);
    }
  }

  // ----- start and stop -----

  lemma MoveControlKeeps(s: State, k: nat, pc: ControlPc)
    requires Inv(s) && k < |s.controls| && HoldsNone(s, ControlTask(k))
    requires pc.JoinAll? ==> forall l :: l in pc.ls ==> l < |s.hub.tasks| && s.hub.tasks[l].cancelled
    ensures Inv(MoveControl(s, k, pc))
  {
  }

  lemma CStopKeeps(s: State, k: nat)
    requires Inv(s) && Enabled(s, CStop(k))
    ensures Inv(Apply(s, CStop(k)))
  {
    var ls, s0 := s.hub.subscriptions.Values, s.(pubLock := None);
    ReleasePubKeeps(s);
    StopStateKeeps(s0);
    StopCancelsStored(s.hub);
    MoveControlKeeps(s0.(hub := Stop(s.hub)), k, if ls == {} then AtStopEnd else JoinAll(ls));
  }

  lemma StopStateKeeps(s: State)
    requires Inv(s)
    ensures Inv(s.(hub := Stop(s.hub)))
  {
    StopKeeps(s.hub);
    CancelTasksOnlyCancels(s.hub.tasks, s.hub.subscriptions.Values);
    CancelKeeps(s, Stop(s.hub));
  }

  lemma ControlKeeps(s: State, k: nat, step: Step)
    requires Inv(s) && Enabled(s, step)
    requires step == CStart(k) || step == CJoined(k) || step == CStopEnd(k)
    ensures Inv(Apply(s, step))
  {
    if step == CJoined(k) {
      MoveControlKeeps(s, k, AtStopEnd);
    } else {
      ReleasePubKeeps(s);
      FlagsKeep(s.(pubLock := None), k, if step == CStart(k) then Start(s.hub) else StopEnd(s.hub));
    }
  }

  lemma FlagsKeep(s: State, k: nat, hub: Hub)
    requires Inv(s) && k < |s.controls| && HoldsNone(s, ControlTask(k))
    requires hub == Start(s.hub) || hub == StopEnd(s.hub)
    ensures Inv(MoveControl(s, k, ControlDone).(hub := hub))
  {
    CancelKeeps(s, hub);
    MoveControlKeeps(s.(hub := hub), k, ControlDone);
  }

  // ----- what handler steps and loop steps leave alone -----

  /** Other handlers, what every socket got, the loops and the logs stay as they are; there may be a new loop. */
  ghost predicate HandlerFootprint(s: State, s': State, h: nat) {
    && h < |s.handlers| == |s'.handlers|
    && (forall k :: 0 <= k < |s.handlers| && k != h ==> s'.handlers[k] == s.handlers[k])
    && s'.handlers[h] == s.handlers[h].(pc := s'.handlers[h].pc) && !s'.handlers[h].pc.AtConnect?
    && s.loops <= s'.loops && s'.logs == s.logs && s'.controls == s.controls
    && |s.hub.tasks| <= |s'.hub.tasks|
    && (forall k :: 0 <= k < |s.hub.tasks| ==> s'.hub.tasks[k].conversationId == s.hub.tasks[k].conversationId)
  }

  lemma HandlerStepFootprint(s: State, step: Step)
    requires Enabled(s, step) && IsHandlerStep(step)
    ensures HandlerFootprint(s, Apply(s, step), step.h)
  {
  }

  /** Other loops, the logs, the controls, the entries and the tasks' conversations stay as they are; sockets get
      nothing unless the step writes. */
  ghost predicate LoopFootprint(s: State, s': State, l: nat, writes: bool) {
    && l < |s.loops| == |s'.loops|
    && (forall k :: 0 <= k < |s.loops| && k != l ==> s'.loops[k] == s.loops[k])
    && s'.logs == s.logs && s'.controls == s.controls
    && s'.hub.subscriptions == s.hub.subscriptions
    && SameTasks(s.hub.tasks, s'.hub.tasks)
    && (if writes then SameButGot(s.handlers, s'.handlers) else s'.handlers == s.handlers)
  }

  ghost predicate SameTasks(ts: seq<TaskState>, ts': seq<TaskState>) {
    |ts| == |ts'| && forall k :: 0 <= k < |ts| ==> ts'[k].conversationId == ts[k].conversationId
  }

  ghost predicate SameButGot(hs: seq<Handler>, hs': seq<Handler>) {
    |hs| == |hs'| && forall h :: 0 <= h < |hs| ==> hs'[h] == hs[h].(got := hs'[h].got) && hs[h].got <= hs'[h].got
  }

  predicate IsRedisStep(step: Step) {
    step.LCheck? || step.LSubscribed? || step.LMarkReady? || step.LRecheck? || step.LPoll?
  }

  predicate IsBroadcastStep(step: Step) {
    step.LSnapshot? || step.LWrite? || step.LSend? || step.LRemove?
  }

  lemma RedisStepFootprint(s: State, step: Step)
    requires Enabled(s, step) && IsRedisStep(step)
    ensures LoopFootprint(s, Apply(s, step), step.l, false)
  {
  }

  lemma BroadcastStepFootprint(s: State, step: Step)
    requires Enabled(s, step) && IsBroadcastStep(step)
    ensures LoopFootprint(s, Apply(s, step), step.l, step.LWrite?)
  {
  }

  lemma FailureStepFootprint(s: State, step: Step)
    requires Enabled(s, step) && IsLoopStep(step) && !IsRedisStep(step) && !IsBroadcastStep(step)
    ensures LoopFootprint(s, Apply(s, step), step.l, false)
  {
  }

  lemma LoopStepFootprint(s: State, step: Step)
    requires Enabled(s, step) && IsLoopStep(step)
    ensures LoopFootprint(s, Apply(s, step), step.l, step.LWrite?)
  {
    if IsRedisStep(step) {
      RedisStepFootprint(s, step);
    } else if IsBroadcastStep(step) {
      BroadcastStepFootprint(s, step);
    } else {
      FailureStepFootprint(s, step);
    }
  }

  // ----- all steps, all runs -----

  lemma HandlerStepKeeps(s: State, step: Step)
    requires Inv(s) && Enabled(s, step) && IsHandlerStep(step)
    ensures Inv(Apply(s, step))
  {
    match step
    case HConnect(h) => HConnectKeeps(s, h);
    case HSubscribe(h) => HSubscribeKeeps(s, h);
    case HWake(h) => FreeHandlerStepKeeps(s, h, step);
    case HTimeout(h) => FreeHandlerStepKeeps(s, h, step);
    case HForcePop(h) => HForcePopKeeps(s, h);
    case HJoined(h) => FreeHandlerStepKeeps(s, h, step);
    case HDisconnect(h) => HDisconnectKeeps(s, h);
    case HSocketClosed(h) => FreeHandlerStepKeeps(s, h, step);
    case HRunEnds(h) => FreeHandlerStepKeeps(s, h, step);
    case HUnsubscribe(h) => HUnsubscribeKeeps(s, h);
  }

  lemma RedisStepKeeps(s: State, step: Step)
    requires Inv(s) && Enabled(s, step) && IsRedisStep(step)
    ensures Inv(Apply(s, step))
  {
    if step.LCheck? {
      LCheckKeeps(s, step.l, step.redisOk);
    } else if step.LSubscribed? {
      LSubscribeAnswerKeeps(s, step.l, step.ok);
    } else if step.LMarkReady? {
      LMarkReadyKeeps(s, step.l);
    } else if step.LRecheck? {
      LRecheckKeeps(s, step.l);
    } else {
      LPollKeeps(s, step.l, step.answer);
    }
  }

  lemma BroadcastStepKeeps(s: State, step: Step)
    requires Inv(s) && Enabled(s, step) && IsBroadcastStep(step)
    ensures Inv(Apply(s, step))
  {
    if step.LSnapshot? {
      LSnapshotKeeps(s, step.l, step.order);
    } else if step.LWrite? {
      LWriteKeeps(s, step.l);
    } else if step.LSend? {
      LSendKeeps(s, step.l, step.outcome);
    } else {
      LRemoveKeeps(s, step.l);
    }
  }

  lemma FailureStepKeeps(s: State, step: Step)
    requires Inv(s) && Enabled(s, step) && IsLoopStep(step) && !IsRedisStep(step) && !IsBroadcastStep(step)
    ensures Inv(Apply(s, step))
  {
    if step.LMarkNotReady? {
      LMarkNotReadyKeeps(s, step.l);
    } else if step.LSlept? {
      LSleptKeeps(s, step.l);
    } else if step.LClosed? {
      LClosedKeeps(s, step.l);
    } else {
      LUnwindKeeps(s, step.l);
    }
  }

  lemma LoopStepKeeps(s: State, step: Step)
    requires Inv(s) && Enabled(s, step) && IsLoopStep(step)
    ensures Inv(Apply(s, step))
  {
    if IsRedisStep(step) {
      RedisStepKeeps(s, step);
    } else if IsBroadcastStep(step) {
      BroadcastStepKeeps(s, step);
    } else {
      FailureStepKeeps(s, step);
    }
  }

  lemma OtherStepKeeps(s: State, step: Step)
    requires Inv(s) && Enabled(s, step) && !IsHandlerStep(step) && !IsLoopStep(step)
    ensures Inv(Apply(s, step))
  {
    match step
    case Publish(c, p) => PublishKeeps(s, c, p);
    case Open(c) => OpenKeeps(s, c);
    case CallStart => CallKeeps(s, step);
    case CallStop => CallKeeps(s, step);
    case TakePub(_) => AcquireKeeps(s, step);
    case TakeMgr(_) => AcquireKeeps(s, step);
    case CloseAll(c) => CloseAllKeeps(s, c);
    case CStart(k) => ControlKeeps(s, k, step);
    case CStop(k) => CStopKeeps(s, k);
    case CJoined(k) => ControlKeeps(s, k, step);
    case CStopEnd(k) => ControlKeeps(s, k, step);
  }

  lemma StepKeeps(s: State, step: Step)
    requires Inv(s) && Enabled(s, step)
    ensures Inv(Apply(s, step))
  {
    if IsHandlerStep(step) {
      HandlerStepKeeps(s, step);
    } else if IsLoopStep(step) {
      LoopStepKeeps(s, step);
    } else {
      OtherStepKeeps(s, step);
    }
  }

  lemma {:induction false} RunKeeps(s: State, steps: seq<Step>)
    requires Inv(s) && Trace(s, steps)
    ensures Inv(After(s, steps))
    decreases |steps|
  {
    if steps != [] {
      StepKeeps(s, steps[0]);
      RunKeeps(Apply(s, steps[0]), steps[1..]);
    }
  }
}
