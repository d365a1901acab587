/** What every step of the fan-out keeps. Each part of the invariant is a predicate over the fields it needs. */
module FanOutInvariant {
  import opened Ids
  import opened Frames
  import opened Registry
  import opened Backoff
  import opened Subscriptions
  import opened FanOut

  // ----- tasks and locks -----

  /** One live loop per conversation, and it is the stored one; tasks and loops agree on who is done. */
  ghost predicate OwnerOk(hub: Hub, loops: seq<Loop>) {
    && SingleOwner(hub)
    && |loops| == |hub.tasks|
    && (forall l :: 0 <= l < |loops| ==> (hub.tasks[l].done <==> loops[l].pc.Finished?))
    && (forall l :: 0 <= l < |loops| && loops[l].pc.Unwinding? ==> hub.tasks[l].cancelled)
  }

  /** A lock is held only by a task whose next step is the section under that lock. */
  ghost predicate LocksOk(s: State) {
    && (s.pubLock.Some? ==> PubSection(s, s.pubLock.value))
    && (s.mgrLock.Some? ==> MgrSection(s, s.mgrLock.value))
  }

  /** Only cancelled tasks are joined. */
  ghost predicate JoinOk(pc: HandlerPc, tasks: seq<TaskState>) {
    match pc
    case Awaiting(l, _) => l < |tasks|
    case JoinAfterTimeout(l) => l < |tasks| && tasks[l].cancelled
    case JoinAfterFail(l) => l < |tasks| && tasks[l].cancelled
    case JoinAfterUnsubscribe(l) => l < |tasks| && tasks[l].cancelled
    case _ => true
  }

  ghost predicate JoinsOk(handlers: seq<Handler>, tasks: seq<TaskState>) {
    forall h :: 0 <= h < |handlers| ==> JoinOk(handlers[h].pc, tasks)
  }

  ghost predicate StopJoinsOk(controls: seq<ControlPc>, tasks: seq<TaskState>) {
    forall k: nat, l: nat {:trigger l in controls[k].ls} ::
      k < |controls| && controls[k].JoinAll? && l in controls[k].ls ==>
      l < |tasks| && tasks[l].cancelled
  }

  // ----- the two maps -----

  /** Has not disconnected yet. */
  predicate BeforeDisconnect(pc: HandlerPc) {
    || pc.AtSubscribe? || pc.Awaiting? || pc.AtTimeoutPop? || pc.JoinAfterTimeout? || pc.AtFailDisconnect?
    || pc.Running? || pc.AtDisconnect?
  }

  /** Will still run an unsubscribe. */
  predicate Owes(pc: HandlerPc) {
    BeforeDisconnect(pc) || pc.AtFailPop? || pc.AtUnsubscribe?
  }

  ghost predicate RegistryOk(registry: Registry, handlers: seq<Handler>) {
    && NoEmptySet(registry)
    && (forall c: Uuid, h: nat {:trigger h in registry[c]} :: c in registry && h in registry[c] ==>
          h < |handlers| && handlers[h].conversationId == c && BeforeDisconnect(handlers[h].pc))
  }

  ghost predicate OwedBy(handlers: seq<Handler>, c: Uuid, h: nat) {
    h < |handlers| && handlers[h].conversationId == c && Owes(handlers[h].pc)
  }

  ghost predicate Owed(handlers: seq<Handler>, c: Uuid) {
    exists h :: OwedBy(handlers, c, h)
  }

  /** Every entry has a handler of its conversation that still owes an unsubscribe. */
  ghost predicate OwedOk(subscriptions: map<Uuid, nat>, handlers: seq<Handler>) {
    forall c :: c in subscriptions ==> Owed(handlers, c)
  }

  // ----- readiness and delays -----

  predicate Relaying(pc: LoopPc) {
    pc.Rechecking? || pc.Polling? || pc.Snapshotting? || pc.Sending? || pc.Removing?
  }

  /** What a loop record must satisfy beside its task. */
  ghost predicate LoopReadyOk(t: TaskState, loop: Loop) {
    && t.wakes <= loop.subscribed
    && (t.ready ==> t.wakes > 0)
    && (!t.cancelled && Relaying(loop.pc) ==> t.ready)
    && (!t.cancelled && t.ready ==> Relaying(loop.pc) || loop.pc == MarkingNotReady(true))
    && (loop.pc.MarkingReady? ==> loop.subscribed > t.wakes)
  }

  ghost predicate ReadyOk(tasks: seq<TaskState>, loops: seq<Loop>) {
    && |loops| == |tasks|
    && forall l :: 0 <= l < |loops| ==> LoopReadyOk(tasks[l], loops[l])
  }

  ghost predicate BackoffOk(loops: seq<Loop>) {
    forall l :: 0 <= l < |loops| ==>
      loops[l].backoff == Delay(loops[l].failures) && loops[l].slept == TotalSleep(loops[l].failures)
  }

  // ----- relayed frames -----

  predicate Increasing(xs: seq<nat>) {
    forall i, j :: 0 <= i < j < |xs| ==> xs[i] < xs[j]
  }

  predicate Below(xs: seq<nat>, bound: nat) {
    forall i :: 0 <= i < |xs| ==> xs[i] < bound
  }

  /** Entry `i` of the log is one that `_handle_message` relays. */
  predicate Relayable(log: seq<Payload>, i: nat) {
    i < |log| && ReadPayload(log[i]).Some?
  }

  /** Has a Redis subscription whose cursor counts. */
  predicate Attached(pc: LoopPc) {
    pc.MarkingReady? || Relaying(pc)
  }

  /** No log entry from here on has been written to socket `w` by this loop. */
  function Bound(loop: Loop, w: Socket): nat {
    match loop.pc
    case Snapshotting(i) => i
    case Sending(i, todo, _, written) => if w in todo && !(written && w == todo[0]) then i else i + 1
    case _ => loop.cursor
  }

  ghost predicate GotOk(handlers: seq<Handler>, logs: map<Uuid, seq<Payload>>) {
    forall h :: 0 <= h < |handlers| ==>
      && Increasing(handlers[h].got)
      && (forall j :: 0 <= j < |handlers[h].got| ==>
            Relayable(LogOf(logs, handlers[h].conversationId), handlers[h].got[j]))
  }

  ghost predicate LoopOk(loop: Loop, c: Uuid, logs: map<Uuid, seq<Payload>>, handlers: seq<Handler>) {
    && loop.cursor <= |LogOf(logs, c)|
    && (loop.pc.Snapshotting? ==> loop.pc.i + 1 == loop.cursor && Relayable(LogOf(logs, c), loop.pc.i))
    && (loop.pc.Sending? ==>
          && loop.pc.i + 1 == loop.cursor && Relayable(LogOf(logs, c), loop.pc.i)
          && loop.pc.todo != [] && NoDuplicates(loop.pc.todo)
          && (forall w :: w in loop.pc.todo ==> w < |handlers| && handlers[w].conversationId == c))
  }

  /** Nothing the loop has still to write has been written to a socket of its conversation. */
  ghost predicate BoundOk(loop: Loop, c: Uuid, handlers: seq<Handler>) {
    forall h :: 0 <= h < |handlers| && handlers[h].conversationId == c ==> Below(handlers[h].got, Bound(loop, h))
  }

  ghost predicate LoopsOk(loops: seq<Loop>, tasks: seq<TaskState>, logs: map<Uuid, seq<Payload>>,
                          handlers: seq<Handler>) {
    && |loops| == |tasks|
    && forall l :: 0 <= l < |loops| && !tasks[l].cancelled && Attached(loops[l].pc) ==>
         && LoopOk(loops[l], tasks[l].conversationId, logs, handlers)
         && BoundOk(loops[l], tasks[l].conversationId, handlers)
  }

  ghost predicate RelayOk(s: State) {
    GotOk(s.handlers, s.logs) && LoopsOk(s.loops, s.hub.tasks, s.logs, s.handlers)
  }

  // ----- the invariant -----

  ghost predicate Inv(s: State) {
    && OwnerOk(s.hub, s.loops)
    && LocksOk(s)
    && JoinsOk(s.handlers, s.hub.tasks)
    && StopJoinsOk(s.controls, s.hub.tasks)
    && RegistryOk(s.registry, s.handlers)
    && OwedOk(s.hub.subscriptions, s.handlers)
    && ReadyOk(s.hub.tasks, s.loops)
    && BackoffOk(s.loops)
    && RelayOk(s)
  }

  lemma InitOk(logs: map<Uuid, seq<Payload>>)
    ensures Inv(Init(logs))
  {
  }

  // ----- locks -----

  /** Releasing the pubsub lock, unless the same task holds the manager lock inside it. */
  lemma ReleasePubKeeps(s: State)
    requires Inv(s)
    requires s.mgrLock.Some? ==> s.mgrLock != s.pubLock
    ensures Inv(s.(pubLock := None))
  {
  }

  lemma ReleaseMgrKeeps(s: State)
    requires Inv(s)
    ensures Inv(s.(mgrLock := None))
  {
  }

  /** A task that holds no lock may move to any program point, as far as the locks are concerned. */
  predicate HoldsNone(s: State, t: Task) {
    s.pubLock != Some(t) && s.mgrLock != Some(t)
  }

  // ----- handlers -----

  /** Same sockets, same frames; new sockets have none. */
  predicate SameRelay(hs: seq<Handler>, hs': seq<Handler>) {
    && |hs| <= |hs'|
    && (forall h :: 0 <= h < |hs| ==> hs'[h].conversationId == hs[h].conversationId && hs'[h].got == hs[h].got)
    && (forall h :: |hs| <= h < |hs'| ==> hs'[h].got == [])
  }

  /** The same tasks, some cancelled meanwhile, and perhaps new ones. */
  predicate Aged(ts: seq<TaskState>, ts': seq<TaskState>) {
    && |ts| <= |ts'|
    && (forall l :: 0 <= l < |ts| ==>
          ts'[l].conversationId == ts[l].conversationId && (ts[l].cancelled ==> ts'[l].cancelled))
  }

  ghost predicate Grown(logs: map<Uuid, seq<Payload>>, logs': map<Uuid, seq<Payload>>) {
    forall c :: LogOf(logs, c) <= LogOf(logs', c)
  }

  lemma LoopOkFrame(loop: Loop, c: Uuid, logs: map<Uuid, seq<Payload>>, logs': map<Uuid, seq<Payload>>,
                    hs: seq<Handler>, hs': seq<Handler>)
    requires LoopOk(loop, c, logs, hs) && BoundOk(loop, c, hs)
    requires SameRelay(hs, hs') && Grown(logs, logs')
    ensures LoopOk(loop, c, logs', hs') && BoundOk(loop, c, hs')
  {
    assert LogOf(logs, c) <= LogOf(logs', c);
    forall h | 0 <= h < |hs'| && hs'[h].conversationId == c ensures Below(hs'[h].got, Bound(loop, h)) {
      assert h < |hs| ==> Below(hs[h].got, Bound(loop, h));
    }
  }

  lemma GotFrame(hs: seq<Handler>, hs': seq<Handler>, logs: map<Uuid, seq<Payload>>, logs': map<Uuid, seq<Payload>>)
    requires GotOk(hs, logs) && SameRelay(hs, hs') && Grown(logs, logs')
    ensures GotOk(hs', logs')
  {
    forall h | 0 <= h < |hs'|
      ensures Increasing(hs'[h].got)
      ensures forall j :: 0 <= j < |hs'[h].got| ==> Relayable(LogOf(logs', hs'[h].conversationId), hs'[h].got[j])
    {
      assert LogOf(logs, hs'[h].conversationId) <= LogOf(logs', hs'[h].conversationId);
    }
  }

  /** Every loop but perhaps `l` is as it was, or new. */
  lemma LoopsFrame(loops: seq<Loop>, loops': seq<Loop>, ts: seq<TaskState>, ts': seq<TaskState>, l: nat,
                   logs: map<Uuid, seq<Payload>>, logs': map<Uuid, seq<Payload>>, hs: seq<Handler>, hs': seq<Handler>)
    requires LoopsOk(loops, ts, logs, hs)
    requires SameRelay(hs, hs') && Grown(logs, logs') && Aged(ts, ts')
    requires |loops'| == |ts'|
    requires forall k :: 0 <= k < |loops| && k != l ==> loops'[k] == loops[k]
    requires forall k :: |loops| <= k < |loops'| && k != l ==> loops'[k] == NEW_LOOP
    requires l < |loops'| && !ts'[l].cancelled && Attached(loops'[l].pc) ==>
      LoopOk(loops'[l], ts'[l].conversationId, logs', hs') && BoundOk(loops'[l], ts'[l].conversationId, hs')
    ensures LoopsOk(loops', ts', logs', hs')
  {
    forall k | 0 <= k < |loops'| && k != l && !ts'[k].cancelled && Attached(loops'[k].pc)
      ensures LoopOk(loops'[k], ts'[k].conversationId, logs', hs') && BoundOk(loops'[k], ts'[k].conversationId, hs')
    {
      LoopOkFrame(loops[k], ts[k].conversationId, logs, logs', hs, hs');
    }
  }

  lemma OwedAfterMove(subs: map<Uuid, nat>, hs: seq<Handler>, h: nat, pc: HandlerPc)
    requires OwedOk(subs, hs) && h < |hs|
    requires Owes(hs[h].pc) && !Owes(pc) && hs[h].conversationId in subs ==>
      exists k :: k != h && OwedBy(hs, hs[h].conversationId, k)
    ensures OwedOk(subs, hs[h := hs[h].(pc := pc)])
  {
    var hs' := hs[h := hs[h].(pc := pc)];
    forall c | c in subs ensures Owed(hs', c) {
      var k :| OwedBy(hs, c, k);
      if k == h && !Owes(pc) {
        var k' :| k' != h && OwedBy(hs, c, k');
        assert OwedBy(hs', c, k');
      } else {
        assert OwedBy(hs', c, k);
      }
    }
  }

  lemma RegistryAfterMove(registry: Registry, hs: seq<Handler>, h: nat, pc: HandlerPc)
    requires RegistryOk(registry, hs) && h < |hs|
    requires h in Members(registry, hs[h].conversationId) ==> BeforeDisconnect(pc)
    ensures RegistryOk(registry, hs[h := hs[h].(pc := pc)])
  {
    var hs' := hs[h := hs[h].(pc := pc)];
    forall c: Uuid, k: nat | c in registry && k in registry[c]
      ensures k < |hs'| && hs'[k].conversationId == c && BeforeDisconnect(hs'[k].pc)
    {
      assert k < |hs| && hs[k].conversationId == c;
    }
  }

  /** A handler without locks moves on. It may stop owing an unsubscribe only when its conversation has no
      entry or another handler owes one. */
  lemma MoveHandlerKeeps(s: State, h: nat, pc: HandlerPc)
    requires Inv(s) && h < |s.handlers| && HoldsNone(s, HandlerTask(h))
    requires JoinOk(pc, s.hub.tasks)
    requires h in Members(s.registry, s.handlers[h].conversationId) ==> BeforeDisconnect(pc)
    requires Owes(s.handlers[h].pc) && !Owes(pc) && s.handlers[h].conversationId in s.hub.subscriptions ==>
      exists k :: k != h && OwedBy(s.handlers, s.handlers[h].conversationId, k)
    ensures Inv(MoveHandler(s, h, pc))
  {
    var s' := MoveHandler(s, h, pc);
    RegistryAfterMove(s.registry, s.handlers, h, pc);
    OwedAfterMove(s.hub.subscriptions, s.handlers, h, pc);
    assert Grown(s.logs, s.logs);
    GotFrame(s.handlers, s'.handlers, s.logs, s.logs);
    LoopsFrame(s.loops, s.loops, s.hub.tasks, s.hub.tasks, |s.loops|, s.logs, s.logs, s.handlers, s'.handlers);
  }

  // ----- the registry -----

  /** Taking sockets out never hurts. */
  lemma ShrinkRegistryKeeps(s: State, registry: Registry)
    requires Inv(s) && NoEmptySet(registry)
    requires forall c :: Members(registry, c) <= Members(s.registry, c)
    ensures Inv(s.(registry := registry))
  {
    ShrunkRegistryOk(s.registry, registry, s.handlers);
  }

  lemma ShrunkRegistryOk(before: Registry, after: Registry, handlers: seq<Handler>)
    requires RegistryOk(before, handlers) && NoEmptySet(after)
    requires forall c :: Members(after, c) <= Members(before, c)
    ensures RegistryOk(after, handlers)
  {
    forall c: Uuid, h: nat {:trigger h in after[c]} | c in after && h in after[c]
      ensures h < |handlers| && handlers[h].conversationId == c && BeforeDisconnect(handlers[h].pc)
    {
      assert h in Members(after, c) && h in Members(before, c);
      assert c in before && h in before[c];
    }
  }

  lemma RegisterKeeps(s: State, h: nat)
    requires Inv(s) && h < |s.handlers| && BeforeDisconnect(s.handlers[h].pc)
    ensures Inv(s.(registry := Add(s.registry, s.handlers[h].conversationId, h)))
  {
    AddRefines(s.registry, s.handlers[h].conversationId, h);
  }

  // ----- the subscription table -----

  lemma JoinsFrame(s: State, ts: seq<TaskState>)
    requires JoinsOk(s.handlers, s.hub.tasks) && StopJoinsOk(s.controls, s.hub.tasks) && Aged(s.hub.tasks, ts)
    ensures JoinsOk(s.handlers, ts) && StopJoinsOk(s.controls, ts)
  {
    forall h | 0 <= h < |s.handlers| ensures JoinOk(s.handlers[h].pc, ts) {
      assert JoinOk(s.handlers[h].pc, s.hub.tasks);
    }
    forall k: nat, l: nat | k < |s.controls| && s.controls[k].JoinAll? && l in s.controls[k].ls
      ensures l < |ts| && ts[l].cancelled
    {
      assert l < |s.hub.tasks| && s.hub.tasks[l].cancelled;
    }
  }

  /** Entries go and tasks are cancelled; nothing else about them changes. */
  predicate OnlyCancels(ts: seq<TaskState>, ts': seq<TaskState>) {
    && |ts| == |ts'|
    && (forall l :: 0 <= l < |ts| ==> ts'[l] == ts[l] || ts'[l] == ts[l].(cancelled := true))
  }

  lemma CancelKeeps(s: State, hub: Hub)
    requires Inv(s) && SingleOwner(hub) && OnlyCancels(s.hub.tasks, hub.tasks)
    requires hub.subscriptions.Keys <= s.hub.subscriptions.Keys
    ensures Inv(s.(hub := hub))
  {
    JoinsFrame(s, hub.tasks);
    assert Grown(s.logs, s.logs);
    LoopsFrame(s.loops, s.loops, s.hub.tasks, hub.tasks, |s.loops|, s.logs, s.logs, s.handlers, s.handlers);
    forall c | c in hub.subscriptions ensures Owed(s.handlers, c) {
      assert c in s.hub.subscriptions;
    }
  }

  lemma CancelTasksOnlyCancels(ts: seq<TaskState>, ls: set<nat>)
    ensures OnlyCancels(ts, CancelTasks(ts, ls))
  {
  }

  lemma PopStateKeeps(s: State, c: Uuid)
    requires Inv(s)
    ensures Inv(s.(hub := Pop(s.hub, c)))
  {
    PopKeeps(s.hub, c);
    if c in s.hub.subscriptions {
      CancelTasksOnlyCancels(s.hub.tasks, {s.hub.subscriptions[c]});
      CancelKeeps(s, Pop(s.hub, c));
    }
  }

  /** A subscribe stores at most one new task, for which the subscribing handler owes an unsubscribe. */
  lemma SubscribeStateKeeps(s: State, h: nat)
    requires Inv(s) && h < |s.handlers| && Owes(s.handlers[h].pc)
    ensures var hub := Subscribe(s.hub, s.handlers[h].conversationId);
            Inv(s.(hub := hub, loops := if |hub.tasks| > |s.hub.tasks| then s.loops + [NEW_LOOP] else s.loops))
  {
    var c := s.handlers[h].conversationId;
    var hub := Subscribe(s.hub, c);
    SubscribeKeeps(s.hub, c);
    assert OwedBy(s.handlers, c, h);
    OwedAfterSubscribe(s.hub, c, s.handlers);
    if |hub.tasks| > |s.hub.tasks| {
      AddTaskKeeps(s, hub, c);
    } else {
      CancelKeeps(s, hub);
    }
  }

  lemma OwedAfterSubscribe(hub: Hub, c: Uuid, hs: seq<Handler>)
    requires OwedOk(hub.subscriptions, hs) && Owed(hs, c)
    ensures OwedOk(Subscribe(hub, c).subscriptions, hs)
  {
  }

  lemma AddTaskKeeps(s: State, hub: Hub, c: Uuid)
    requires Inv(s) && SingleOwner(hub) && OwedOk(hub.subscriptions, s.handlers)
    requires hub.tasks == s.hub.tasks + [TaskState(c, false, 0, false, false)]
    ensures Inv(s.(hub := hub, loops := s.loops + [NEW_LOOP]))
  {
    var loops := s.loops + [NEW_LOOP];
    assert Aged(s.hub.tasks, hub.tasks);
    JoinsFrame(s, hub.tasks);
    assert Grown(s.logs, s.logs);
    LoopsFrame(s.loops, loops, s.hub.tasks, hub.tasks, |loops|, s.logs, s.logs, s.handlers, s.handlers);
    assert Delay(0) == INITIAL_BACKOFF && TotalSleep(0) == 0;
  }

  // ----- loops -----

  /** A loop without locks moves on, and may set or clear its own event on the way. */
  lemma SetTaskKeeps(s: State, l: nat, t: TaskState, loop: Loop)
    requires Inv(s) && l < |s.loops| && HoldsNone(s, LoopTask(l))
    requires t == s.hub.tasks[l].(ready := t.ready, wakes := t.wakes)
    requires !loop.pc.Finished? && !t.done && (loop.pc.Unwinding? ==> t.cancelled)
    requires LoopReadyOk(t, loop)
    requires loop.backoff == Delay(loop.failures) && loop.slept == TotalSleep(loop.failures)
    requires !t.cancelled && Attached(loop.pc) ==>
      LoopOk(loop, t.conversationId, s.logs, s.handlers) && BoundOk(loop, t.conversationId, s.handlers)
    ensures Inv(SetLoop(s, l, loop).(hub := s.hub.(tasks := s.hub.tasks[l := t])))
  {
    var ts := s.hub.tasks[l := t];
    assert Aged(s.hub.tasks, ts);
    SetTaskOwnerOk(s.hub, s.loops, l, t, loop);
    JoinsFrame(s, ts);
    assert Grown(s.logs, s.logs);
    LoopsFrame(s.loops, s.loops[l := loop], s.hub.tasks, ts, l, s.logs, s.logs, s.handlers, s.handlers);
  }

  lemma SetTaskOwnerOk(hub: Hub, loops: seq<Loop>, l: nat, t: TaskState, loop: Loop)
    requires OwnerOk(hub, loops) && ReadyOk(hub.tasks, loops) && BackoffOk(loops) && l < |loops|
    requires t == hub.tasks[l].(ready := t.ready, wakes := t.wakes)
    requires !loop.pc.Finished? && !t.done && (loop.pc.Unwinding? ==> t.cancelled)
    requires LoopReadyOk(t, loop)
    requires loop.backoff == Delay(loop.failures) && loop.slept == TotalSleep(loop.failures)
    ensures var ts, loops' := hub.tasks[l := t], loops[l := loop];
            OwnerOk(hub.(tasks := ts), loops') && ReadyOk(ts, loops') && BackoffOk(loops')
  {
  }

  lemma SetLoopKeeps(s: State, l: nat, loop: Loop)
    requires Inv(s) && l < |s.loops| && HoldsNone(s, LoopTask(l))
    requires !loop.pc.Finished? && !s.hub.tasks[l].done && (loop.pc.Unwinding? ==> IsCancelled(s, l))
    requires LoopReadyOk(s.hub.tasks[l], loop)
    requires loop.backoff == Delay(loop.failures) && loop.slept == TotalSleep(loop.failures)
    requires !IsCancelled(s, l) && Attached(loop.pc) ==>
      LoopOk(loop, ConversationOf(s, l), s.logs, s.handlers) && BoundOk(loop, ConversationOf(s, l), s.handlers)
    ensures Inv(SetLoop(s, l, loop))
  {
    assert s.hub.tasks[l := s.hub.tasks[l]] == s.hub.tasks;
    SetTaskKeeps(s, l, s.hub.tasks[l], loop);
  }

  /** A cancelled loop ends. */
  lemma EndLoopKeeps(s: State, l: nat)
    requires Inv(s) && l < |s.loops| && HoldsNone(s, LoopTask(l)) && IsCancelled(s, l)
    ensures Inv(EndLoop(s, l))
  {
    var s' := EndLoop(s, l);
    FinishKeeps(s.hub, l);
    assert Aged(s.hub.tasks, s'.hub.tasks);
    JoinsFrame(s, s'.hub.tasks);
    assert Grown(s.logs, s.logs);
    LoopsFrame(s.loops, s'.loops, s.hub.tasks, s'.hub.tasks, l, s.logs, s.logs, s.handlers, s.handlers);
  }

  /** Program points and conversations stay; only what sockets got changes. */
  lemma SamePointsKeep(s: State, hs': seq<Handler>)
    requires Inv(s) && |hs'| == |s.handlers|
    requires forall h :: 0 <= h < |hs'| ==>
      hs'[h].pc == s.handlers[h].pc && hs'[h].conversationId == s.handlers[h].conversationId
    ensures JoinsOk(hs', s.hub.tasks) && RegistryOk(s.registry, hs') && OwedOk(s.hub.subscriptions, hs')
  {
    forall h | 0 <= h < |hs'| ensures JoinOk(hs'[h].pc, s.hub.tasks) {
      assert JoinOk(s.handlers[h].pc, s.hub.tasks);
    }
    forall c | c in s.hub.subscriptions ensures Owed(hs', c) {
      var h :| OwedBy(s.handlers, c, h);
      assert OwedBy(hs', c, h);
    }
    forall c: Uuid, h: nat | c in s.registry && h in s.registry[c]
      ensures h < |hs'| && hs'[h].conversationId == c && BeforeDisconnect(hs'[h].pc)
    {
      assert h < |s.handlers| && s.handlers[h].conversationId == c;
    }
  }
}
