/** One instance's fan-out as a step system. A step is a stretch between suspension points; taking a lock is a
    step of its own, and the section that a lock protects is the next step of its holder. */
module FanOut {
  import opened Ids
  import opened Frames
  import opened Registry
  import opened Backoff
  import opened Subscriptions

  datatype Task = HandlerTask(h: nat) | LoopTask(l: nat) | ControlTask(k: nat)

  // ----- `_subscription_loop` -----

  /** What the loop awaits. `open` says whether `finally` has a Redis subscription to close. */
  datatype LoopPc =
    | Checking                        // pubsub lock: outer `_is_subscribed`
    | Subscribing                     // Redis
    | MarkingReady                    // pubsub lock
    | Rechecking                      // pubsub lock: inner `_is_subscribed`
    | Polling                         // Redis
    | Snapshotting(i: nat)            // manager lock, to broadcast log entry `i`
    | Sending(i: nat, todo: seq<Socket>, failed: seq<Socket>, written: bool)  // a socket, the first of `todo`
    | Removing(failed: seq<Socket>)   // manager lock
    | MarkingNotReady(open: bool)     // pubsub lock
    | Sleeping(open: bool)            // timer
    | Closing                         // Redis, in `finally`
    | Unwinding                       // Redis, in `finally` after a cancellation
    | Finished

  /** `cursor` is the next log entry of the Redis subscription. `failures`, `slept` and `subscribed` are history:
      consecutive failures and sleep since the last success, and channel subscriptions completed so far. */
  datatype Loop = Loop(pc: LoopPc, cursor: nat, backoff: nat, failures: nat, slept: nat, subscribed: nat)

  const NEW_LOOP: Loop := Loop(Checking, 0, INITIAL_BACKOFF, 0, 0, 0)

  /** Is inside the `try` with a Redis subscription object to close. */
  predicate HoldsChannel(pc: LoopPc) {
    match pc
    case Subscribing => true
    case MarkingReady => true
    case Rechecking => true
    case Polling => true
    case Snapshotting(_) => true
    case Sending(_, _, _, _) => true
    case Removing(_) => true
    case MarkingNotReady(open) => open
    case Sleeping(open) => open
    case _ => false
  }

  // ----- `conversation_websocket`, from `connect` on -----

  datatype HandlerPc =
    | AtConnect                           // manager lock
    | AtSubscribe                         // pubsub lock
    | Awaiting(l: nat, seen: nat)         // `ready` of state `l`, or five seconds
    | AtTimeoutPop                        // pubsub lock: forced unsubscribe of the timeout
    | JoinAfterTimeout(l: nat)            // task `l`
    | AtFailDisconnect                    // manager lock
    | AtFailPop                           // pubsub lock: forced unsubscribe of the handler
    | JoinAfterFail(l: nat)               // task `l`
    | AtSocketClose                       // the socket
    | Running                             // the chat service
    | AtDisconnect                        // manager lock
    | AtUnsubscribe                       // pubsub lock, then manager lock
    | JoinAfterUnsubscribe(l: nat)        // task `l`
    | Gone

  /** A handler owns one socket, named by its number. `got` lists the log entries written to that socket by a
      relaying loop, whether or not the send that wrote them has returned. */
  datatype Handler = Handler(conversationId: Uuid, pc: HandlerPc, got: seq<nat>)

  // ----- `start` and `stop` -----

  datatype ControlPc =
    | AtStart               // pubsub lock
    | AtStop                // pubsub lock
    | JoinAll(ls: set<nat>) // tasks `ls`
    | AtStopEnd             // pubsub lock
    | ControlDone

  datatype State = State(
    hub: Hub,
    loops: seq<Loop>,
    handlers: seq<Handler>,
    controls: seq<ControlPc>,
    registry: Registry,
    logs: map<Uuid, seq<Payload>>,
    pubLock: Option<Task>,
    mgrLock: Option<Task>)

  function Init(logs: map<Uuid, seq<Payload>>): State {
    State(EMPTY_HUB, [], [], [], map[], logs, None, None)
  }

  /** The publish log of a conversation's channel. */
  function LogOf(logs: map<Uuid, seq<Payload>>, c: Uuid): seq<Payload> {
    if c in logs then logs[c] else []
  }

  function Log(s: State, c: Uuid): seq<Payload> {
    LogOf(s.logs, c)
  }

  function ConversationOf(s: State, l: nat): Uuid {
    TaskAt(s.hub, l).conversationId
  }

  predicate IsCancelled(s: State, l: nat) {
    TaskAt(s.hub, l).cancelled
  }

  // ----- steps -----

  datatype PollAnswer = Nothing | Received | PollFailed

  datatype Step =
    | Publish(c: Uuid, p: Payload)            // by any instance
    | Open(c: Uuid)                           // an accepted socket
    | CallStart
    | CallStop
    | CloseAll(c: Uuid)                       // the section of `close_conversation_connections`
    | TakePub(t: Task)
    | TakeMgr(t: Task)
    | HConnect(h: nat)
    | HSubscribe(h: nat)
    | HWake(h: nat)
    | HTimeout(h: nat)
    | HForcePop(h: nat)
    | HJoined(h: nat)
    | HDisconnect(h: nat)
    | HSocketClosed(h: nat)
    | HRunEnds(h: nat)
    | HUnsubscribe(h: nat)
    | LCheck(l: nat, redisOk: bool)
    | LSubscribed(l: nat, ok: bool)
    | LMarkReady(l: nat)
    | LRecheck(l: nat)
    | LPoll(l: nat, answer: PollAnswer)
    | LSnapshot(l: nat, order: seq<Socket>)
    | LWrite(l: nat)                          // the frame is handed to the transport
    | LSend(l: nat, outcome: SendOutcome)     // the send returns
    | LRemove(l: nat)
    | LMarkNotReady(l: nat)
    | LSlept(l: nat)
    | LClosed(l: nat)
    | LUnwind(l: nat)
    | CStart(k: nat)
    | CStop(k: nat)
    | CJoined(k: nat)
    | CStopEnd(k: nat)

  /** The next section of the task is under the pubsub lock. */
  predicate PubSection(s: State, t: Task) {
    match t
    case HandlerTask(h) =>
      h < |s.handlers| && var pc := s.handlers[h].pc;
      pc.AtSubscribe? || pc.AtTimeoutPop? || pc.AtFailPop? || pc.AtUnsubscribe?
    case LoopTask(l) =>
      l < |s.loops| && var pc := s.loops[l].pc;
      pc.Checking? || pc.MarkingReady? || pc.Rechecking? || pc.MarkingNotReady?
    case ControlTask(k) =>
      k < |s.controls| && var pc := s.controls[k];
      pc.AtStart? || pc.AtStop? || pc.AtStopEnd?
  }

  /** The next section of the task is under the manager lock. The connection count of an unsubscribe is read
      with the pubsub lock already held. */
  predicate MgrSection(s: State, t: Task) {
    match t
    case HandlerTask(h) =>
      h < |s.handlers| && var pc := s.handlers[h].pc;
      || pc.AtConnect? || pc.AtFailDisconnect? || pc.AtDisconnect?
      || (pc.AtUnsubscribe? && s.pubLock == Some(t))
    case LoopTask(l) => l < |s.loops| && (s.loops[l].pc.Snapshotting? || s.loops[l].pc.Removing?)
    case ControlTask(_) => false
  }

  /** A cancelled task takes no lock: the acquire raises. */
  predicate MayAcquire(s: State, t: Task) {
    t.LoopTask? ==> !IsCancelled(s, t.l)
  }

  predicate HandlerAt(s: State, h: nat) {
    h < |s.handlers|
  }

  /** A task that has been cancelled runs nothing but its `finally`. */
  predicate LoopRuns(s: State, l: nat) {
    l < |s.loops| && !IsCancelled(s, l)
  }

  /** The loop is about to send an entry to the first socket of its to-do list. */
  predicate AtSend(s: State, l: nat) {
    LoopRuns(s, l) && s.loops[l].pc.Sending? && s.loops[l].pc.todo != [] && s.loops[l].pc.todo[0] < |s.handlers|
  }

  predicate AllDone(s: State, ls: set<nat>) {
    forall l :: l in ls ==> TaskAt(s.hub, l).done
  }

  predicate IsHandlerStep(step: Step) {
    || step.HConnect? || step.HSubscribe? || step.HWake? || step.HTimeout? || step.HForcePop? || step.HJoined?
    || step.HDisconnect? || step.HSocketClosed? || step.HRunEnds? || step.HUnsubscribe?
  }

  predicate IsLoopStep(step: Step) {
    || step.LCheck? || step.LSubscribed? || step.LMarkReady? || step.LRecheck? || step.LPoll? || step.LSnapshot?
    || step.LWrite? || step.LSend? || step.LRemove? || step.LMarkNotReady? || step.LSlept? || step.LClosed?
    || step.LUnwind?
  }

  predicate HandlerEnabled(s: State, step: Step)
    requires IsHandlerStep(step)
  {
    match step
    case HConnect(h) => HandlerAt(s, h) && s.handlers[h].pc.AtConnect? && s.mgrLock == Some(HandlerTask(h))
    case HSubscribe(h) => HandlerAt(s, h) && s.handlers[h].pc.AtSubscribe? && s.pubLock == Some(HandlerTask(h))
    case HWake(h) =>
      HandlerAt(s, h) && s.handlers[h].pc.Awaiting? && TaskAt(s.hub, s.handlers[h].pc.l).wakes > s.handlers[h].pc.seen
    case HTimeout(h) => HandlerAt(s, h) && s.handlers[h].pc.Awaiting?
    case HForcePop(h) =>
      && HandlerAt(s, h) && (s.handlers[h].pc.AtTimeoutPop? || s.handlers[h].pc.AtFailPop?)
      && s.pubLock == Some(HandlerTask(h))
    case HJoined(h) =>
      && HandlerAt(s, h)
      && (var pc := s.handlers[h].pc; pc.JoinAfterTimeout? || pc.JoinAfterFail? || pc.JoinAfterUnsubscribe?)
      && TaskAt(s.hub, s.handlers[h].pc.l).done
    case HDisconnect(h) =>
      && HandlerAt(s, h) && (s.handlers[h].pc.AtFailDisconnect? || s.handlers[h].pc.AtDisconnect?)
      && s.mgrLock == Some(HandlerTask(h))
    case HSocketClosed(h) => HandlerAt(s, h) && s.handlers[h].pc.AtSocketClose?
    case HRunEnds(h) => HandlerAt(s, h) && s.handlers[h].pc.Running?
    case HUnsubscribe(h) =>
      && HandlerAt(s, h) && s.handlers[h].pc.AtUnsubscribe?
      && s.pubLock == Some(HandlerTask(h)) && s.mgrLock == Some(HandlerTask(h))
  }

  predicate LoopEnabled(s: State, step: Step)
    requires IsLoopStep(step)
  {
    match step
    case LCheck(l, _) => LoopRuns(s, l) && s.loops[l].pc.Checking? && s.pubLock == Some(LoopTask(l))
    case LSubscribed(l, _) => LoopRuns(s, l) && s.loops[l].pc.Subscribing?
    case LMarkReady(l) => LoopRuns(s, l) && s.loops[l].pc.MarkingReady? && s.pubLock == Some(LoopTask(l))
    case LRecheck(l) => LoopRuns(s, l) && s.loops[l].pc.Rechecking? && s.pubLock == Some(LoopTask(l))
    case LPoll(l, answer) =>
      && LoopRuns(s, l) && s.loops[l].pc.Polling?
      && (answer.Received? ==> s.loops[l].cursor < |Log(s, ConversationOf(s, l))|)
    case LSnapshot(l, order) =>
      && LoopRuns(s, l) && s.loops[l].pc.Snapshotting? && s.mgrLock == Some(LoopTask(l))
      && NoDuplicates(order) && (set w | w in order) == Members(s.registry, ConversationOf(s, l))
    case LWrite(l) => AtSend(s, l) && !s.loops[l].pc.written
    case LSend(l, outcome) => AtSend(s, l) && (outcome.Delivered? ==> s.loops[l].pc.written)
    case LRemove(l) => LoopRuns(s, l) && s.loops[l].pc.Removing? && s.mgrLock == Some(LoopTask(l))
    case LMarkNotReady(l) => LoopRuns(s, l) && s.loops[l].pc.MarkingNotReady? && s.pubLock == Some(LoopTask(l))
    case LSlept(l) => LoopRuns(s, l) && s.loops[l].pc.Sleeping?
    case LClosed(l) => LoopRuns(s, l) && s.loops[l].pc.Closing?
    case LUnwind(l) => l < |s.loops| && IsCancelled(s, l) && !s.loops[l].pc.Finished?
  }

  predicate OtherEnabled(s: State, step: Step)
    requires !IsHandlerStep(step) && !IsLoopStep(step)
  {
    match step
    case Publish(_, _) => true
    case Open(_) => true
    case CallStart => true
    case CallStop => true
    case CloseAll(_) => s.mgrLock == None
    case TakePub(t) => s.pubLock == None && PubSection(s, t) && MayAcquire(s, t)
    case TakeMgr(t) => s.mgrLock == None && MgrSection(s, t) && MayAcquire(s, t)
    case CStart(k) => k < |s.controls| && s.controls[k].AtStart? && s.pubLock == Some(ControlTask(k))
    case CStop(k) => k < |s.controls| && s.controls[k].AtStop? && s.pubLock == Some(ControlTask(k))
    case CJoined(k) => k < |s.controls| && s.controls[k].JoinAll? && AllDone(s, s.controls[k].ls)
    case CStopEnd(k) => k < |s.controls| && s.controls[k].AtStopEnd? && s.pubLock == Some(ControlTask(k))
  }

  predicate Enabled(s: State, step: Step) {
    if IsHandlerStep(step) then HandlerEnabled(s, step)
    else if IsLoopStep(step) then LoopEnabled(s, step)
    else OtherEnabled(s, step)
  }

  // ----- effects -----

  function MoveHandler(s: State, h: nat, pc: HandlerPc): State
    requires h < |s.handlers|
  {
    s.(handlers := s.handlers[h := s.handlers[h].(pc := pc)])
  }

  function SetLoop(s: State, l: nat, loop: Loop): State
    requires l < |s.loops|
  {
    s.(loops := s.loops[l := loop])
  }

  function MoveLoop(s: State, l: nat, pc: LoopPc): State
    requires l < |s.loops|
  {
    SetLoop(s, l, s.loops[l].(pc := pc))
  }

  function MoveControl(s: State, k: nat, pc: ControlPc): State
    requires k < |s.controls|
  {
    s.(controls := s.controls[k := pc])
  }

  /** The coroutine of loop `l` ends. */
  function EndLoop(s: State, l: nat): State
    requires l < |s.loops|
  {
    MoveLoop(s, l, Finished).(hub := Finish(s.hub, l))
  }

  function Released(lock: Option<Task>, t: Task): Option<Task> {
    if lock == Some(t) then None else lock
  }

  /** The locked section of a subscribe, and `ready.wait()`, which returns at once when the event is set. */
  function SubscribeStep(s: State, h: nat): State
    requires h < |s.handlers|
  {
    var c := s.handlers[h].conversationId;
    var hub := Subscribe(s.hub, c);
    var loops := if |hub.tasks| > |s.hub.tasks| then s.loops + [NEW_LOOP] else s.loops;
    var pc :=
      if s.hub.stopping then Running
      else
        var l := hub.subscriptions[c];
        if TaskAt(hub, l).ready then Running else Awaiting(l, TaskAt(hub, l).wakes);
    MoveHandler(s, h, pc).(hub := hub, loops := loops, pubLock := None)
  }

  /** A forced unsubscribe: pop, cancel, and join what was popped. */
  function ForcePopStep(s: State, h: nat): State
    requires h < |s.handlers|
  {
    var c, early := s.handlers[h].conversationId, s.handlers[h].pc.AtTimeoutPop?;
    var pc :=
      if c in s.hub.subscriptions then
        if early then JoinAfterTimeout(s.hub.subscriptions[c]) else JoinAfterFail(s.hub.subscriptions[c])
      else if early then AtFailDisconnect else AtSocketClose;
    MoveHandler(s, h, pc).(hub := Pop(s.hub, c), pubLock := None)
  }

  /** An ordinary unsubscribe leaves the entry to the sockets that are still registered. */
  function UnsubscribeStep(s: State, h: nat): State
    requires h < |s.handlers|
  {
    var c := s.handlers[h].conversationId;
    if |Members(s.registry, c)| > 0 then
      MoveHandler(s, h, Gone).(pubLock := None, mgrLock := None)
    else
      var pc := if c in s.hub.subscriptions then JoinAfterUnsubscribe(s.hub.subscriptions[c]) else Gone;
      MoveHandler(s, h, pc).(hub := Pop(s.hub, c), pubLock := None, mgrLock := None)
  }

  function CheckStep(s: State, l: nat, redisOk: bool): State
    requires l < |s.loops|
  {
    (if !IsSubscribed(s.hub, ConversationOf(s, l)) then EndLoop(s, l)
     else MoveLoop(s, l, if redisOk then Subscribing else MarkingNotReady(false))).(pubLock := None)
  }

  function PollStep(s: State, l: nat, answer: PollAnswer): State
    requires l < |s.loops|
    requires answer.Received? ==> s.loops[l].cursor < |Log(s, ConversationOf(s, l))|
  {
    match answer
    case Nothing => MoveLoop(s, l, Rechecking)
    case PollFailed => MoveLoop(s, l, MarkingNotReady(true))
    case Received =>
      var i := s.loops[l].cursor;
      var relayed := ReadPayload(Log(s, ConversationOf(s, l))[i]).Some?;
      SetLoop(s, l, s.loops[l].(pc := if relayed then Snapshotting(i) else Rechecking, cursor := i + 1))
  }

  function AfterSend(i: nat, todo: seq<Socket>, failed: seq<Socket>): LoopPc {
    if todo != [] then Sending(i, todo, failed, false)
    else if failed != [] then Removing(failed)
    else Rechecking
  }

  function Relayed(h: Handler, i: nat): Handler {
    h.(got := h.got + [i])
  }

  /** The frame is out; whatever becomes of the send, a cancellation of the loop included, it stays out. */
  function WriteStep(s: State, l: nat): State
    requires AtSend(s, l)
  {
    var Sending(i, todo, failed, _) := s.loops[l].pc;
    var w := todo[0];
    MoveLoop(s, l, Sending(i, todo, failed, true)).(handlers := s.handlers[w := Relayed(s.handlers[w], i)])
  }

  function AfterOutcome(pc: LoopPc, outcome: SendOutcome): LoopPc
    requires pc.Sending? && pc.todo != []
  {
    match outcome
    case Delivered => AfterSend(pc.i, pc.todo[1..], pc.failed)
    case Refused => AfterSend(pc.i, pc.todo[1..], pc.failed + [pc.todo[0]])
    case Crashed => MarkingNotReady(true)
  }

  function SleptStep(s: State, l: nat): State
    requires l < |s.loops| && s.loops[l].pc.Sleeping?
  {
    var loop := s.loops[l];
    SetLoop(s, l, loop.(pc := if loop.pc.open then Closing else Checking,
                        slept := loop.slept + loop.backoff,
                        backoff := NextBackoff(loop.backoff),
                        failures := loop.failures + 1))
  }

  /** CancelledError leaves the locked section, if any, and runs `finally`. */
  function UnwindStep(s: State, l: nat): State
    requires l < |s.loops|
  {
    (if HoldsChannel(s.loops[l].pc) then MoveLoop(s, l, Unwinding) else EndLoop(s, l))
    .(pubLock := Released(s.pubLock, LoopTask(l)), mgrLock := Released(s.mgrLock, LoopTask(l)))
  }

  function StopStep(s: State, k: nat): State
    requires k < |s.controls|
  {
    var joined := s.hub.subscriptions.Values;
    MoveControl(s, k, if joined == {} then AtStopEnd else JoinAll(joined)).(hub := Stop(s.hub), pubLock := None)
  }

  function HandlerApply(s: State, step: Step): State
    requires IsHandlerStep(step) && HandlerEnabled(s, step)
  {
    match step
    case HConnect(h) =>
      MoveHandler(s, h, AtSubscribe).(registry := Add(s.registry, s.handlers[h].conversationId, h), mgrLock := None)
    case HSubscribe(h) => SubscribeStep(s, h)
    case HWake(h) => MoveHandler(s, h, Running)
    case HTimeout(h) => MoveHandler(s, h, AtTimeoutPop)
    case HForcePop(h) => ForcePopStep(s, h)
    case HJoined(h) =>
      MoveHandler(s, h, match s.handlers[h].pc
                        case JoinAfterTimeout(_) => AtFailDisconnect
                        case JoinAfterFail(_) => AtSocketClose
                        case _ => Gone)
    case HDisconnect(h) =>
      MoveHandler(s, h, if s.handlers[h].pc.AtFailDisconnect? then AtFailPop else AtUnsubscribe)
      .(registry := Remove(s.registry, s.handlers[h].conversationId, h), mgrLock := None)
    case HSocketClosed(h) => MoveHandler(s, h, Gone)
    case HRunEnds(h) => MoveHandler(s, h, AtDisconnect)
    case HUnsubscribe(h) => UnsubscribeStep(s, h)
  }

  function LoopApply(s: State, step: Step): State
    requires IsLoopStep(step) && LoopEnabled(s, step)
  {
    match step
    case LCheck(l, redisOk) => CheckStep(s, l, redisOk)
    case LSubscribed(l, ok) =>
      if ok then
        SetLoop(s, l, s.loops[l].(pc := MarkingReady, cursor := |Log(s, ConversationOf(s, l))|,
                                  subscribed := s.loops[l].subscribed + 1))
      else MoveLoop(s, l, MarkingNotReady(true))
    case LMarkReady(l) =>
      SetLoop(s, l, s.loops[l].(pc := Rechecking, backoff := INITIAL_BACKOFF, failures := 0, slept := 0))
      .(hub := MarkReady(s.hub, ConversationOf(s, l)), pubLock := None)
    case LRecheck(l) =>
      MoveLoop(s, l, if IsSubscribed(s.hub, ConversationOf(s, l)) then Polling else Closing).(pubLock := None)
    case LPoll(l, answer) => PollStep(s, l, answer)
    case LSnapshot(l, order) => MoveLoop(s, l, AfterSend(s.loops[l].pc.i, order, [])).(mgrLock := None)
    case LWrite(l) => WriteStep(s, l)
    case LSend(l, outcome) => MoveLoop(s, l, AfterOutcome(s.loops[l].pc, outcome))
    case LRemove(l) =>
      MoveLoop(s, l, Rechecking)
      .(registry := RemoveAll(s.registry, ConversationOf(s, l), s.loops[l].pc.failed), mgrLock := None)
    case LMarkNotReady(l) =>
      MoveLoop(s, l, Sleeping(s.loops[l].pc.open))
      .(hub := MarkNotReady(s.hub, ConversationOf(s, l)), pubLock := None)
    case LSlept(l) => SleptStep(s, l)
    case LClosed(l) => MoveLoop(s, l, Checking)
    case LUnwind(l) => UnwindStep(s, l)
  }

  function OtherApply(s: State, step: Step): State
    requires !IsHandlerStep(step) && !IsLoopStep(step) && OtherEnabled(s, step)
  {
    match step
    case Publish(c, p) => s.(logs := s.logs[c := Log(s, c) + [p]])
    case Open(c) => s.(handlers := s.handlers + [Handler(c, AtConnect, [])])
    case CallStart => s.(controls := s.controls + [AtStart])
    case CallStop => s.(controls := s.controls + [AtStop])
    case CloseAll(c) => s.(registry := Close(s.registry, c))
    case TakePub(t) => s.(pubLock := Some(t))
    case TakeMgr(t) => s.(mgrLock := Some(t))
    case CStart(k) => MoveControl(s, k, ControlDone).(hub := Start(s.hub), pubLock := None)
    case CStop(k) => StopStep(s, k)
    case CJoined(k) => MoveControl(s, k, AtStopEnd)
    case CStopEnd(k) => MoveControl(s, k, ControlDone).(hub := StopEnd(s.hub), pubLock := None)
  }

  function Apply(s: State, step: Step): State
    requires Enabled(s, step)
  {
    if IsHandlerStep(step) then HandlerApply(s, step)
    else if IsLoopStep(step) then LoopApply(s, step)
    else OtherApply(s, step)
  }

  // ----- runs -----

  /** The steps can be taken one after another from `s`. */
  predicate Trace(s: State, steps: seq<Step>)
    decreases |steps|
  {
    steps == [] || (Enabled(s, steps[0]) && Trace(Apply(s, steps[0]), steps[1..]))
  }

  function After(s: State, steps: seq<Step>): State
    requires Trace(s, steps)
    decreases |steps|
  {
    if steps == [] then s else After(Apply(s, steps[0]), steps[1..])
  }

  lemma {:induction false} TraceSplits(s: State, first: seq<Step>, rest: seq<Step>)
    requires Trace(s, first + rest)
    ensures Trace(s, first) && Trace(After(s, first), rest)
    ensures After(s, first + rest) == After(After(s, first), rest)
    decreases |first|
  {
    if first == [] {
      assert first + rest == rest;
    } else {
      assert (first + rest)[1..] == first[1..] + rest;
      TraceSplits(Apply(s, first[0]), first[1..], rest);
    }
  }
}
