/** The subscription table: what each critical section under the pubsub lock does to it. */
module Subscriptions {
  import opened Ids

  /** One SubscriptionState: its background task and its `ready` event.
      `wakes` counts the calls of `ready.set()`, each of which releases the waiters of that moment. */
  datatype TaskState = TaskState(conversationId: Uuid, ready: bool, wakes: nat, cancelled: bool, done: bool)

  /** Every state ever created, by number; `subscriptions` holds the number of the stored one. */
  datatype Hub = Hub(subscriptions: map<Uuid, nat>, tasks: seq<TaskState>, started: bool, stopping: bool)

  const EMPTY_HUB: Hub := Hub(map[], [], false, false)

  /** A state that exists is looked up by its number; no other number is ever used. */
  function TaskAt(h: Hub, l: nat): TaskState {
    if l < |h.tasks| then h.tasks[l] else TaskState(0, false, 0, true, true)
  }

  // ----- the sections -----

  predicate StoredTaskDone(h: Hub, c: Uuid)
    requires c in h.subscriptions
  {
    TaskAt(h, h.subscriptions[c]).done
  }

  function Subscribe(h: Hub, c: Uuid): Hub {
    if h.stopping then h
    else if c in h.subscriptions && !StoredTaskDone(h, c) then h.(started := true)
    else
      h.(started := true,
         tasks := h.tasks + [TaskState(c, false, 0, false, false)],
         subscriptions := h.subscriptions[c := |h.tasks|])
  }

  function Cancelled(t: TaskState): TaskState {
    if t.done then t else t.(cancelled := true)
  }

  function CancelTasks(tasks: seq<TaskState>, ls: set<nat>): (r: seq<TaskState>)
    ensures |r| == |tasks|
  {
    seq(|tasks|, i requires 0 <= i < |tasks| => if i in ls then Cancelled(tasks[i]) else tasks[i])
  }

  /** Pop and cancel: no suspension point lies between them. */
  function Pop(h: Hub, c: Uuid): Hub {
    if c in h.subscriptions then
      h.(subscriptions := h.subscriptions - {c}, tasks := CancelTasks(h.tasks, {h.subscriptions[c]}))
    else h
  }

  function Start(h: Hub): Hub {
    h.(started := true, stopping := false)
  }

  function Stop(h: Hub): Hub {
    h.(stopping := true, subscriptions := map[], tasks := CancelTasks(h.tasks, h.subscriptions.Values))
  }

  function StopEnd(h: Hub): Hub {
    h.(started := false)
  }

  function MarkReady(h: Hub, c: Uuid): Hub {
    if c in h.subscriptions && h.subscriptions[c] < |h.tasks| then
      var l := h.subscriptions[c];
      h.(tasks := h.tasks[l := h.tasks[l].(ready := true, wakes := h.tasks[l].wakes + 1)])
    else h
  }

  function MarkNotReady(h: Hub, c: Uuid): Hub {
    if c in h.subscriptions && h.subscriptions[c] < |h.tasks| then
      var l := h.subscriptions[c];
      h.(tasks := h.tasks[l := h.tasks[l].(ready := false)])
    else h
  }

  predicate IsSubscribed(h: Hub, c: Uuid) {
    c in h.subscriptions && !h.stopping
  }

  /** The coroutine of task `l` has returned or unwound. */
  function Finish(h: Hub, l: nat): Hub {
    if l < |h.tasks| then h.(tasks := h.tasks[l := h.tasks[l].(done := true)]) else h
  }

  // ----- single owner -----

  /** The stored tasks are exactly the uncancelled ones, each under its own conversation. */
  ghost predicate SingleOwner(h: Hub) {
    && (forall c :: c in h.subscriptions ==> h.subscriptions[c] < |h.tasks|)
    && (forall c :: c in h.subscriptions ==> h.tasks[h.subscriptions[c]].conversationId == c)
    && (forall c :: c in h.subscriptions ==> !h.tasks[h.subscriptions[c]].cancelled)
    && (forall l :: 0 <= l < |h.tasks| && !h.tasks[l].cancelled ==>
          h.tasks[l].conversationId in h.subscriptions && h.subscriptions[h.tasks[l].conversationId] == l)
    && (forall l :: 0 <= l < |h.tasks| && h.tasks[l].done ==> h.tasks[l].cancelled)
    && (h.stopping ==> h.subscriptions == map[])
  }

  lemma SubscribeKeeps(h: Hub, c: Uuid)
    requires SingleOwner(h)
    ensures SingleOwner(Subscribe(h, c))
    ensures !h.stopping ==> c in Subscribe(h, c).subscriptions
    ensures || Subscribe(h, c).tasks == h.tasks
            || Subscribe(h, c).tasks == h.tasks + [TaskState(c, false, 0, false, false)]
  {
  }

  lemma PopKeeps(h: Hub, c: Uuid)
    requires SingleOwner(h)
    ensures SingleOwner(Pop(h, c)) && c !in Pop(h, c).subscriptions
  {
  }

  lemma StopKeeps(h: Hub)
    requires SingleOwner(h)
    ensures SingleOwner(Stop(h))
    ensures forall l :: 0 <= l < |h.tasks| ==> Stop(h).tasks[l].cancelled
  {
    forall l | 0 <= l < |h.tasks| && !h.tasks[l].cancelled ensures Stop(h).tasks[l].cancelled {
      assert l in h.subscriptions.Values;
    }
  }

  lemma StopCancelsStored(h: Hub)
    requires SingleOwner(h)
    ensures forall l :: l in h.subscriptions.Values ==> l < |h.tasks| && Stop(h).tasks[l].cancelled
  {
    StopKeeps(h);
    forall l | l in h.subscriptions.Values ensures l < |h.tasks| {
      var c :| c in h.subscriptions && h.subscriptions[c] == l;
    }
  }

  lemma FinishKeeps(h: Hub, l: nat)
    requires SingleOwner(h) && l < |h.tasks| && h.tasks[l].cancelled
    ensures SingleOwner(Finish(h, l))
  {
  }

  /** A loop that has not been cancelled is the one its conversation stores: it always finds itself
      subscribed, and looking its state up by conversation reaches its own `ready` event and no other. */
  lemma LookupFindsOwnState(h: Hub, l: nat)
    requires SingleOwner(h) && l < |h.tasks| && !h.tasks[l].cancelled
    ensures IsSubscribed(h, h.tasks[l].conversationId) && !h.tasks[l].done
    ensures MarkReady(h, h.tasks[l].conversationId) ==
      h.(tasks := h.tasks[l := h.tasks[l].(ready := true, wakes := h.tasks[l].wakes + 1)])
    ensures MarkNotReady(h, h.tasks[l].conversationId) == h.(tasks := h.tasks[l := h.tasks[l].(ready := false)])
    ensures forall k :: 0 <= k < |h.tasks| && k != l && h.tasks[k].conversationId == h.tasks[l].conversationId ==>
      h.tasks[k].cancelled
  {
  }

  /** The `state.task.done()` branch of a subscribe is never the reason for a new task. */
  lemma StoredTaskIsLive(h: Hub, c: Uuid)
    requires SingleOwner(h) && c in h.subscriptions
    ensures !StoredTaskDone(h, c)
    ensures Subscribe(h, c).tasks == h.tasks
  {
  }
}
