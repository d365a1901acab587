/** The fan-out class. A Dafny method runs without interleaving, so each critical section of the source is a
    method of its own here; what happens between the sections is the step system of module FanOut. */
module PubSub {
  import opened Ids
  import opened Registry
  import opened ConnectionManagers
  import opened Subscriptions

  class SubscriptionState {
    ghost const id: nat
    const conversationId: Uuid
    var ready: bool
    ghost var wakes: nat
    var cancelled: bool
    var done: bool

    constructor (ghost id: nat, conversationId: Uuid)
      ensures this.id == id && View() == TaskState(conversationId, false, 0, false, false)
    {
      this.id, this.conversationId := id, conversationId;
      ready, wakes, cancelled, done := false, 0, false, false;
    }

    ghost function View(): TaskState
      reads this
    {
      TaskState(conversationId, ready, wakes, cancelled, done)
    }

    /** `task.cancel()`: a finished task stays as it is. */
    method Cancel()
      modifies this
      ensures View() == Cancelled(old(View()))
    {
      if !done {
        cancelled := true;
      }
    }
  }

  ghost function Views(states: seq<SubscriptionState>): (ts: seq<TaskState>)
    reads states
    ensures |ts| == |states|
  {
    seq(|states|, i requires 0 <= i < |states| reads states => states[i].View())
  }

  class RedisWebSocketPubSub {
    const manager: ConnectionManager
    var subscriptions: map<Uuid, SubscriptionState>
    var started: bool
    var stopping: bool
    ghost var created: seq<SubscriptionState>

    ghost predicate Valid()
      reads this, created
    {
      && (forall i :: 0 <= i < |created| ==> created[i].id == i)
      && (forall c :: c in subscriptions ==>
            subscriptions[c].id < |created| && created[subscriptions[c].id] == subscriptions[c])
    }

    ghost function Tasks(): (ts: seq<TaskState>)
      reads this, created
      ensures |ts| == |created|
    {
      Views(created)
    }

    ghost function View(): Hub
      reads this, created
    {
      Hub(map c | c in subscriptions :: subscriptions[c].id, Tasks(), started, stopping)
    }

    constructor (manager: ConnectionManager)
      ensures Valid() && View() == EMPTY_HUB && this.manager == manager && created == []
    {
      this.manager := manager;
      subscriptions := map[];
      started, stopping := false, false;
      created := [];
    }

    method StartSection()
      requires Valid()
      modifies this
      ensures Valid() && View() == Start(old(View())) && created == old(created)
    {
      started := true;
      stopping := false;
    }

    /** The first section of `stop` and the cancellations that follow it. */
    method StopSection()
      requires Valid()
      modifies this, created
      ensures Valid() && View() == Stop(old(View())) && created == old(created)
    {
      ghost var ids := View().subscriptions.Values;
      StoredNumbers();
      stopping := true;
      var states := subscriptions.Values;
      subscriptions := map[];
      CancelStates(states, ids);
      assert View().subscriptions == map[];
    }

    /** The numbers in the view name the stored states. */
    lemma StoredNumbers()
      requires Valid()
      ensures forall i :: 0 <= i < |created| ==>
        (created[i] in subscriptions.Values <==> i in View().subscriptions.Values)
      ensures forall state :: state in subscriptions.Values ==> state in created
    {
      forall i | 0 <= i < |created| && created[i] in subscriptions.Values ensures i in View().subscriptions.Values {
        var c :| c in subscriptions && subscriptions[c] == created[i];
        assert View().subscriptions[c] == i;
      }
      forall i | 0 <= i < |created| && i in View().subscriptions.Values ensures created[i] in subscriptions.Values {
        var c :| c in View().subscriptions && View().subscriptions[c] == i;
        assert subscriptions[c] == created[i];
      }
    }

    /** `ids` are the numbers of the states. */
    method CancelStates(states: set<SubscriptionState>, ghost ids: set<nat>)
      requires forall state :: state in states ==> state in created
      requires forall i :: 0 <= i < |created| ==> (created[i] in states <==> i in ids)
      modifies created
      ensures Tasks() == CancelTasks(old(Tasks()), ids)
      ensures forall i :: 0 <= i < |created| ==>
        created[i].View() == if created[i] in states then Cancelled(old(created[i].View())) else old(created[i].View())
    {
      var left := states;
      while left != {}
        invariant left <= states
        invariant forall i :: 0 <= i < |created| ==>
          created[i].View() ==
          if created[i] in states - left then Cancelled(old(created[i].View())) else old(created[i].View())
        decreases left
      {
        var state :| state in left;
        left := left - {state};
        state.Cancel();
      }
    }

    method StopEndSection()
      requires Valid()
      modifies this
      ensures Valid() && View() == StopEnd(old(View())) && created == old(created)
    {
      started := false;
    }

    /** The locked part of `subscribe_conversation`; null when stopping. */
    method SubscribeSection(conversationId: Uuid) returns (state: SubscriptionState?)
      requires Valid()
      modifies this
      ensures Valid() && View() == Subscribe(old(View()), conversationId)
      ensures created == old(created) || (state != null && fresh(state) && created == old(created) + [state])
      ensures state == null <==> old(stopping)
      ensures state != null ==> conversationId in subscriptions && subscriptions[conversationId] == state
    {
      if stopping {
        return null;
      }
      if !started {
        started := true;
      }
      state := if conversationId in subscriptions then subscriptions[conversationId] else null;
      if state == null || state.done {
        state := CreateState(conversationId);
      }
    }

    /** A new SubscriptionState, stored under its conversation. */
    method CreateState(conversationId: Uuid) returns (state: SubscriptionState)
      requires Valid()
      modifies this
      ensures Valid() && fresh(state) && created == old(created) + [state]
      ensures subscriptions == old(subscriptions)[conversationId := state]
      ensures started == old(started) && stopping == old(stopping)
      ensures Tasks() == old(Tasks()) + [TaskState(conversationId, false, 0, false, false)]
      ensures View().subscriptions == old(View()).subscriptions[conversationId := |old(created)|]
    {
      state := new SubscriptionState(|created|, conversationId);
      created := created + [state];
      subscriptions := subscriptions[conversationId := state];
    }

    /** `unsubscribe_conversation` up to the join; `popped` is the state whose task it then awaits. */
    method UnsubscribeSection(conversationId: Uuid, force: bool) returns (popped: SubscriptionState?)
      requires Valid()
      modifies this, created
      ensures Valid() && created == old(created)
      ensures var keep := !force && |Members(manager.connections, conversationId)| > 0;
              && View() == (if keep then old(View()) else Pop(old(View()), conversationId))
              && (popped != null <==> !keep && conversationId in old(subscriptions))
              && (popped != null ==> popped == old(subscriptions)[conversationId])
    {
      popped := null;
      if !force {
        var count := manager.ConversationCount(conversationId);
        if count > 0 {
          return;
        }
      }
      popped := PopAndCancel(conversationId);
    }

    method PopAndCancel(conversationId: Uuid) returns (popped: SubscriptionState?)
      requires Valid()
      modifies this, created
      ensures Valid() && created == old(created)
      ensures View() == Pop(old(View()), conversationId)
      ensures popped == if conversationId in old(subscriptions) then old(subscriptions)[conversationId] else null
    {
      if conversationId !in subscriptions {
        popped := null;
        return;
      }
      popped := TakeState(conversationId);
      CancelState(popped);
    }

    /** The pop itself. */
    method TakeState(conversationId: Uuid) returns (state: SubscriptionState)
      requires Valid() && conversationId in subscriptions
      modifies this`subscriptions
      ensures Valid() && state == old(subscriptions)[conversationId]
      ensures state.id < |created| && created[state.id] == state
      ensures state.id == old(View()).subscriptions[conversationId]
      ensures View() == old(View()).(subscriptions := old(View()).subscriptions - {conversationId})
    {
      state := subscriptions[conversationId];
      subscriptions := subscriptions - {conversationId};
      assert View().subscriptions == old(View()).subscriptions - {conversationId};
    }

    method CancelState(state: SubscriptionState)
      requires Valid() && state.id < |created| && created[state.id] == state
      modifies created
      ensures Tasks() == CancelTasks(old(Tasks()), {state.id})
    {
      state.Cancel();
    }

    method MarkReadySection(conversationId: Uuid)
      requires Valid()
      modifies this, created
      ensures Valid() && View() == MarkReady(old(View()), conversationId) && created == old(created)
    {
      ghost var before := Tasks();
      if conversationId in subscriptions {
        var state := subscriptions[conversationId];
        state.ready := true;
        state.wakes := state.wakes + 1;
        assert Tasks() == before[state.id := before[state.id].(ready := true, wakes := before[state.id].wakes + 1)];
      }
    }

    method MarkNotReadySection(conversationId: Uuid)
      requires Valid()
      modifies this, created
      ensures Valid() && View() == MarkNotReady(old(View()), conversationId) && created == old(created)
    {
      ghost var before := Tasks();
      if conversationId in subscriptions {
        var state := subscriptions[conversationId];
        state.ready := false;
        assert Tasks() == before[state.id := before[state.id].(ready := false)];
      }
    }

    method IsSubscribedSection(conversationId: Uuid) returns (subscribed: bool)
      requires Valid()
      ensures subscribed == IsSubscribed(View(), conversationId)
    {
      subscribed := conversationId in subscriptions && !stopping;
    }

    method ActiveSubscriptionCount() returns (count: nat)
      requires Valid()
      ensures count == |View().subscriptions|
    {
      count := |subscriptions|;
      assert View().subscriptions.Keys == subscriptions.Keys;
    }
  }
}
