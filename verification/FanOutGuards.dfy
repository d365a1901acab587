/** Who may change what: the locks around the shared state, the channel of a loop, and the freedom of the
    environment. */
module FanOutGuards {
  import opened Ids
  import opened Frames
  import opened Registry
  import opened Subscriptions
  import opened FanOut
  import opened FanOutInvariant
  import opened FanOutSteps
  import opened FanOutSafety
  import opened FanOutCoverage

  // ----- the pubsub lock -----

  /** The entries, the flags and the `ready` events are the same. */
  ghost predicate SameShared(hub: Hub, hub': Hub) {
    && hub'.subscriptions == hub.subscriptions && hub'.started == hub.started && hub'.stopping == hub.stopping
    && |hub.tasks| <= |hub'.tasks|
    && (forall l :: 0 <= l < |hub.tasks| ==>
          hub'.tasks[l].ready == hub.tasks[l].ready && hub'.tasks[l].wakes == hub.tasks[l].wakes)
  }

  lemma HandlerStepShares(s: State, step: Step)
    requires Enabled(s, step) && IsHandlerStep(step) && s.pubLock != Actor(step)
    ensures SameShared(s.hub, Apply(s, step).hub)
  {
  }

  lemma RedisStepShares(s: State, step: Step)
    requires Enabled(s, step) && IsRedisStep(step) && s.pubLock != Some(LoopTask(step.l))
    ensures SameShared(s.hub, Apply(s, step).hub)
  {
  }

  lemma FailureStepShares(s: State, step: Step)
    requires Enabled(s, step) && IsLoopStep(step) && !IsRedisStep(step) && !step.LUnwind?
    requires s.pubLock != Some(LoopTask(step.l))
    ensures SameShared(s.hub, Apply(s, step).hub)
  {
  }

  lemma LoopStepShares(s: State, step: Step)
    requires Enabled(s, step) && IsLoopStep(step) && s.pubLock != Actor(step)
    ensures SameShared(s.hub, Apply(s, step).hub)
  {
    if step.LUnwind? {
      UnwindShares(s, step.l);
    } else if IsRedisStep(step) {
      RedisStepShares(s, step);
    } else {
      FailureStepShares(s, step);
    }
  }

  lemma UnwindShares(s: State, l: nat)
    requires Enabled(s, LUnwind(l))
    ensures SameShared(s.hub, Apply(s, LUnwind(l)).hub)
  {
  }

  lemma OtherStepShares(s: State, step: Step)
    requires Enabled(s, step) && !IsHandlerStep(step) && !IsLoopStep(step) && s.pubLock != Actor(step)
    ensures SameShared(s.hub, Apply(s, step).hub)
  {
  }

  /** Entries, flags and `ready` events change only in a section of the task that holds the pubsub lock. */
  lemma PubLockGuards(s: State, step: Step)
    requires Enabled(s, step) && !SameShared(s.hub, Apply(s, step).hub)
    ensures Actor(step).Some? && s.pubLock == Actor(step)
  {
    if s.pubLock != Actor(step) {
      if IsHandlerStep(step) {
        HandlerStepShares(s, step);
      } else if IsLoopStep(step) {
        LoopStepShares(s, step);
      } else {
        OtherStepShares(s, step);
      }
    } else if Actor(step) == None {
      UnownedShares(s, step);
    }
  }

  lemma UnownedShares(s: State, step: Step)
    requires Enabled(s, step) && Actor(step) == None
    ensures Apply(s, step).hub == s.hub
  {
  }

  // ----- the manager lock -----

  lemma HandlerStepRegistry(s: State, step: Step, h: nat)
    requires Enabled(s, step) && IsHandlerStep(step) && h < |s.handlers|
    ensures Apply(s, step).registry != s.registry ==> s.mgrLock == Actor(step)
    ensures h in Members(Apply(s, step).registry, s.handlers[h].conversationId) <==>
      step == HConnect(h) || (Registered(s, h) && step != HDisconnect(h))
  {
  }

  lemma LoopStepRegistry(s: State, step: Step, c: Uuid, h: nat)
    requires Enabled(s, step) && IsLoopStep(step)
    ensures Apply(s, step).registry != s.registry ==> s.mgrLock == Actor(step)
    ensures h in Members(Apply(s, step).registry, c) <==>
      h in Members(s.registry, c) &&
      !(step.LRemove? && ConversationOf(s, step.l) == c && h in s.loops[step.l].pc.failed)
  {
    if step.LRemove? {
      RemoveAllMembers(s.registry, ConversationOf(s, step.l), s.loops[step.l].pc.failed);
    }
  }

  lemma OtherStepRegistry(s: State, step: Step, c: Uuid, h: nat)
    requires Enabled(s, step) && !IsHandlerStep(step) && !IsLoopStep(step)
    ensures Apply(s, step).registry != s.registry ==> step.CloseAll? && s.mgrLock == None
    ensures h in Members(Apply(s, step).registry, c) <==> h in Members(s.registry, c) && step != CloseAll(c)
  {
  }

  /** The registry changes only under the manager lock, and a socket joins and leaves it in exactly these steps. */
  lemma RegistryChangesExactly(s: State, step: Step, h: nat)
    requires Enabled(s, step) && h < |s.handlers|
    ensures Apply(s, step).registry != s.registry ==>
      s.mgrLock == Actor(step) && (Actor(step).Some? || step.CloseAll?)
    ensures var c := s.handlers[h].conversationId;
            h in Members(Apply(s, step).registry, c) <==>
              || step == HConnect(h)
              || (&& Registered(s, h) && step != HDisconnect(h) && step != CloseAll(c)
                  && !(step.LRemove? && ConversationOf(s, step.l) == c && h in s.loops[step.l].pc.failed))
  {
    var c := s.handlers[h].conversationId;
    if IsHandlerStep(step) {
      HandlerStepRegistry(s, step, h);
    } else if IsLoopStep(step) {
      LoopStepRegistry(s, step, c, h);
    } else {
      OtherStepRegistry(s, step, c, h);
    }
  }

  /** Connect comes before subscribe, and disconnect before unsubscribe: in its ordinary unsubscribe a handler's own
      socket is not counted any more. */
  lemma UnsubscribeCountsOthers(s: State, h: nat)
    requires Inv(s) && h < |s.handlers| && s.handlers[h].pc.AtUnsubscribe?
    ensures !Registered(s, h)
  {
    NotRegistered(s, h);
  }

  // ----- sections and cancellation -----

  /** Every section runs under the lock it is meant for, its reads included: whether there is an entry is asked under
      the pubsub lock, and sockets are listed and counted under the manager lock. */
  lemma SectionsHoldLocks(s: State, step: Step)
    requires Enabled(s, step)
    ensures step.HSubscribe? || step.HForcePop? || step.HUnsubscribe? || step.CStart? || step.CStop? || step.CStopEnd?
            || step.LCheck? || step.LMarkReady? || step.LRecheck? || step.LMarkNotReady? ==>
      s.pubLock == Actor(step) && Apply(s, step).pubLock == None
    ensures step.HConnect? || step.HDisconnect? || step.HUnsubscribe? || step.LSnapshot? || step.LRemove? ==>
      s.mgrLock == Actor(step) && Apply(s, step).mgrLock == None
  {
    if IsHandlerStep(step) {
      HandlerSectionsHoldLocks(s, step);
    } else if IsLoopStep(step) {
      LoopSectionsHoldLocks(s, step);
    }
  }

  lemma HandlerSectionsHoldLocks(s: State, step: Step)
    requires Enabled(s, step) && IsHandlerStep(step)
    ensures step.HSubscribe? || step.HForcePop? || step.HUnsubscribe? ==>
      s.pubLock == Actor(step) && Apply(s, step).pubLock == None
    ensures step.HConnect? || step.HDisconnect? || step.HUnsubscribe? ==>
      s.mgrLock == Actor(step) && Apply(s, step).mgrLock == None
  {
  }

  lemma LoopSectionsHoldLocks(s: State, step: Step)
    requires Enabled(s, step) && IsLoopStep(step)
    ensures step.LCheck? || step.LMarkReady? || step.LRecheck? || step.LMarkNotReady? ==>
      s.pubLock == Actor(step) && Apply(s, step).pubLock == None
    ensures step.LSnapshot? || step.LRemove? ==> s.mgrLock == Actor(step) && Apply(s, step).mgrLock == None
  {
  }

  /** A cancelled loop runs nothing but its `finally`. */
  lemma CancelledOnlyUnwinds(s: State, step: Step, l: nat)
    requires Enabled(s, step) && Actor(step) == Some(LoopTask(l)) && IsCancelled(s, l)
    ensures step == LUnwind(l)
  {
  }

  // ----- the Redis channel of a loop -----

  /** The loop has a Redis subscription object that is not closed yet. */
  predicate HasChannel(pc: LoopPc) {
    HoldsChannel(pc) || pc.Closing? || pc.Unwinding?
  }

  /** A loop gives its channel up only by closing it, after a failure and after a cancellation alike, and opens
      another only when it has none. */
  lemma ChannelIsClosed(s: State, step: Step)
    requires Enabled(s, step) && IsLoopStep(step)
    ensures var pc, pc' := s.loops[step.l].pc, Apply(s, step).loops[step.l].pc;
            && (HasChannel(pc) && !HasChannel(pc') ==> pc.Closing? || pc.Unwinding?)
            && (!HasChannel(pc) && HasChannel(pc') <==> pc.Checking? && pc'.Subscribing?)
  {
    if IsRedisStep(step) {
      RedisStepChannel(s, step);
    } else if !IsBroadcastStep(step) {
      FailureStepChannel(s, step);
    }
  }

  lemma RedisStepChannel(s: State, step: Step)
    requires Enabled(s, step) && IsRedisStep(step)
    ensures var pc, pc' := s.loops[step.l].pc, Apply(s, step).loops[step.l].pc;
            && (HasChannel(pc) ==> HasChannel(pc'))
            && (!HasChannel(pc) && HasChannel(pc') <==> pc.Checking? && pc'.Subscribing?)
  {
  }

  lemma FailureStepChannel(s: State, step: Step)
    requires Enabled(s, step) && IsLoopStep(step) && !IsRedisStep(step) && !IsBroadcastStep(step)
    ensures var pc, pc' := s.loops[step.l].pc, Apply(s, step).loops[step.l].pc;
            && (HasChannel(pc) && !HasChannel(pc') ==> pc.Closing? || pc.Unwinding?)
            && (HasChannel(pc') ==> HasChannel(pc)) && !pc'.Subscribing?
  {
  }

  /** Every poll is preceded by a check of its own that the subscription still stands, and every subscribe by one. */
  lemma EachRoundIsChecked(s: State, step: Step)
    requires Enabled(s, step) && IsLoopStep(step)
    ensures var pc', subscribed := Apply(s, step).loops[step.l].pc, IsSubscribed(s.hub, ConversationOf(s, step.l));
            && (pc'.Polling? <==> step.LRecheck? && subscribed)
            && (pc'.Subscribing? <==> step.LCheck? && step.redisOk && subscribed)
  {
    if IsRedisStep(step) {
      RedisStepIsChecked(s, step);
    }
  }

  lemma RedisStepIsChecked(s: State, step: Step)
    requires Enabled(s, step) && IsRedisStep(step)
    ensures var pc', subscribed := Apply(s, step).loops[step.l].pc, IsSubscribed(s.hub, ConversationOf(s, step.l));
            && (pc'.Polling? <==> step.LRecheck? && subscribed)
            && (pc'.Subscribing? <==> step.LCheck? && step.redisOk && subscribed)
  {
  }

  // ----- failures -----

  /** Redis or a send has failed the loop. */
  predicate IsFailure(step: Step) {
    match step
    case LCheck(_, redisOk) => !redisOk
    case LSubscribed(_, ok) => !ok
    case LPoll(_, answer) => answer.PollFailed?
    case LSend(_, outcome) => outcome.Crashed?
    case _ => false
  }

  /** Has failed and not slept yet. */
  predicate BacksOff(pc: LoopPc) {
    pc.MarkingNotReady? || pc.Sleeping?
  }

  /** A loop backs off in exactly those failures, and tries again only after its sleep. */
  lemma FailuresBackOff(s: State, step: Step)
    requires Inv(s) && Enabled(s, step) && IsLoopStep(step) && !step.LUnwind?
    ensures var pc, pc' := s.loops[step.l].pc, Apply(s, step).loops[step.l].pc;
            && (BacksOff(pc') <==> IsFailure(step) || (BacksOff(pc) && !step.LSlept?))
            && (step.LSlept? ==> pc.Sleeping?)
  {
    if IsRedisStep(step) {
      RunningLoop(s, step.l);
      RedisFailuresBackOff(s, step);
    } else if IsBroadcastStep(step) {
      SendFailuresBackOff(s, step);
    }
  }

  lemma RedisFailuresBackOff(s: State, step: Step)
    requires Enabled(s, step) && IsRedisStep(step) && IsSubscribed(s.hub, ConversationOf(s, step.l))
    ensures var pc, pc' := s.loops[step.l].pc, Apply(s, step).loops[step.l].pc;
            !BacksOff(pc) && (BacksOff(pc') <==> IsFailure(step))
  {
  }

  lemma SendFailuresBackOff(s: State, step: Step)
    requires Enabled(s, step) && IsBroadcastStep(step)
    ensures var pc, pc' := s.loops[step.l].pc, Apply(s, step).loops[step.l].pc;
            !BacksOff(pc) && (BacksOff(pc') <==> IsFailure(step))
  {
  }

  // ----- the environment -----

  /** Redis may answer a subscribe and a poll in every way, whatever state the rest is in; entries that the
      subscription has not delivered yet may arrive. */
  lemma RedisIsFree(s: State, l: nat)
    requires LoopRuns(s, l)
    ensures s.loops[l].pc.Checking? && s.pubLock == Some(LoopTask(l)) ==>
      Enabled(s, LCheck(l, true)) && Enabled(s, LCheck(l, false))
    ensures s.loops[l].pc.Subscribing? ==> Enabled(s, LSubscribed(l, true)) && Enabled(s, LSubscribed(l, false))
    ensures s.loops[l].pc.Polling? ==>
      && Enabled(s, LPoll(l, Nothing)) && Enabled(s, LPoll(l, PollFailed))
      && (Enabled(s, LPoll(l, Received)) <==> s.loops[l].cursor < |Log(s, ConversationOf(s, l))|)
  {
  }

  /** A send may fail before and after its frame is out; only one that returns normally has it out for certain. */
  lemma SendsAreFree(s: State, l: nat)
    requires AtSend(s, l)
    ensures Enabled(s, LSend(l, Refused)) && Enabled(s, LSend(l, Crashed))
    ensures Enabled(s, LSend(l, Delivered)) <==> s.loops[l].pc.written
    ensures Enabled(s, LWrite(l)) <==> !s.loops[l].pc.written
  {
  }

  /** Clients come and go, time out, wake up and disconnect. */
  lemma ClientsAreFree(s: State, c: Uuid, h: nat)
    requires h < |s.handlers|
    ensures Enabled(s, Open(c))
    ensures s.handlers[h].pc.Awaiting? ==>
      && Enabled(s, HTimeout(h))
      && (Enabled(s, HWake(h)) <==> TaskAt(s.hub, s.handlers[h].pc.l).wakes > s.handlers[h].pc.seen)
    ensures s.handlers[h].pc.Running? ==> Enabled(s, HRunEnds(h))
  {
  }

  /** Anybody publishes, and `start`, `stop`, the close of a conversation and the end of a cancelled loop come at any
      time. */
  lemma CallsAreFree(s: State, c: Uuid, p: Payload, l: nat)
    ensures Enabled(s, Publish(c, p)) && Enabled(s, CallStart) && Enabled(s, CallStop)
    ensures s.mgrLock == None ==> Enabled(s, CloseAll(c))
    ensures l < |s.loops| && IsCancelled(s, l) && !s.loops[l].pc.Finished? ==> Enabled(s, LUnwind(l))
  {
  }
}
