/** What ends the path from a conversation's log to a registered socket, by cause. */
module FanOutPaths {
  import opened Ids
  import opened Registry
  import opened Subscriptions
  import opened FanOut
  import opened FanOutInvariant
  import opened FanOutSteps
  import opened FanOutCoverage

  /** The loop relays to the socket: it is past its `ready` mark, and the socket is registered for its conversation. */
  predicate RelaysTo(s: State, l: nat, h: nat) {
    && LoopRuns(s, l) && Relaying(s.loops[l].pc)
    && Registered(s, h) && s.handlers[h].conversationId == ConversationOf(s, l)
  }

  /** Redis fails while the loop polls it, or a send raises an error that the broadcast does not catch. */
  predicate FailsLoop(step: Step, l: nat) {
    step == LPoll(l, PollFailed) || step == LSend(l, Crashed)
  }

  /** The handler disconnects, the conversation's connections are closed, or the broadcast takes out a socket that
      refused a send. */
  predicate Unregisters(s: State, step: Step, l: nat, h: nat) {
    match step
    case HDisconnect(k) => k == h
    case CloseAll(c) => h < |s.handlers| && c == s.handlers[h].conversationId
    case LRemove(k) => k == l && l < |s.loops| && s.loops[l].pc.Removing? && h in s.loops[l].pc.failed
    case _ => false
  }

  /** What ends the path: a failure, an end of the registration, `stop`, or a forced unsubscribe. */
  predicate Cuts(s: State, step: Step, l: nat, h: nat) {
    || FailsLoop(step, l) || Unregisters(s, step, l, h)
    || (h < |s.handlers| && Uncovers(s, step, s.handlers[h].conversationId))
  }

  /** A send of the loop to the socket does not return normally. */
  predicate SendFails(s: State, step: Step, l: nat, h: nat) {
    step.LSend? && step.l == l && step.outcome != Delivered && AtSend(s, l) && s.loops[l].pc.todo[0] == h
  }

  predicate Unbroken(s: State, step: Step, l: nat, h: nat) {
    !Cuts(s, step, l, h) && !SendFails(s, step, l, h)
  }

  predicate UnbrokenRun(s: State, steps: seq<Step>, l: nat, h: nat)
    requires Trace(s, steps)
    decreases |steps|
  {
    steps == [] || (Unbroken(s, steps[0], l, h) && UnbrokenRun(Apply(s, steps[0]), steps[1..], l, h))
  }

  // ----- the loop's own steps -----

  /** A relaying loop goes on relaying through quiet polls, invalid payloads, empty snapshots, refused sends and
      removals; it stops only in a failure. */
  lemma OwnPollPoint(s: State, l: nat, answer: PollAnswer)
    requires Enabled(s, LPoll(l, answer))
    ensures var s' := Apply(s, LPoll(l, answer));
            (Relaying(s'.loops[l].pc) <==> answer != PollFailed) && s'.hub == s.hub && s'.registry == s.registry
  {
  }

  lemma OwnRecheckPoint(s: State, l: nat)
    requires Inv(s) && Enabled(s, LRecheck(l))
    ensures var s' := Apply(s, LRecheck(l));
            s'.loops[l].pc == Polling && s'.hub == s.hub && s'.registry == s.registry
  {
    RunningLoop(s, l);
  }

  lemma OwnBroadcastPoint(s: State, step: Step)
    requires Enabled(s, step) && IsBroadcastStep(step)
    ensures var s' := Apply(s, step);
            (Relaying(s'.loops[step.l].pc) <==> step != LSend(step.l, Crashed)) && s'.hub == s.hub
    ensures !step.LRemove? ==> Apply(s, step).registry == s.registry
  {
  }

  /** What the removals take out of the registry. */
  lemma OwnRemoval(s: State, l: nat, h: nat)
    requires Enabled(s, LRemove(l)) && h in Members(s.registry, ConversationOf(s, l))
    ensures h in Members(Apply(s, LRemove(l)).registry, ConversationOf(s, l)) <==> h !in s.loops[l].pc.failed
  {
    RemoveAllMembers(s.registry, ConversationOf(s, l), s.loops[l].pc.failed);
  }

  /** The three things that a path consists of, in the next state. */
  lemma PathAfter(s: State, s': State, l: nat, h: nat)
    requires RelaysTo(s, l, h) && l < |s'.loops| && h < |s'.handlers| && ConversationOf(s', l) == ConversationOf(s, l)
    requires s'.handlers[h].conversationId == s.handlers[h].conversationId
    ensures RelaysTo(s', l, h) <==>
      LoopRuns(s', l) && Relaying(s'.loops[l].pc) && h in Members(s'.registry, s.handlers[h].conversationId)
  {
  }

  lemma OwnPollCuts(s: State, step: Step, l: nat, h: nat)
    requires Inv(s) && Enabled(s, step) && step.LPoll? && step.l == l && RelaysTo(s, l, h)
    ensures RelaysTo(Apply(s, step), l, h) <==> !FailsLoop(step, l)
  {
    LoopStepFootprint(s, step);
    PathAfter(s, Apply(s, step), l, h);
    OwnPollPoint(s, l, step.answer);
  }

  lemma OwnRecheckCuts(s: State, step: Step, l: nat, h: nat)
    requires Inv(s) && Enabled(s, step) && step.LRecheck? && step.l == l && RelaysTo(s, l, h)
    ensures RelaysTo(Apply(s, step), l, h)
  {
    LoopStepFootprint(s, step);
    PathAfter(s, Apply(s, step), l, h);
    OwnRecheckPoint(s, l);
  }

  lemma OwnRemoveCuts(s: State, step: Step, l: nat, h: nat)
    requires Inv(s) && Enabled(s, step) && step.LRemove? && step.l == l && RelaysTo(s, l, h)
    ensures RelaysTo(Apply(s, step), l, h) <==> !Unregisters(s, step, l, h)
  {
    LoopStepFootprint(s, step);
    PathAfter(s, Apply(s, step), l, h);
    OwnBroadcastPoint(s, step);
    OwnRemoval(s, l, h);
  }

  lemma OwnSendCuts(s: State, step: Step, l: nat, h: nat)
    requires Inv(s) && Enabled(s, step) && IsBroadcastStep(step) && !step.LRemove? && step.l == l && RelaysTo(s, l, h)
    ensures RelaysTo(Apply(s, step), l, h) <==> !FailsLoop(step, l)
  {
    LoopStepFootprint(s, step);
    PathAfter(s, Apply(s, step), l, h);
    OwnBroadcastPoint(s, step);
  }

  /** What can cut the path in a step of the loop's own. */
  lemma OwnCauses(s: State, step: Step, l: nat, h: nat)
    requires IsLoopStep(step) && step.l == l
    ensures Cuts(s, step, l, h) <==> FailsLoop(step, l) || Unregisters(s, step, l, h)
    ensures Unregisters(s, step, l, h) ==> step.LRemove?
    ensures FailsLoop(step, l) ==> step.LPoll? || step.LSend?
  {
  }

  lemma OwnStepCuts(s: State, step: Step, l: nat, h: nat)
    requires Inv(s) && Enabled(s, step) && IsLoopStep(step) && step.l == l && RelaysTo(s, l, h)
    ensures RelaysTo(Apply(s, step), l, h) <==> !Cuts(s, step, l, h)
  {
    OwnCauses(s, step, l, h);
    RelayingSteps(s, step);
    if step.LPoll? {
      OwnPollCuts(s, step, l, h);
    } else if step.LRecheck? {
      OwnRecheckCuts(s, step, l, h);
    } else if step.LRemove? {
      OwnRemoveCuts(s, step, l, h);
    } else {
      OwnSendCuts(s, step, l, h);
    }
  }

  lemma RelayingSteps(s: State, step: Step)
    requires Enabled(s, step) && IsLoopStep(step) && LoopRuns(s, step.l) && Relaying(s.loops[step.l].pc)
    ensures step.LPoll? || step.LRecheck? || IsBroadcastStep(step)
  {
  }

  // ----- the steps of others -----

  lemma OtherLoopStepCancels(s: State, step: Step, l: nat)
    requires l < |s.loops| == |s.hub.tasks| && Enabled(s, step) && IsLoopStep(step) && step.l != l
    ensures l < |Apply(s, step).hub.tasks|
    ensures Apply(s, step).hub.tasks[l].cancelled == s.hub.tasks[l].cancelled
  {
  }

  lemma OtherLoopStepRemoves(s: State, step: Step, c: Uuid)
    requires Enabled(s, step) && IsLoopStep(step) && (step.LRemove? ==> ConversationOf(s, step.l) != c)
    ensures Members(Apply(s, step).registry, c) == Members(s.registry, c)
  {
    if step.LRemove? {
      RemoveAllMembers(s.registry, ConversationOf(s, step.l), s.loops[step.l].pc.failed);
    }
  }

  /** Another loop that runs has another conversation. */
  lemma OtherLoopStepKeeps(s: State, step: Step, l: nat, h: nat)
    requires Inv(s) && Enabled(s, step) && IsLoopStep(step) && step.l != l && RelaysTo(s, l, h)
    ensures RelaysTo(Apply(s, step), l, h)
  {
    LoopStepFootprint(s, step);
    PathAfter(s, Apply(s, step), l, h);
    OtherLoopStepCancels(s, step, l);
    if step.LRemove? {
      LookupFindsOwnState(s.hub, step.l);
    }
    OtherLoopStepRemoves(s, step, ConversationOf(s, l));
  }

  /** The loop of a stored entry runs on exactly while the entry is there. */
  lemma EntryDecides(s: State, s': State, l: nat, c: Uuid)
    requires SingleOwner(s.hub) && SingleOwner(s'.hub) && l < |s.hub.tasks| && !s.hub.tasks[l].cancelled
    requires c == ConversationOf(s, l) && l < |s'.loops| == |s'.hub.tasks| && ConversationOf(s', l) == c
    requires c in s'.hub.subscriptions ==> s'.hub.subscriptions[c] == s.hub.subscriptions[c]
    ensures LoopRuns(s', l) <==> c in s'.hub.subscriptions
  {
    LookupFindsOwnState(s.hub, l);
    if LoopRuns(s', l) {
      LookupFindsOwnState(s'.hub, l);
    }
  }

  /** No step stores another loop for a conversation that has one. */
  lemma StoredStays(s: State, step: Step, c: Uuid)
    requires SingleOwner(s.hub) && Enabled(s, step) && !IsLoopStep(step) && c in s.hub.subscriptions
    requires c in Apply(s, step).hub.subscriptions
    ensures Apply(s, step).hub.subscriptions[c] == s.hub.subscriptions[c]
  {
    if step.HSubscribe? {
      SubscribeStores(s.hub, s.handlers[step.h].conversationId, c);
    }
  }

  lemma SubscribeStores(hub: Hub, d: Uuid, c: Uuid)
    requires SingleOwner(hub) && c in hub.subscriptions
    ensures c in Subscribe(hub, d).subscriptions && Subscribe(hub, d).subscriptions[c] == hub.subscriptions[c]
  {
    StoredTaskIsLive(hub, c);
  }

  lemma NonLoopStepKeepsLoop(s: State, step: Step, l: nat)
    requires Enabled(s, step) && !IsLoopStep(step) && l < |s.loops| == |s.hub.tasks|
    ensures l < |Apply(s, step).loops| && Apply(s, step).loops[l] == s.loops[l]
    ensures ConversationOf(Apply(s, step), l) == ConversationOf(s, l)
  {
    if IsHandlerStep(step) {
      HandlerStepFootprint(s, step);
    }
  }

  lemma HandlerStepUnregisters(s: State, step: Step, h: nat)
    requires Enabled(s, step) && IsHandlerStep(step) && Registered(s, h)
    ensures h in Members(Apply(s, step).registry, s.handlers[h].conversationId) <==> step != HDisconnect(h)
  {
  }

  lemma OtherStepUnregisters(s: State, step: Step, h: nat)
    requires Enabled(s, step) && !IsHandlerStep(step) && !IsLoopStep(step) && Registered(s, h)
    ensures h in Members(Apply(s, step).registry, s.handlers[h].conversationId) <==>
      step != CloseAll(s.handlers[h].conversationId)
  {
  }

  lemma NonLoopStepPath(s: State, step: Step, l: nat, h: nat)
    requires Inv(s) && Enabled(s, step) && !IsLoopStep(step) && RelaysTo(s, l, h)
    ensures ConversationOf(s, l) in s.hub.subscriptions
    ensures RelaysTo(Apply(s, step), l, h) <==>
      var s', c := Apply(s, step), s.handlers[h].conversationId;
      c in s'.hub.subscriptions && h in Members(s'.registry, c)
  {
    var s', c := Apply(s, step), ConversationOf(s, l);
    StepKeeps(s, step);
    LookupFindsOwnState(s.hub, l);
    NonLoopStepKeepsLoop(s, step, l);
    HandlersPersist(s, step, h);
    if c in s'.hub.subscriptions {
      StoredStays(s, step, c);
    }
    AfterNonLoopStep(s, s', l, h);
  }

  lemma NonLoopStepCuts(s: State, step: Step, l: nat, h: nat)
    requires Inv(s) && Enabled(s, step) && !IsLoopStep(step) && RelaysTo(s, l, h)
    ensures RelaysTo(Apply(s, step), l, h) <==> !Cuts(s, step, l, h)
  {
    NonLoopStepPath(s, step, l, h);
    EntryChangesExactly(s, step, ConversationOf(s, l));
    if IsHandlerStep(step) {
      HandlerStepUnregisters(s, step, h);
    } else {
      OtherStepUnregisters(s, step, h);
    }
    NonLoopCauses(s, step, l, h);
  }

  lemma NonLoopCauses(s: State, step: Step, l: nat, h: nat)
    requires !IsLoopStep(step) && h < |s.handlers|
    ensures var c := s.handlers[h].conversationId;
            Cuts(s, step, l, h) <==> Uncovers(s, step, c) || step == HDisconnect(h) || step == CloseAll(c)
  {
  }

  lemma AfterNonLoopStep(s: State, s': State, l: nat, h: nat)
    requires Inv(s) && Inv(s') && RelaysTo(s, l, h) && l < |s'.loops| && s'.loops[l] == s.loops[l]
    requires ConversationOf(s', l) == ConversationOf(s, l)
    requires h < |s'.handlers| && s'.handlers[h].conversationId == s.handlers[h].conversationId
    requires var c := ConversationOf(s, l);
             && c in s.hub.subscriptions
             && (c in s'.hub.subscriptions ==> s'.hub.subscriptions[c] == s.hub.subscriptions[c])
    ensures RelaysTo(s', l, h) <==>
      var c := s.handlers[h].conversationId;
      c in s'.hub.subscriptions && h in Members(s'.registry, c)
  {
    PathAfter(s, s', l, h);
    EntryDecides(s, s', l, ConversationOf(s, l));
  }

  /** A loop that relays to a socket goes on doing so in every step but those listed, and in none of those. */
  lemma PathEndsExactly(s: State, step: Step, l: nat, h: nat)
    requires Inv(s) && Enabled(s, step) && RelaysTo(s, l, h)
    ensures RelaysTo(Apply(s, step), l, h) <==> !Cuts(s, step, l, h)
  {
    if !IsLoopStep(step) {
      NonLoopStepCuts(s, step, l, h);
    } else if step.l == l {
      OwnStepCuts(s, step, l, h);
    } else {
      OtherLoopStepKeeps(s, step, l, h);
      OthersCutNothing(s, step, l, h);
    }
  }

  lemma OthersCutNothing(s: State, step: Step, l: nat, h: nat)
    requires IsLoopStep(step) && step.l != l
    ensures !Cuts(s, step, l, h)
  {
  }
}
