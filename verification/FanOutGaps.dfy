/** While nothing breaks, a socket is relayed every relayable log entry, with no gap. */
module FanOutGaps {
  import opened Frames
  import opened Registry
  import opened Subscriptions
  import opened FanOut
  import opened FanOutInvariant
  import opened FanOutSteps
  import opened FanOutCoverage
  import opened FanOutPaths

  /** The relayable entries from `a` up to, not including, `b`, in order. */
  function RelayableIn(log: seq<Payload>, a: nat, b: nat): seq<nat>
    decreases b
  {
    if b <= a then []
    else RelayableIn(log, a, b - 1) + if Relayable(log, b - 1) then [b - 1] else []
  }

  lemma {:induction false} RelayableInPrefix(log: seq<Payload>, more: seq<Payload>, a: nat, b: nat)
    requires log <= more && b <= |log|
    ensures RelayableIn(more, a, b) == RelayableIn(log, a, b)
    decreases b
  {
    if a < b {
      RelayableInPrefix(log, more, a, b - 1);
    }
  }

  /** When every frame validates, that is the whole contiguous segment. */
  lemma {:induction false} AllRelayableIsContiguous(log: seq<Payload>, a: nat, b: nat)
    requires a <= b <= |log| && forall i :: a <= i < b ==> Relayable(log, i)
    ensures |RelayableIn(log, a, b)| == b - a
    ensures forall j :: 0 <= j < b - a ==> RelayableIn(log, a, b)[j] == a + j
    decreases b
  {
    if a < b {
      AllRelayableIsContiguous(log, a, b - 1);
    }
  }

  /** Loop `l` has been relaying to socket `h` since entry `a`, where the socket had `before`, and has relayed to it
      every relayable entry up to the one it is at. */
  ghost predicate Tracks(s: State, l: nat, h: nat, a: nat, before: seq<nat>) {
    && RelaysTo(s, l, h)
    && a <= Bound(s.loops[l], h) <= |Log(s, ConversationOf(s, l))|
    && s.handlers[h].got == before + RelayableIn(Log(s, ConversationOf(s, l)), a, Bound(s.loops[l], h))
  }

  /** The loop goes on relaying to the socket, and no send to it fails. */
  predicate StillRelays(s: State, step: Step, l: nat, h: nat)
    requires Enabled(s, step)
  {
    RelaysTo(Apply(s, step), l, h) && !SendFails(s, step, l, h)
  }

  // ----- steps of other tasks -----

  /** Nothing that tracking looks at has changed, except that the log may have grown. */
  ghost predicate Undisturbed(s: State, s': State, l: nat, h: nat)
    requires l < |s.loops| && h < |s.handlers|
  {
    && h < |s'.handlers| && l < |s'.loops| && s'.loops[l] == s.loops[l]
    && s'.handlers[h].got == s.handlers[h].got && s'.handlers[h].conversationId == s.handlers[h].conversationId
    && ConversationOf(s', l) == ConversationOf(s, l)
    && Log(s, ConversationOf(s, l)) <= Log(s', ConversationOf(s, l))
  }

  lemma HandlerStepLeaves(s: State, step: Step, l: nat, h: nat)
    requires l < |s.loops| == |s.hub.tasks| && h < |s.handlers| && Enabled(s, step) && IsHandlerStep(step)
    ensures Undisturbed(s, Apply(s, step), l, h)
  {
    HandlerStepFootprint(s, step);
  }

  lemma OtherStepLeaves(s: State, step: Step, l: nat, h: nat)
    requires l < |s.loops| == |s.hub.tasks| && h < |s.handlers|
    requires Enabled(s, step) && !IsHandlerStep(step) && !IsLoopStep(step)
    ensures Undisturbed(s, Apply(s, step), l, h)
  {
  }

  lemma QuietLoopStepLeaves(s: State, step: Step, l: nat, h: nat)
    requires l < |s.loops| == |s.hub.tasks| && h < |s.handlers|
    requires Enabled(s, step) && IsLoopStep(step) && !step.LWrite? && step.l != l
    ensures Undisturbed(s, Apply(s, step), l, h)
  {
    LoopStepFootprint(s, step);
  }

  /** Another running loop has another conversation, so it writes to other sockets. */
  lemma OtherWriteLeaves(s: State, k: nat, l: nat, h: nat)
    requires Inv(s) && Enabled(s, LWrite(k)) && k != l && LoopRuns(s, l) && h < |s.handlers|
    requires s.handlers[h].conversationId == ConversationOf(s, l)
    ensures Undisturbed(s, Apply(s, LWrite(k)), l, h)
  {
    RunningLoop(s, k);
    LookupFindsOwnState(s.hub, l);
    assert s.loops[k].pc.todo[0] in s.loops[k].pc.todo;
    assert s.loops[k].pc.todo[0] != h;
  }

  lemma OthersLeave(s: State, step: Step, l: nat, h: nat)
    requires Inv(s) && Enabled(s, step) && LoopRuns(s, l) && h < |s.handlers|
    requires s.handlers[h].conversationId == ConversationOf(s, l)
    requires !(IsLoopStep(step) && step.l == l)
    ensures Undisturbed(s, Apply(s, step), l, h)
  {
    if IsHandlerStep(step) {
      HandlerStepLeaves(s, step, l, h);
    } else if !IsLoopStep(step) {
      OtherStepLeaves(s, step, l, h);
    } else if step.LWrite? {
      OtherWriteLeaves(s, step.l, l, h);
    } else {
      QuietLoopStepLeaves(s, step, l, h);
    }
  }

  // ----- steps of the loop -----

  lemma OwnPollTracks(s: State, answer: PollAnswer, l: nat, h: nat, a: nat, before: seq<nat>)
    requires Inv(s) && Enabled(s, LPoll(l, answer))
    requires Tracks(s, l, h, a, before) && StillRelays(s, LPoll(l, answer), l, h)
    ensures Tracks(Apply(s, LPoll(l, answer)), l, h, a, before)
  {
    RunningLoop(s, l);
  }

  lemma OwnSnapshotTracks(s: State, order: seq<Socket>, l: nat, h: nat, a: nat, before: seq<nat>)
    requires Inv(s) && Enabled(s, LSnapshot(l, order))
    requires Tracks(s, l, h, a, before) && StillRelays(s, LSnapshot(l, order), l, h)
    ensures Tracks(Apply(s, LSnapshot(l, order)), l, h, a, before)
  {
    assert h in (set w | w in order);
  }

  /** A write to the socket moves its bound past the entry; a write to another leaves it. */
  lemma OwnWriteTracks(s: State, l: nat, h: nat, a: nat, before: seq<nat>)
    requires Inv(s) && Enabled(s, LWrite(l)) && Tracks(s, l, h, a, before)
    ensures Tracks(Apply(s, LWrite(l)), l, h, a, before)
  {
    RunningLoop(s, l);
    WriteTracks(s, l, h, a, before);
  }

  lemma WriteTracks(s: State, l: nat, h: nat, a: nat, before: seq<nat>)
    requires AtSend(s, l) && !s.loops[l].pc.written && Tracks(s, l, h, a, before)
    requires LoopOk(s.loops[l], ConversationOf(s, l), s.logs, s.handlers)
    ensures Tracks(WriteStep(s, l), l, h, a, before)
  {
    var i, log := s.loops[l].pc.i, Log(s, ConversationOf(s, l));
    WriteMovesBound(s, l, h);
    RelayableSnoc(log, a, i);
  }

  lemma RelayableSnoc(log: seq<Payload>, a: nat, i: nat)
    requires Relayable(log, i)
    ensures RelayableIn(log, a, i + 1) == if a <= i then RelayableIn(log, a, i) + [i] else []
  {
  }

  lemma WriteMovesBound(s: State, l: nat, h: nat)
    requires AtSend(s, l) && !s.loops[l].pc.written && h < |s.handlers|
    ensures var s', i, mine := WriteStep(s, l), s.loops[l].pc.i, s.loops[l].pc.todo[0] == h;
            && s'.handlers[h].got == s.handlers[h].got + (if mine then [i] else [])
            && Bound(s'.loops[l], h) == (if mine then i + 1 else Bound(s.loops[l], h))
            && (mine ==> Bound(s.loops[l], h) == i)
  {
    assert s.loops[l].pc.todo[0] in s.loops[l].pc.todo;
  }

  /** A send that returns without an error has written its frame. */
  lemma OwnSendTracks(s: State, outcome: SendOutcome, l: nat, h: nat, a: nat, before: seq<nat>)
    requires Inv(s) && Enabled(s, LSend(l, outcome))
    requires Tracks(s, l, h, a, before) && StillRelays(s, LSend(l, outcome), l, h)
    ensures Tracks(Apply(s, LSend(l, outcome)), l, h, a, before)
  {
    RunningLoop(s, l);
    var loop := s.loops[l];
    if !outcome.Crashed? {
      AdvanceMovesBound(loop, if outcome.Delivered? then loop.pc.failed else loop.pc.failed + [loop.pc.todo[0]], h);
    }
  }

  lemma OwnOtherTracks(s: State, step: Step, l: nat, h: nat, a: nat, before: seq<nat>)
    requires Inv(s) && Enabled(s, step) && (step == LRecheck(l) || step == LRemove(l))
    requires Tracks(s, l, h, a, before) && StillRelays(s, step, l, h)
    ensures Tracks(Apply(s, step), l, h, a, before)
  {
  }

  lemma OwnStepTracks(s: State, step: Step, l: nat, h: nat, a: nat, before: seq<nat>)
    requires Inv(s) && Enabled(s, step) && IsLoopStep(step) && step.l == l
    requires Tracks(s, l, h, a, before) && StillRelays(s, step, l, h)
    ensures Tracks(Apply(s, step), l, h, a, before)
  {
    if step.LPoll? {
      OwnPollTracks(s, step.answer, l, h, a, before);
    } else if step.LSnapshot? {
      OwnSnapshotTracks(s, step.order, l, h, a, before);
    } else if step.LWrite? {
      OwnWriteTracks(s, l, h, a, before);
    } else if step.LSend? {
      OwnSendTracks(s, step.outcome, l, h, a, before);
    } else {
      OwnOtherTracks(s, step, l, h, a, before);
    }
  }

  lemma StepTracks(s: State, step: Step, l: nat, h: nat, a: nat, before: seq<nat>)
    requires Inv(s) && Enabled(s, step) && Tracks(s, l, h, a, before) && Unbroken(s, step, l, h)
    ensures Tracks(Apply(s, step), l, h, a, before)
  {
    PathEndsExactly(s, step, l, h);
    if IsLoopStep(step) && step.l == l {
      OwnStepTracks(s, step, l, h, a, before);
    } else {
      OthersLeave(s, step, l, h);
      var c, s' := ConversationOf(s, l), Apply(s, step);
      RelayableInPrefix(Log(s, c), Log(s', c), a, Bound(s.loops[l], h));
    }
  }

  lemma {:induction false} RunTracks(s: State, steps: seq<Step>, l: nat, h: nat, a: nat, before: seq<nat>)
    requires Inv(s) && Tracks(s, l, h, a, before) && Trace(s, steps) && UnbrokenRun(s, steps, l, h)
    ensures Tracks(After(s, steps), l, h, a, before)
    decreases |steps|
  {
    if steps != [] {
      StepTracks(s, steps[0], l, h, a, before);
      StepKeeps(s, steps[0]);
      RunTracks(Apply(s, steps[0]), steps[1..], l, h, a, before);
    }
  }

  lemma TracksFromNow(s: State, l: nat, h: nat)
    requires Inv(s) && RelaysTo(s, l, h)
    ensures Tracks(s, l, h, Bound(s.loops[l], h), s.handlers[h].got)
  {
    RunningLoop(s, l);
  }

  /** From any point at which the loop relays to the socket, on every run that does not break, the socket is relayed
      exactly the relayable entries between the two places that the loop is at. */
  lemma NoGapsFromNow(s: State, l: nat, h: nat, steps: seq<Step>)
    requires Inv(s) && RelaysTo(s, l, h) && Trace(s, steps) && UnbrokenRun(s, steps, l, h)
    ensures var c, s' := ConversationOf(s, l), After(s, steps);
            && h < |s'.handlers| && l < |s'.loops|
            && s'.handlers[h].got ==
                 s.handlers[h].got + RelayableIn(Log(s', c), Bound(s.loops[l], h), Bound(s'.loops[l], h))
            && s'.loops[l].cursor - 1 <= Bound(s'.loops[l], h) <= s'.loops[l].cursor
  {
    TracksFromNow(s, l, h);
    RunTracks(s, steps, l, h, Bound(s.loops[l], h), s.handlers[h].got);
    RunKeeps(s, steps);
    RelayingBound(After(s, steps), l, h);
    SameConversation(s, steps, l);
  }

  /** From a broadcast snapshot of entry `i` that contains the socket, on every run that does not break, the socket
      has been relayed exactly the relayable entries from `i` up to the entry the loop is at: the one it broadcasts
      while the socket's turn is still to come, the next one to read otherwise. */
  lemma NoGaps(s: State, l: nat, order: seq<Socket>, h: nat, steps: seq<Step>)
    requires Inv(s) && Enabled(s, LSnapshot(l, order)) && h in order
    requires Trace(Apply(s, LSnapshot(l, order)), steps)
    ensures h < |s.handlers|
    ensures var i, c, s' := s.loops[l].pc.i, ConversationOf(s, l), After(Apply(s, LSnapshot(l, order)), steps);
            UnbrokenRun(Apply(s, LSnapshot(l, order)), steps, l, h) ==>
              && h < |s'.handlers| && l < |s'.loops|
              && s'.handlers[h].got == s.handlers[h].got + RelayableIn(Log(s', c), i, Bound(s'.loops[l], h))
              && s'.loops[l].cursor - 1 <= Bound(s'.loops[l], h) <= s'.loops[l].cursor
  {
    StepKeeps(s, LSnapshot(l, order));
    var s1 := Apply(s, LSnapshot(l, order));
    SnapshotTracks(s, l, order, h);
    if UnbrokenRun(s1, steps, l, h) {
      RunTracks(s1, steps, l, h, s.loops[l].pc.i, s.handlers[h].got);
      RunKeeps(s1, steps);
      RelayingBound(After(s1, steps), l, h);
      SameConversation(s1, steps, l);
    }
  }

  /** Tracking starts at a snapshot. */
  lemma SnapshotTracks(s: State, l: nat, order: seq<Socket>, h: nat)
    requires Inv(s) && Enabled(s, LSnapshot(l, order)) && h in order
    ensures h < |s.handlers| && Tracks(Apply(s, LSnapshot(l, order)), l, h, s.loops[l].pc.i, s.handlers[h].got)
    ensures ConversationOf(Apply(s, LSnapshot(l, order)), l) == ConversationOf(s, l)
  {
    RunningLoop(s, l);
    SnapshotMembers(s, ConversationOf(s, l), order);
    assert h in (set w | w in order);
    assert Registered(s, h);
  }

  lemma RelayingBound(s: State, l: nat, h: nat)
    requires Inv(s) && LoopRuns(s, l) && Relaying(s.loops[l].pc)
    ensures s.loops[l].cursor - 1 <= Bound(s.loops[l], h) <= s.loops[l].cursor
  {
    RunningLoop(s, l);
  }

  lemma {:induction false} SameConversation(s: State, steps: seq<Step>, l: nat)
    requires Inv(s) && Trace(s, steps) && l < |s.loops|
    ensures l < |After(s, steps).loops| && ConversationOf(After(s, steps), l) == ConversationOf(s, l)
    decreases |steps|
  {
    if steps != [] {
      StepKeeps(s, steps[0]);
      StepConversation(s, steps[0], l);
      SameConversation(Apply(s, steps[0]), steps[1..], l);
    }
  }

  lemma LoopStepConversation(s: State, step: Step, l: nat)
    requires Enabled(s, step) && IsLoopStep(step) && l < |s.loops| == |s.hub.tasks|
    ensures l < |Apply(s, step).loops| && ConversationOf(Apply(s, step), l) == ConversationOf(s, l)
  {
    LoopStepFootprint(s, step);
  }

  lemma NonLoopStepConversation(s: State, step: Step, l: nat)
    requires Enabled(s, step) && !IsLoopStep(step) && l < |s.loops| == |s.hub.tasks|
    ensures l < |Apply(s, step).loops| && ConversationOf(Apply(s, step), l) == ConversationOf(s, l)
  {
  }

  lemma StepConversation(s: State, step: Step, l: nat)
    requires Enabled(s, step) && l < |s.loops| == |s.hub.tasks|
    ensures l < |Apply(s, step).loops| && ConversationOf(Apply(s, step), l) == ConversationOf(s, l)
  {
    if IsLoopStep(step) {
      LoopStepConversation(s, step, l);
    } else {
      NonLoopStepConversation(s, step, l);
    }
  }
}
