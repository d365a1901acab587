/** One broadcast across every interleaving: from the snapshot of the sockets to the removal of those that failed. */
module FanOutBroadcast {
  import opened Ids
  import opened Registry
  import opened FanOut
  import opened FanOutInvariant
  import opened FanOutSteps
  import FanOutGaps

  function TryOf(s: State, step: Step, l: nat): seq<Try>
    requires Enabled(s, step)
  {
    if step.LSend? && step.l == l then [Try(s.loops[l].pc.todo[0], step.outcome)] else []
  }

  /** The sends of loop `l` that return during the run, in order. */
  function Tries(s: State, steps: seq<Step>, l: nat): seq<Try>
    requires Trace(s, steps)
    decreases |steps|
  {
    if steps == [] then [] else TryOf(s, steps[0], l) + Tries(Apply(s, steps[0]), steps[1..], l)
  }

  predicate Broadcasting(s: State, l: nat) {
    l < |s.loops| && (s.loops[l].pc.Sending? || s.loops[l].pc.Removing?)
  }

  /** Up to its last step the run finds loop `l` inside the broadcast, before its removals. */
  predicate DuringBroadcast(s: State, steps: seq<Step>, l: nat)
    requires Trace(s, steps)
    decreases |steps|
  {
    steps == [] ||
    (Broadcasting(s, l) && steps[0] != LRemove(l) && DuringBroadcast(Apply(s, steps[0]), steps[1..], l))
  }

  /** Where a broadcast of entry `i` to the sockets `order` is, once the sends `tries` have returned. */
  predicate Progress(pc: LoopPc, i: nat, order: seq<Socket>, tries: seq<Try>) {
    match pc
    // the sockets tried so far and those still to come are the snapshot, in its order
    case Sending(j, todo, failed, _) =>
      j == i && Sockets(tries) + todo == order && failed == RefusedOf(tries) && todo != []
    // all of the snapshot has been tried, and somebody or nobody has failed
    case Removing(failed) => Sockets(tries) == order && failed == RefusedOf(tries) && failed != []
    case Rechecking => Sockets(tries) == order && RefusedOf(tries) == []
    // an uncaught error has ended the broadcast early
    case MarkingNotReady(_) => Sockets(tries) <= order && tries != [] && tries[|tries| - 1].outcome.Crashed?
    // or a cancellation
    case Unwinding => Sockets(tries) <= order
    case _ => false
  }

  // ----- steps -----

  lemma SendProgress(pc: LoopPc, i: nat, order: seq<Socket>, tries: seq<Try>, outcome: SendOutcome)
    requires pc.Sending? && Progress(pc, i, order, tries)
    ensures Progress(AfterOutcome(pc, outcome), i, order, tries + [Try(pc.todo[0], outcome)])
  {
    TriesSnoc(tries, Try(pc.todo[0], outcome));
    assert Sockets(tries) + pc.todo == Sockets(tries) + [pc.todo[0]] + pc.todo[1..];
  }

  lemma OwnStepProgress(s: State, step: Step, l: nat, i: nat, order: seq<Socket>, tries: seq<Try>)
    requires Enabled(s, step) && IsLoopStep(step) && step.l == l && step != LRemove(l)
    requires Broadcasting(s, l) && Progress(s.loops[l].pc, i, order, tries)
    ensures l < |Apply(s, step).loops| && Progress(Apply(s, step).loops[l].pc, i, order, tries + TryOf(s, step, l))
  {
    if step.LSend? {
      SendProgress(s.loops[l].pc, i, order, tries, step.outcome);
    } else {
      assert tries + TryOf(s, step, l) == tries;
      assert step.LWrite? || step.LUnwind?;
    }
  }

  lemma OtherStepKeepsLoop(s: State, step: Step, l: nat)
    requires Enabled(s, step) && !IsHandlerStep(step) && !IsLoopStep(step) && l < |s.loops|
    ensures l < |Apply(s, step).loops| && Apply(s, step).loops[l] == s.loops[l]
  {
  }

  lemma StepProgress(s: State, step: Step, l: nat, i: nat, order: seq<Socket>, tries: seq<Try>)
    requires Enabled(s, step) && step != LRemove(l)
    requires Broadcasting(s, l) && Progress(s.loops[l].pc, i, order, tries)
    ensures l < |Apply(s, step).loops| && Progress(Apply(s, step).loops[l].pc, i, order, tries + TryOf(s, step, l))
  {
    if IsLoopStep(step) && step.l == l {
      OwnStepProgress(s, step, l, i, order, tries);
    } else {
      assert tries + TryOf(s, step, l) == tries;
      if IsHandlerStep(step) {
        HandlerStepFootprint(s, step);
      } else if IsLoopStep(step) {
        LoopStepFootprint(s, step);
      } else {
        OtherStepKeepsLoop(s, step, l);
      }
    }
  }

  lemma Associate(a: seq<Try>, b: seq<Try>, c: seq<Try>)
    ensures a + b + c == a + (b + c)
  {
  }

  lemma {:induction false} RunProgress(s: State, steps: seq<Step>, l: nat, i: nat, order: seq<Socket>, tries: seq<Try>)
    requires Trace(s, steps) && DuringBroadcast(s, steps, l)
    requires l < |s.loops| && Progress(s.loops[l].pc, i, order, tries)
    ensures var s' := After(s, steps);
            l < |s'.loops| && Progress(s'.loops[l].pc, i, order, tries + Tries(s, steps, l))
    decreases |steps|
  {
    if steps == [] {
      assert tries + Tries(s, steps, l) == tries;
    } else {
      var s1, more := Apply(s, steps[0]), TryOf(s, steps[0], l);
      StepProgress(s, steps[0], l, i, order, tries);
      RunProgress(s1, steps[1..], l, i, order, tries + more);
      Associate(tries, more, Tries(s1, steps[1..], l));
    }
  }

  // ----- the broadcast -----

  /** From a snapshot on, on every run inside the broadcast: the loop's sends go to the sockets registered at the
      snapshot and to no others, each at most once and in one order; the failed list is exactly the refused sends;
      and a broadcast that comes to its end has tried every one of them. */
  lemma BroadcastTriesEachOnce(s: State, l: nat, order: seq<Socket>, steps: seq<Step>)
    requires Enabled(s, LSnapshot(l, order))
    requires Trace(Apply(s, LSnapshot(l, order)), steps)
    requires DuringBroadcast(Apply(s, LSnapshot(l, order)), steps, l)
    ensures var s1 := Apply(s, LSnapshot(l, order));
            var s', tries := After(s1, steps), Tries(s1, steps, l);
            && NoDuplicates(order) && (set w | w in order) == Members(s.registry, ConversationOf(s, l))
            && l < |s'.loops| && Progress(s'.loops[l].pc, s.loops[l].pc.i, order, tries)
            && Sockets(tries) <= order
  {
    var s1 := Apply(s, LSnapshot(l, order));
    assert Sockets([]) == [];
    RunProgress(s1, steps, l, s.loops[l].pc.i, order, []);
    assert [] + Tries(s1, steps, l) == Tries(s1, steps, l);
  }

  /** The removals that end a broadcast: every socket of the snapshot has been tried, exactly the refused ones leave
      the registry as it is by then, and a socket that was not in the snapshot, having joined since, stays. */
  lemma BroadcastRemovesRefused(s: State, l: nat, order: seq<Socket>, steps: seq<Step>)
    requires Inv(s) && Enabled(s, LSnapshot(l, order))
    requires Trace(Apply(s, LSnapshot(l, order)), steps)
    requires DuringBroadcast(Apply(s, LSnapshot(l, order)), steps, l)
    ensures var s1, c := Apply(s, LSnapshot(l, order)), ConversationOf(s, l);
            var s', tries := After(s1, steps), Tries(s1, steps, l);
            Enabled(s', LRemove(l)) ==>
              && Sockets(tries) == order && Removes(s'.registry, Apply(s', LRemove(l)).registry, c, tries)
  {
    var s1 := Apply(s, LSnapshot(l, order));
    var s', tries := After(s1, steps), Tries(s1, steps, l);
    BroadcastTriesEachOnce(s, l, order, steps);
    SnapshotKeepsConversation(s, l, order, steps);
    if Enabled(s', LRemove(l)) {
      RemovalTakesRefused(s', l, ConversationOf(s, l), tries);
    }
  }

  /** Exactly the refused sockets leave the conversation, and those that were not tried stay. */
  ghost predicate Removes(before: Registry, after: Registry, c: Uuid, tries: seq<Try>) {
    && (forall d :: Members(after, d) ==
          if d == c then Members(before, d) - (set w | w in RefusedOf(tries)) else Members(before, d))
    && (forall w :: w !in Sockets(tries) ==> (w in Members(after, c) <==> w in Members(before, c)))
  }

  lemma SnapshotKeepsConversation(s: State, l: nat, order: seq<Socket>, steps: seq<Step>)
    requires Inv(s) && Enabled(s, LSnapshot(l, order)) && Trace(Apply(s, LSnapshot(l, order)), steps)
    ensures ConversationOf(After(Apply(s, LSnapshot(l, order)), steps), l) == ConversationOf(s, l)
  {
    StepKeeps(s, LSnapshot(l, order));
    FanOutGaps.StepConversation(s, LSnapshot(l, order), l);
    FanOutGaps.SameConversation(Apply(s, LSnapshot(l, order)), steps, l);
  }

  lemma RemovalTakesRefused(s: State, l: nat, c: Uuid, tries: seq<Try>)
    requires Enabled(s, LRemove(l)) && ConversationOf(s, l) == c && s.loops[l].pc.failed == RefusedOf(tries)
    ensures Removes(s.registry, Apply(s, LRemove(l)).registry, c, tries)
  {
    RemoveAllMembers(s.registry, c, RefusedOf(tries));
    RefusedWereTried(tries);
  }
}
