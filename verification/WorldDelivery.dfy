/** End to end without gaps: what a client is relayed while nothing on its own path breaks, whatever the rest of the
    deployment does. */
module WorldDelivery {
  import opened Ids
  import opened Frames
  import opened Chat
  import opened World
  import Fan = FanOut
  import FanOutInvariant
  import FanOutSteps
  import FanOutGaps
  import FanOutPaths

  /** What the move does on instance `i`. */
  function StepAt(w: World, move: Move, i: nat): Option<Fan.Step>
    requires move.Answer? ==> move.who in w.services && Awaits(w.services[move.who].flow, move.e)
  {
    match move
    case Boot(_) => None
    case Local(k, step) => if k == i then Some(step) else None
    case Serve(_, _) => None
    case Answer(who, e) =>
      var Service(ctx, f) := w.services[who];
      var effect := FlowNext(ctx, f, e).1;
      if effect.Append? && Held(f).Some? then Some(Fan.Publish(ctx.conversationId, Serialize(effect.frame))) else None
    case Leave(who) => if who.i == i then Some(Fan.HRunEnds(who.h)) else None
  }

  lemma InstanceMoves(w: World, move: Move, i: nat)
    requires Possible(w, move) && i < |w.instances|
    ensures i < |Do(w, move).instances|
    ensures StepAt(w, move, i) == None ==> Do(w, move).instances[i] == w.instances[i]
    ensures StepAt(w, move, i).Some? ==>
      var step := StepAt(w, move, i).value;
      Fan.Enabled(w.instances[i], step) && Do(w, move).instances[i] == Fan.Apply(w.instances[i], step)
  {
  }

  /** If the move touches instance `i`, loop `l` goes on relaying to socket `h`. */
  ghost predicate UnbrokenMove(w: World, move: Move, i: nat, l: nat, h: nat)
    requires Possible(w, move) && i < |w.instances|
  {
    InstanceMoves(w, move, i);
    StepAt(w, move, i).Some? ==> FanOutPaths.Unbroken(w.instances[i], StepAt(w, move, i).value, l, h)
  }

  ghost predicate UnbrokenHistory(w: World, moves: seq<Move>, i: nat, l: nat, h: nat)
    requires History(w, moves) && i < |w.instances|
    decreases |moves|
  {
    moves == [] ||
    (UnbrokenMove(w, moves[0], i, l, h) &&
     (InstanceMoves(w, moves[0], i); UnbrokenHistory(Do(w, moves[0]), moves[1..], i, l, h)))
  }

  /** Loop `l` of instance `i` has been relaying conversation `c` to socket `h` since entry `a`. */
  ghost predicate Follows(w: World, i: nat, l: nat, h: nat, c: Uuid, a: nat, before: seq<nat>) {
    && i < |w.instances| && FanOutGaps.Tracks(w.instances[i], l, h, a, before)
    && w.instances[i].handlers[h].conversationId == c
  }

  lemma MoveFollows(w: World, move: Move, i: nat, l: nat, h: nat, c: Uuid, a: nat, before: seq<nat>)
    requires WorldOk(w) && Possible(w, move) && Follows(w, i, l, h, c, a, before) && UnbrokenMove(w, move, i, l, h)
    ensures Follows(Do(w, move), i, l, h, c, a, before)
  {
    InstanceMoves(w, move, i);
    if StepAt(w, move, i).Some? {
      FanOutGaps.StepTracks(w.instances[i], StepAt(w, move, i).value, l, h, a, before);
      ConversationsPersist(w.instances[i], StepAt(w, move, i).value);
    }
  }

  lemma {:induction false} HistoryFollows(w: World, moves: seq<Move>, i: nat, l: nat, h: nat, c: Uuid, a: nat,
                                          before: seq<nat>)
    requires WorldOk(w) && Follows(w, i, l, h, c, a, before)
    requires History(w, moves) && UnbrokenHistory(w, moves, i, l, h)
    ensures WorldOk(Later(w, moves)) && Follows(Later(w, moves), i, l, h, c, a, before)
    decreases |moves|
  {
    if moves != [] {
      MoveKeeps(w, moves[0]);
      MoveFollows(w, moves[0], i, l, h, c, a, before);
      HistoryFollows(Do(w, moves[0]), moves[1..], i, l, h, c, a, before);
    }
  }

  lemma SnapshotFollows(w: World, i: nat, l: nat, order: seq<nat>, h: nat)
    requires WorldOk(w) && Possible(w, Local(i, Fan.LSnapshot(l, order))) && h in order
    ensures var s, w1 := w.instances[i], Do(w, Local(i, Fan.LSnapshot(l, order)));
            && h < |s.handlers| && s.handlers[h].conversationId == Fan.ConversationOf(s, l)
            && WorldOk(w1) && Follows(w1, i, l, h, Fan.ConversationOf(s, l), s.loops[l].pc.i, s.handlers[h].got)
  {
    var s := w.instances[i];
    MoveKeeps(w, Local(i, Fan.LSnapshot(l, order)));
    FanOutGaps.SnapshotTracks(s, l, order, h);
    ConversationsPersist(s, Fan.LSnapshot(l, order));
  }

  /** Every entry of every log is one that is relayed: only the chat services publish. */
  lemma EverythingIsRelayable(w: World, i: nat, c: Uuid)
    requires WorldOk(w) && i < |w.instances|
    ensures Fan.Log(w.instances[i], c) == ChannelLog(w.logs, ConversationChannel(c))
    ensures forall k: nat :: k < |Fan.Log(w.instances[i], c)| ==>
      FanOutInvariant.Relayable(Fan.Log(w.instances[i], c), k)
  {
    assert Sees(w.instances[i].logs, w.logs);
    assert Fan.LogOf(w.instances[i].logs, c) == ChannelLog(w.logs, ConversationChannel(c));
    forall k: nat | k < |Fan.Log(w.instances[i], c)| ensures FanOutInvariant.Relayable(Fan.Log(w.instances[i], c), k) {
      var _ := EntryAnnounces(w, ConversationChannel(c), k);
    }
  }

  /** After its first `n` frames, socket `h` has got entry `a` and all that follow it up to the one that loop `l` is at
      (the one it broadcasts while the socket's turn is still to come, the next one to read otherwise): nothing else,
      nothing twice, in order, with no gap. */
  predicate HasSegment(s: Fan.State, l: nat, h: nat, c: Uuid, a: nat, n: nat) {
    && l < |s.loops| && h < |s.handlers|
    && var b, got := FanOutInvariant.Bound(s.loops[l], h), s.handlers[h].got;
    && s.loops[l].cursor - 1 <= b <= s.loops[l].cursor <= |Fan.Log(s, c)|
    && a <= b && |got| == n + (b - a) && (forall j :: n <= j < |got| ==> got[j] == a + (j - n))
  }

  /** Every message announced for conversation `c` from entry `a` up to, not including, `b` has been shown. */
  ghost predicate AllShown(w: World, i: nat, h: nat, c: Uuid, a: nat, b: nat, n: nat) {
    forall k, row :: a <= k < b && Announces(w, ConversationChannel(c), k, row) ==> Shown(w, i, h, n + (k - a), row)
  }

  ghost predicate HasAll(w: World, i: nat, l: nat, h: nat, c: Uuid, a: nat, n: nat) {
    && i < |w.instances| && HasSegment(w.instances[i], l, h, c, a, n)
    && Fan.Log(w.instances[i], c) == ChannelLog(w.logs, ConversationChannel(c))
    && AllShown(w, i, h, c, a, FanOutInvariant.Bound(w.instances[i].loops[l], h), n)
  }

  lemma FollowerHasAll(w: World, i: nat, l: nat, h: nat, c: Uuid, a: nat, before: seq<nat>)
    requires WorldOk(w) && Follows(w, i, l, h, c, a, before)
    ensures HasAll(w, i, l, h, c, a, |before|)
  {
    EverythingIsRelayable(w, i, c);
    FollowerHasSegment(w.instances[i], l, h, a, before);
    SegmentIsShown(w, i, l, h, a, |before|);
  }

  lemma FollowerHasSegment(s: Fan.State, l: nat, h: nat, a: nat, before: seq<nat>)
    requires FanOutInvariant.Inv(s) && FanOutGaps.Tracks(s, l, h, a, before)
    requires forall k: nat :: k < |Fan.Log(s, s.handlers[h].conversationId)| ==>
      FanOutInvariant.Relayable(Fan.Log(s, s.handlers[h].conversationId), k)
    ensures HasSegment(s, l, h, s.handlers[h].conversationId, a, |before|)
  {
    FanOutGaps.RelayingBound(s, l, h);
    FanOutSteps.RunningLoop(s, l);
    FollowedIsContiguous(Fan.Log(s, s.handlers[h].conversationId), a, FanOutInvariant.Bound(s.loops[l], h),
                         before, s.handlers[h].got);
  }

  lemma SegmentIsShown(w: World, i: nat, l: nat, h: nat, a: nat, n: nat)
    requires WorldOk(w) && i < |w.instances| && h < |w.instances[i].handlers|
    requires HasSegment(w.instances[i], l, h, w.instances[i].handlers[h].conversationId, a, n)
    ensures var s := w.instances[i];
            AllShown(w, i, h, s.handlers[h].conversationId, a, FanOutInvariant.Bound(s.loops[l], h), n)
  {
    var handler, b := w.instances[i].handlers[h], FanOutInvariant.Bound(w.instances[i].loops[l], h);
    forall k, row | a <= k < b && Announces(w, ConversationChannel(handler.conversationId), k, row)
      ensures Shown(w, i, h, n + (k - a), row)
    {
      assert handler.got[n + (k - a)] == k;
      AnnouncedIsShown(w, i, h, n + (k - a), row);
    }
  }

  lemma AnnouncedIsShown(w: World, i: nat, h: nat, j: nat, row: Row)
    requires WorldOk(w) && i < |w.instances| && h < |w.instances[i].handlers| && j < |w.instances[i].handlers[h].got|
    requires var handler := w.instances[i].handlers[h];
             Announces(w, ConversationChannel(handler.conversationId), handler.got[j], row)
    ensures Shown(w, i, h, j, row)
  {
    EverythingIsRelayable(w, i, w.instances[i].handlers[h].conversationId);
  }

  lemma HistoryHasAll(w: World, moves: seq<Move>, i: nat, l: nat, h: nat, c: Uuid, a: nat, before: seq<nat>)
    requires WorldOk(w) && Follows(w, i, l, h, c, a, before)
    requires History(w, moves) && UnbrokenHistory(w, moves, i, l, h)
    ensures HasAll(Later(w, moves), i, l, h, c, a, |before|)
  {
    HistoryFollows(w, moves, i, l, h, c, a, before);
    FollowerHasAll(Later(w, moves), i, l, h, c, a, before);
  }

  lemma FollowedIsContiguous(log: seq<Payload>, a: nat, b: nat, before: seq<nat>, got: seq<nat>)
    requires a <= b <= |log| && forall k: nat :: k < |log| ==> FanOutInvariant.Relayable(log, k)
    requires got == before + FanOutGaps.RelayableIn(log, a, b)
    ensures |got| == |before| + (b - a)
    ensures forall j :: |before| <= j < |got| ==> got[j] == a + (j - |before|)
  {
    FanOutGaps.AllRelayableIsContiguous(log, a, b);
  }

  /** The first broadcast snapshot that contains the client: the conversation, the entry that is broadcast, and what the
      client has got so far. */
  ghost predicate Joins(w: World, i: nat, l: nat, order: seq<nat>, h: nat, c: Uuid, a: nat, before: seq<nat>) {
    && Possible(w, Local(i, Fan.LSnapshot(l, order))) && h in order
    && c == Fan.ConversationOf(w.instances[i], l) && a == w.instances[i].loops[l].pc.i
    && h < |w.instances[i].handlers| && before == w.instances[i].handlers[h].got
  }

  lemma JoinedFollows(w: World, i: nat, l: nat, order: seq<nat>, h: nat, c: Uuid, a: nat, before: seq<nat>)
    requires WorldOk(w) && Joins(w, i, l, order, h, c, a, before)
    ensures var w1 := Do(w, Local(i, Fan.LSnapshot(l, order))); WorldOk(w1) && Follows(w1, i, l, h, c, a, before)
    ensures w.instances[i].handlers[h].conversationId == c
  {
    SnapshotFollows(w, i, l, order, h);
  }

  /** End to end: from the first broadcast snapshot that contains a client on, however the deployment goes on around
      it, while its own path does not break it is relayed every message announced for its conversation, each once,
      in order and with no gap, up to the one its loop is at. */
  lemma ClientMissesNothing(first: seq<Move>, i: nat, l: nat, order: seq<nat>, h: nat, c: Uuid, a: nat,
                            before: seq<nat>,
                            w1: World, rest: seq<Move>)
    requires History(EMPTY_WORLD, first)
    requires Joins(Later(EMPTY_WORLD, first), i, l, order, h, c, a, before)
    requires w1 == Do(Later(EMPTY_WORLD, first), Local(i, Fan.LSnapshot(l, order))) && i < |w1.instances|
    requires History(w1, rest) && UnbrokenHistory(w1, rest, i, l, h)
    ensures Later(EMPTY_WORLD, first).instances[i].handlers[h].conversationId == c
    ensures HasAll(Later(w1, rest), i, l, h, c, a, |before|)
  {
    HistoryKeeps(EMPTY_WORLD, first);
    JoinedFollows(Later(EMPTY_WORLD, first), i, l, order, h, c, a, before);
    HistoryHasAll(w1, rest, i, l, h, c, a, before);
  }

  /** Loop `l` relays conversation `c` to the client, is at entry `a` as far as the client goes, and the client has got
      `before`. */
  ghost predicate RelaysNow(w: World, i: nat, l: nat, h: nat, c: Uuid, a: nat, before: seq<nat>) {
    && i < |w.instances| && FanOutPaths.RelaysTo(w.instances[i], l, h)
    && c == w.instances[i].handlers[h].conversationId
    && a == FanOutInvariant.Bound(w.instances[i].loops[l], h) && before == w.instances[i].handlers[h].got
  }

  lemma RelaysNowFollows(w: World, i: nat, l: nat, h: nat, c: Uuid, a: nat, before: seq<nat>)
    requires WorldOk(w) && RelaysNow(w, i, l, h, c, a, before)
    ensures Follows(w, i, l, h, c, a, before) && a <= |ChannelLog(w.logs, ConversationChannel(c))|
  {
    FanOutGaps.TracksFromNow(w.instances[i], l, h);
    EverythingIsRelayable(w, i, c);
  }

  /** And from any moment at which a loop relays to a registered client on: whatever is published for its conversation
      after that moment stands at entry `a` or later, and while the path does not break the client is relayed all of
      it. */
  lemma RelayedClientMissesNothing(first: seq<Move>, i: nat, l: nat, h: nat, c: Uuid, a: nat, before: seq<nat>,
                                   rest: seq<Move>)
    requires History(EMPTY_WORLD, first) && RelaysNow(Later(EMPTY_WORLD, first), i, l, h, c, a, before)
    requires History(Later(EMPTY_WORLD, first), rest)
    requires UnbrokenHistory(Later(EMPTY_WORLD, first), rest, i, l, h)
    ensures a <= |ChannelLog(Later(EMPTY_WORLD, first).logs, ConversationChannel(c))|
    ensures HasAll(Later(Later(EMPTY_WORLD, first), rest), i, l, h, c, a, |before|)
  {
    HistoryKeeps(EMPTY_WORLD, first);
    RelaysNowFollows(Later(EMPTY_WORLD, first), i, l, h, c, a, before);
    HistoryHasAll(Later(EMPTY_WORLD, first), rest, i, l, h, c, a, before);
  }
}
