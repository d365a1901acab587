/** The registry class: each method is one operation on the shared map, under the manager lock. */
module ConnectionManagers {
  import opened Ids
  import opened Registry

  // ----- counting -----

  ghost function Tagged(c: Uuid, ws: set<Socket>): set<(Uuid, Socket)> {
    set w | w in ws :: (c, w)
  }

  lemma {:induction false} TaggedCount(c: Uuid, ws: set<Socket>)
    ensures |Tagged(c, ws)| == |ws|
  {
    if ws != {} {
      var v :| v in ws;
      TaggedCount(c, ws - {v});
      assert Tagged(c, ws) == Tagged(c, ws - {v}) + {(c, v)};
    }
  }

  /** One conversation's pairs apart from the others. */
  lemma PairsSplit(reg: Registry, c: Uuid)
    requires c in reg
    ensures |Pairs(reg)| == |reg[c]| + |Pairs(reg - {c})|
  {
    var mine := Tagged(c, reg[c]);
    TaggedCount(c, reg[c]);
    forall d: Uuid, v ensures (d, v) in Pairs(reg) <==> (d, v) in mine + Pairs(reg - {c}) {
      assert (d, v) in Pairs(reg - {c}) <==> d in reg - {c} && v in (reg - {c})[d];
    }
    assert Pairs(reg) == mine + Pairs(reg - {c});
    assert mine !! Pairs(reg - {c});
  }

  // ----- what other tasks do to the registry while a broadcast awaits a socket -----

  datatype RegistryOp = Joined(c: Uuid, w: Socket) | Left(c: Uuid, w: Socket) | Closed(c: Uuid)

  function ApplyOp(reg: Registry, op: RegistryOp): Registry {
    match op
    case Joined(c, w) => Add(reg, c, w)
    case Left(c, w) => Remove(reg, c, w)
    case Closed(c) => Close(reg, c)
  }

  function ApplyOps(reg: Registry, ops: seq<RegistryOp>): Registry
    decreases |ops|
  {
    if ops == [] then reg else ApplyOps(ApplyOp(reg, ops[0]), ops[1..])
  }

  /** `interference[j]` happens while send `j` is awaited; nothing happens past its end. */
  function During(interference: seq<seq<RegistryOp>>, j: nat): seq<RegistryOp> {
    if j < |interference| then interference[j] else []
  }

  /** The registry once the first `n` sends have been awaited. */
  function Interfered(reg: Registry, interference: seq<seq<RegistryOp>>, n: nat): Registry {
    if n == 0 then reg else ApplyOps(Interfered(reg, interference, n - 1), During(interference, n - 1))
  }

  /** The sends made are to the sockets of a list, in its order, up to and including the first uncaught error. */
  predicate TriedInOrder(sockets: seq<Socket>, tries: seq<Try>, answer: Socket -> SendOutcome, raised: bool) {
    && |tries| <= |sockets| && (!raised ==> |tries| == |sockets|) && (raised ==> tries != [])
    && (forall k :: 0 <= k < |tries| ==> tries[k] == Try(sockets[k], answer(sockets[k])))
    && (forall k :: 0 <= k < |tries| ==> (tries[k].outcome.Crashed? <==> raised && k == |tries| - 1))
  }

  lemma CrashesRaise(sockets: seq<Socket>, tries: seq<Try>, answer: Socket -> SendOutcome, raised: bool)
    requires NoDuplicates(sockets) && TriedInOrder(sockets, tries, answer, raised)
    ensures raised <==> exists w :: w in sockets && answer(w).Crashed?
    ensures NoDuplicates(Sockets(tries)) && (forall w :: w in Sockets(tries) ==> w in sockets)
    ensures !raised ==> Sockets(tries) == sockets
  {
    if raised {
      var k := |tries| - 1;
      assert sockets[k] in sockets && answer(sockets[k]).Crashed?;
    } else {
      assert forall w :: w in sockets ==> !answer(w).Crashed?;
    }
  }

  class ConnectionManager {
    var connections: Registry
    /** Every send so far, in order. */
    ghost var sends: seq<Try>

    ghost predicate Valid()
      reads this
    {
      NoEmptySet(connections)
    }

    constructor ()
      ensures Valid() && connections == map[] && sends == []
    {
      connections := map[];
      sends := [];
    }

    method Connect(conversationId: Uuid, websocket: Socket)
      requires Valid()
      modifies this`connections
      ensures Valid()
      ensures connections == Add(old(connections), conversationId, websocket)
      ensures Pairs(connections) == Pairs(old(connections)) + {(conversationId, websocket)}
    {
      AddRefines(connections, conversationId, websocket);
      if conversationId !in connections {
        connections := connections[conversationId := {}];
      }
      connections := connections[conversationId := connections[conversationId] + {websocket}];
    }

    method RemoveConnection(conversationId: Uuid, websocket: Socket)
      requires Valid()
      modifies this`connections
      ensures Valid()
      ensures connections == Remove(old(connections), conversationId, websocket)
      ensures Pairs(connections) == Pairs(old(connections)) - {(conversationId, websocket)}
    {
      RemoveRefines(connections, conversationId, websocket);
      if conversationId !in connections {
        return;
      }
      connections := connections[conversationId := connections[conversationId] - {websocket}];
      if connections[conversationId] == {} {
        connections := connections - {conversationId};
      }
    }

    method Disconnect(conversationId: Uuid, websocket: Socket)
      requires Valid()
      modifies this`connections
      ensures Valid()
      ensures connections == Remove(old(connections), conversationId, websocket)
    {
      RemoveConnection(conversationId, websocket);
    }

    /** The section of `close_conversation_connections` that empties the entry; the closes follow it. */
    method PopConversation(conversationId: Uuid) returns (popped: set<Socket>)
      requires Valid()
      modifies this`connections
      ensures Valid()
      ensures popped == Members(old(connections), conversationId)
      ensures connections == Close(old(connections), conversationId)
      ensures Pairs(connections) == Pairs(old(connections)) - (set w | w in popped :: (conversationId, w))
    {
      CloseRefines(connections, conversationId);
      popped := if conversationId in connections then connections[conversationId] else {};
      connections := connections - {conversationId};
    }

    method ConversationCount(conversationId: Uuid) returns (count: nat)
      ensures count == |Members(connections, conversationId)|
    {
      count := if conversationId in connections then |connections[conversationId]| else 0;
    }

    method ConnectionCount() returns (count: nat)
      ensures count == |Pairs(connections)|
    {
      count := 0;
      var remaining := connections;
      while remaining != map[]
        invariant count + |Pairs(remaining)| == |Pairs(connections)|
        decreases |remaining|
      {
        var c :| c in remaining;
        PairsSplit(remaining, c);
        count := count + |remaining[c]|;
        remaining := remaining - {c};
      }
    }

    /** `list(...)` of one conversation's set: every member once, in some order. */
    method Snapshot(conversationId: Uuid) returns (sockets: seq<Socket>)
      ensures NoDuplicates(sockets)
      ensures (set w | w in sockets) == Members(connections, conversationId)
    {
      var left := if conversationId in connections then connections[conversationId] else {};
      sockets := [];
      while left != {}
        invariant NoDuplicates(sockets)
        invariant (set w | w in sockets) + left == Members(connections, conversationId)
        invariant forall w :: w in sockets ==> w !in left
        decreases left
      {
        var w :| w in left;
        sockets := sockets + [w];
        left := left - {w};
      }
    }

    /** Other tasks at work on the registry while this one awaits a socket. */
    method Interfere(ops: seq<RegistryOp>)
      requires Valid()
      modifies this`connections
      ensures Valid()
      ensures connections == ApplyOps(old(connections), ops)
    {
      for i := 0 to |ops|
        invariant Valid()
        invariant ApplyOps(connections, ops[i..]) == ApplyOps(old(connections), ops)
      {
        assert ops[i..][1..] == ops[i + 1..];
        match ops[i] {
          case Joined(c, w) => Connect(c, w);
          case Left(c, w) => Disconnect(c, w);
          case Closed(c) => var _ := PopConversation(c);
        }
      }
    }

    /** `broadcast_to_conversation`. An uncaught error ends it at once, with nothing removed. */
    method BroadcastToConversation(conversationId: Uuid, answer: Socket -> SendOutcome,
                                   interference: seq<seq<RegistryOp>>)
      returns (tries: seq<Try>, raised: bool)
      requires Valid()
      modifies this
      ensures Valid()
      ensures sends == old(sends) + tries && (forall t :: t in tries ==> t.outcome == answer(t.socket))
      // sockets of the snapshot and no others are tried, none twice; all of them, unless an error escapes
      ensures NoDuplicates(Sockets(tries))
      ensures forall w :: w in Sockets(tries) ==> w in Members(old(connections), conversationId)
      ensures !raised ==> (set w | w in Sockets(tries)) == Members(old(connections), conversationId)
      ensures raised <==> exists w :: w in Members(old(connections), conversationId) && answer(w).Crashed?
      ensures raised ==> tries != [] && tries[|tries| - 1].outcome.Crashed?
      // exactly the refused ones are taken out of whatever the registry has become meanwhile
      ensures var meanwhile := Interfered(old(connections), interference, |tries|);
              var gone := if raised then {} else set w | w in RefusedOf(tries);
              forall d :: Members(connections, d) == Members(meanwhile, d) - if d == conversationId then gone else {}
    {
      var sockets := Snapshot(conversationId);
      assert forall w :: w in sockets <==> w in (set v | v in sockets);
      var failed;
      tries, failed, raised := SendToAll(sockets, answer, interference);
      CrashesRaise(sockets, tries, answer, raised);
      if !raised {
        RemoveFailed(conversationId, failed);
      }
    }

    /** `send_json` on one socket, while other tasks are at work. */
    method Send(websocket: Socket, answer: Socket -> SendOutcome, meanwhile: seq<RegistryOp>) returns (t: Try)
      requires Valid()
      modifies this
      ensures Valid()
      ensures t == Try(websocket, answer(websocket)) && sends == old(sends) + [t]
      ensures connections == ApplyOps(old(connections), meanwhile)
    {
      t := Try(websocket, answer(websocket));
      Interfere(meanwhile);
      sends := sends + [t];
    }

    /** The sends, one awaited after another. */
    method SendToAll(sockets: seq<Socket>, answer: Socket -> SendOutcome, interference: seq<seq<RegistryOp>>)
      returns (tries: seq<Try>, failed: seq<Socket>, raised: bool)
      requires Valid()
      modifies this
      ensures Valid()
      ensures sends == old(sends) + tries && TriedInOrder(sockets, tries, answer, raised)
      ensures failed == RefusedOf(tries)
      ensures connections == Interfered(old(connections), interference, |tries|)
    {
      tries, failed, raised := [], [], false;
      for j := 0 to |sockets|
        invariant Valid()
        invariant |tries| == j && sends == old(sends) + tries && !raised
        invariant forall k :: 0 <= k < j ==>
          tries[k] == Try(sockets[k], answer(sockets[k])) && !tries[k].outcome.Crashed?
        invariant failed == RefusedOf(tries)
        invariant connections == Interfered(old(connections), interference, j)
      {
        var t := Send(sockets[j], answer, During(interference, j));
        TriesSnoc(tries, t);
        tries := tries + [t];
        match t.outcome {
          case Delivered =>
          case Refused => failed := failed + [sockets[j]];
          case Crashed => raised := true; return;
        }
      }
    }

    /** The last section: the failed sockets leave the registry as it is by then. */
    method RemoveFailed(conversationId: Uuid, failed: seq<Socket>)
      requires Valid()
      modifies this`connections
      ensures Valid()
      ensures connections == RemoveAll(old(connections), conversationId, failed)
      ensures forall d ::
        Members(connections, d) ==
        if d == conversationId then Members(old(connections), d) - (set w | w in failed)
        else Members(old(connections), d)
    {
      RemoveAllMembers(connections, conversationId, failed);
      for j := 0 to |failed|
        invariant Valid()
        invariant connections == RemoveAll(old(connections), conversationId, failed[..j])
      {
        assert failed[..j + 1][..j] == failed[..j];
        RemoveConnection(conversationId, failed[j]);
      }
      assert failed[..|failed|] == failed;
    }
  }
}
