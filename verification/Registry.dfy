/** The connection registry: local sockets by conversation. */
module Registry {
  import opened Ids

  /** A socket is named by the number of the handler that owns it. */
  type Socket = nat

  type Registry = map<Uuid, set<Socket>>

  function Members(reg: Registry, c: Uuid): set<Socket> {
    if c in reg then reg[c] else {}
  }

  function Add(reg: Registry, c: Uuid, w: Socket): Registry {
    reg[c := Members(reg, c) + {w}]
  }

  function Remove(reg: Registry, c: Uuid, w: Socket): Registry {
    if c !in reg then reg
    else if reg[c] - {w} == {} then reg - {c}
    else reg[c := reg[c] - {w}]
  }

  function RemoveAll(reg: Registry, c: Uuid, ws: seq<Socket>): Registry {
    if ws == [] then reg else Remove(RemoveAll(reg, c, ws[..|ws| - 1]), c, ws[|ws| - 1])
  }

  function Close(reg: Registry, c: Uuid): Registry {
    reg - {c}
  }

  predicate NoDuplicates(ws: seq<Socket>) {
    forall i, j :: 0 <= i < j < |ws| ==> ws[i] != ws[j]
  }

  /** No conversation is stored with an empty set. */
  predicate NoEmptySet(reg: Registry) {
    forall c :: c in reg ==> reg[c] != {}
  }

  /** The plain set of pairs that the map of sets stands for. */
  ghost function Pairs(reg: Registry): set<(Uuid, Socket)> {
    set c, w | c in reg && w in reg[c] :: (c, w)
  }

  /** Two registries without empty sets are equal when they stand for the same pairs. */
  lemma PairsDetermine(a: Registry, b: Registry)
    requires NoEmptySet(a) && NoEmptySet(b) && Pairs(a) == Pairs(b)
    ensures a == b
  {
    SamePairsSameKeys(a, b);
    SamePairsSameKeys(b, a);
    forall c | c in a ensures a[c] == b[c] {
      forall w ensures w in a[c] <==> w in b[c] {
        assert (c, w) in Pairs(a) <==> (c, w) in Pairs(b);
      }
    }
  }

  lemma SamePairsSameKeys(a: Registry, b: Registry)
    requires NoEmptySet(a) && Pairs(a) == Pairs(b)
    ensures a.Keys <= b.Keys
  {
    forall c | c in a ensures c in b {
      var w :| w in a[c];
      assert (c, w) in Pairs(a);
      assert (c, w) in Pairs(b);
    }
  }

  lemma AddRefines(reg: Registry, c: Uuid, w: Socket)
    requires NoEmptySet(reg)
    ensures NoEmptySet(Add(reg, c, w)) && Pairs(Add(reg, c, w)) == Pairs(reg) + {(c, w)}
  {
    var after := Add(reg, c, w);
    assert w in after[c];
    forall d: Uuid, v ensures (d, v) in Pairs(after) <==> (d, v) in Pairs(reg) + {(c, w)} {
      assert (d, v) in Pairs(after) <==> d in after && v in after[d];
      assert (d, v) in Pairs(reg) <==> d in reg && v in reg[d];
    }
  }

  lemma RemoveRefines(reg: Registry, c: Uuid, w: Socket)
    requires NoEmptySet(reg)
    ensures NoEmptySet(Remove(reg, c, w)) && Pairs(Remove(reg, c, w)) == Pairs(reg) - {(c, w)}
  {
    var after := Remove(reg, c, w);
    forall d: Uuid, v ensures (d, v) in Pairs(after) <==> (d, v) in Pairs(reg) - {(c, w)} {
      assert (d, v) in Pairs(after) <==> d in after && v in after[d];
      assert (d, v) in Pairs(reg) <==> d in reg && v in reg[d];
      if d == c && c in reg && v in reg[c] && v != w {
        assert v in reg[c] - {w};
      }
    }
  }

  lemma CloseRefines(reg: Registry, c: Uuid)
    requires NoEmptySet(reg)
    ensures NoEmptySet(Close(reg, c))
    ensures Pairs(Close(reg, c)) == Pairs(reg) - (set w | w in Members(reg, c) :: (c, w))
  {
    var gone := set w | w in Members(reg, c) :: (c, w);
    forall d: Uuid, v ensures (d, v) in Pairs(Close(reg, c)) <==> (d, v) in Pairs(reg) - gone {
      assert (d, v) in Pairs(Close(reg, c)) <==> d in Close(reg, c) && v in Close(reg, c)[d];
      assert (d, v) in Pairs(reg) <==> d in reg && v in reg[d];
      assert (d, v) in gone <==> d == c && v in Members(reg, c);
    }
  }

  lemma {:induction false} RemoveAllMembers(reg: Registry, c: Uuid, ws: seq<Socket>)
    ensures forall d ::
      Members(RemoveAll(reg, c, ws), d) == if d == c then Members(reg, c) - (set w | w in ws) else Members(reg, d)
    ensures NoEmptySet(reg) ==> NoEmptySet(RemoveAll(reg, c, ws))
  {
    if ws != [] {
      RemoveAllMembers(reg, c, ws[..|ws| - 1]);
    }
  }

  // ----- the sends of a broadcast -----

  /** How a send returns. A refused send raises one of the caught errors; any other error escapes the broadcast. Either
      way the frame may have been written before. */
  datatype SendOutcome = Delivered | Refused | Crashed

  /** A send that has returned. */
  datatype Try = Try(socket: Socket, outcome: SendOutcome)

  function Sockets(tries: seq<Try>): seq<Socket> {
    seq(|tries|, j requires 0 <= j < |tries| => tries[j].socket)
  }

  /** The sockets whose send was refused: the broadcast's `failed` list. */
  function RefusedOf(tries: seq<Try>): seq<Socket> {
    if tries == [] then []
    else
      var last := tries[|tries| - 1];
      RefusedOf(tries[..|tries| - 1]) + if last.outcome.Refused? then [last.socket] else []
  }

  lemma TriesSnoc(tries: seq<Try>, t: Try)
    ensures Sockets(tries + [t]) == Sockets(tries) + [t.socket]
    ensures RefusedOf(tries + [t]) == RefusedOf(tries) + if t.outcome.Refused? then [t.socket] else []
  {
    assert (tries + [t])[..|tries|] == tries;
  }

  lemma {:induction false} RefusedWereTried(tries: seq<Try>)
    ensures forall w :: w in RefusedOf(tries) ==> w in Sockets(tries)
    ensures forall w :: w in RefusedOf(tries) <==> exists j :: 0 <= j < |tries| && tries[j] == Try(w, Refused)
  {
    if tries != [] {
      var n := |tries| - 1;
      RefusedWereTried(tries[..n]);
      TriesSnoc(tries[..n], tries[n]);
      assert tries == tries[..n] + [tries[n]];
      forall w ensures w in RefusedOf(tries) <==> exists j :: 0 <= j < |tries| && tries[j] == Try(w, Refused) {
        if w in RefusedOf(tries[..n]) {
          var j :| 0 <= j < n && tries[..n][j] == Try(w, Refused);
          assert tries[j] == Try(w, Refused);
        }
        if j :| 0 <= j < |tries| && tries[j] == Try(w, Refused) && j < n {
          assert tries[..n][j] == Try(w, Refused);
        }
      }
    }
  }
}
