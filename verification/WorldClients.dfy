/** Clients side by side: what different clients are shown, and what the message history has of it. */
module WorldClients {
  import opened Ids
  import opened Chat
  import opened World
  import FanOutInvariant
  import Paging
  import WorldQuestions

  /** What is shown is announced under the same frame, where the client has it from. */
  lemma ShownStandsAt(moves: seq<Move>, i: nat, h: nat, j: nat, row: Row) returns (name: string, k: nat)
    requires History(EMPTY_WORLD, moves) && Shown(Later(EMPTY_WORLD, moves), i, h, j, row)
    ensures var w := Later(EMPTY_WORLD, moves);
            var handler := w.instances[i].handlers[h];
            && name == ConversationChannel(handler.conversationId) && k == handler.got[j]
            && Announces(w, name, k, row) && row in w.rows && row.conversationId == handler.conversationId
  {
    HistoryKeeps(EMPTY_WORLD, moves);
    var w := Later(EMPTY_WORLD, moves);
    var r := ShownIsAnnounced(w, i, h, j);
    FrameTellsId(r, row);
    name, k := ConversationChannel(w.instances[i].handlers[h].conversationId), w.instances[i].handlers[h].got[j];
  }

  lemma GotIncreases(moves: seq<Move>, i: nat, h: nat)
    requires History(EMPTY_WORLD, moves)
    ensures var w := Later(EMPTY_WORLD, moves);
            i < |w.instances| && h < |w.instances[i].handlers| ==>
              FanOutInvariant.Increasing(w.instances[i].handlers[h].got)
  {
    HistoryKeeps(EMPTY_WORLD, moves);
    var w := Later(EMPTY_WORLD, moves);
    if i < |w.instances| && h < |w.instances[i].handlers| {
      assert FanOutInvariant.Inv(w.instances[i]);
    }
  }

  lemma IncreasingBothWays(xs: seq<nat>, i: nat, j: nat)
    requires FanOutInvariant.Increasing(xs) && i < |xs| && j < |xs|
    ensures i < j <==> xs[i] < xs[j]
  {
  }

  /** One order for everyone: any two clients, on any instances, that are shown the same two messages are shown them
      in the same order. */
  lemma SameOrderForAll(moves: seq<Move>, a: Row, b: Row,
                        i: nat, h: nat, j1: nat, j2: nat, i': nat, h': nat, k1: nat, k2: nat)
    requires History(EMPTY_WORLD, moves)
    ensures var w := Later(EMPTY_WORLD, moves);
            Shown(w, i, h, j1, a) && Shown(w, i, h, j2, b) && Shown(w, i', h', k1, a) && Shown(w, i', h', k2, b) ==>
              (j1 < j2 <==> k1 < k2)
  {
    var w := Later(EMPTY_WORLD, moves);
    if Shown(w, i, h, j1, a) && Shown(w, i, h, j2, b) && Shown(w, i', h', k1, a) && Shown(w, i', h', k2, b) {
      SameEntry(moves, a, i, h, j1, i', h', k1);
      SameEntry(moves, b, i, h, j2, i', h', k2);
      GotIncreases(moves, i, h);
      GotIncreases(moves, i', h');
      IncreasingBothWays(w.instances[i].handlers[h].got, j1, j2);
      IncreasingBothWays(w.instances[i'].handlers[h'].got, k1, k2);
    }
  }

  /** Two clients have a message from the same log entry. */
  lemma SameEntry(moves: seq<Move>, row: Row, i: nat, h: nat, j: nat, i': nat, h': nat, k: nat)
    requires History(EMPTY_WORLD, moves)
    requires Shown(Later(EMPTY_WORLD, moves), i, h, j, row) && Shown(Later(EMPTY_WORLD, moves), i', h', k, row)
    ensures var w := Later(EMPTY_WORLD, moves); w.instances[i].handlers[h].got[j] == w.instances[i'].handlers[h'].got[k]
  {
    var name, p := ShownStandsAt(moves, i, h, j, row);
    var name', p' := ShownStandsAt(moves, i', h', k, row);
    AnnouncedOnce(moves, name, p, row, name', p', row);
  }

  /** No client is shown a reply before the message that it answers: of the two, the question comes first, and on no
      history can it follow. */
  lemma QuestionShownFirst(moves: seq<Move>, i: nat, h: nat, j: nat, reply: Row, k: nat, question: Row)
    requires History(EMPTY_WORLD, moves)
    ensures var w := Later(EMPTY_WORLD, moves);
            Shown(w, i, h, j, reply) && reply.role == AssistantRole && Shown(w, i, h, k, question)
            && reply.id in w.question && question.id == w.question[reply.id] ==>
              k < j
  {
    var w := Later(EMPTY_WORLD, moves);
    if Shown(w, i, h, j, reply) && reply.role == AssistantRole && Shown(w, i, h, k, question)
      && reply.id in w.question && question.id == w.question[reply.id]
    {
      var name, p := ShownStandsAt(moves, i, h, j, reply);
      var name', p' := ShownStandsAt(moves, i, h, k, question);
      var before, asked := WorldQuestions.QuestionBeforeAnswer(moves, name, p, reply);
      AnnouncedOnce(moves, name, before, asked, name', p', question);
      GotIncreases(moves, i, h);
      IncreasingBothWays(w.instances[i].handlers[h].got, k, j);
    }
  }

  // ----- the history -----

  /** The message table, in some order. */
  function Table(order: seq<Row>): seq<Paging.Stored<Row>> {
    seq(|order|, i requires 0 <= i < |order| => Paging.Stored(order[i].conversationId, order[i]))
  }

  lemma {:induction false} DistinctCounts(xs: seq<Row>, x: Row)
    requires Paging.Distinct(xs)
    ensures multiset(xs)[x] <= 1
  {
    if xs != [] {
      DistinctCounts(xs[1..], x);
      assert xs == [xs[0]] + xs[1..];
    }
  }

  lemma ReorderedIsDistinct(rows: seq<Row>, order: seq<Row>)
    requires Paging.Distinct(rows) && multiset(order) == multiset(rows)
    ensures Paging.Distinct(order)
  {
    forall i, j | 0 <= i < j < |order| ensures order[i] != order[j] {
      DistinctCounts(rows, order[i]);
      assert order == order[..i] + [order[i]] + order[i + 1..j] + [order[j]] + order[j + 1..];
    }
  }

  lemma TableHas(order: seq<Row>, row: Row)
    requires row in order
    ensures Paging.Stored(row.conversationId, row) in Table(order)
  {
    var i :| 0 <= i < |order| && order[i] == row;
    assert Table(order)[i] == Paging.Stored(row.conversationId, row);
  }

  lemma TableDistinct(order: seq<Row>)
    requires Paging.Distinct(order)
    ensures Paging.Distinct(Table(order))
  {
  }

  /** The items of one page of a conversation's listing. */
  function Listed(order: seq<Row>, c: Uuid, page: int, pageSize: int): seq<Row>
    requires page >= 1 && 1 <= pageSize <= 200
  {
    var p := Paging.PaginationParams(page, pageSize);
    Paging.ListConversationMessages(true, Table(order), Table(order), c, p).value.items
  }

  lemma ListedIsPage(order: seq<Row>, c: Uuid, page: int, pageSize: int)
    requires page >= 1 && 1 <= pageSize <= 200
    ensures Listed(order, c, page, pageSize) == Paging.PageOf(Paging.History(Table(order), c), page, pageSize)
  {
    Paging.MulMonotone(0, page - 1, pageSize);
  }

  lemma HistoryOf(order: seq<Row>, row: Row)
    requires Paging.Distinct(order) && row in order
    ensures var history := Paging.History(Table(order), row.conversationId);
            Paging.Distinct(history) && row in history
  {
    TableHas(order, row);
    TableDistinct(order);
    Paging.HistoryMembers(Table(order), row.conversationId);
    Paging.HistoryDistinct(Table(order), row.conversationId);
  }

  lemma CommittedIsListedOnce(rows: seq<Row>, row: Row, order: seq<Row>, pageSize: int) returns (page: int)
    requires RowsOk(rows) && row in rows && multiset(order) == multiset(rows) && 1 <= pageSize <= 200
    ensures page >= 1
    ensures forall p :: p >= 1 ==> (row in Listed(order, row.conversationId, p, pageSize) <==> p == page)
  {
    assert row in multiset(rows);
    ReorderedIsDistinct(rows, order);
    HistoryOf(order, row);
    page := Paging.OnExactlyOnePage(Paging.History(Table(order), row.conversationId), row, pageSize);
    forall p | p >= 1 ensures row in Listed(order, row.conversationId, p, pageSize) <==> p == page {
      ListedIsPage(order, row.conversationId, p, pageSize);
    }
  }

  /** What any client is shown stands on exactly one page of its conversation's listing, for every page size and in
      whatever order the table sorts the committed rows. */
  lemma ShownIsListedOnce(moves: seq<Move>, i: nat, h: nat, j: nat, row: Row, order: seq<Row>, pageSize: int)
    returns (page: int)
    requires History(EMPTY_WORLD, moves) && Shown(Later(EMPTY_WORLD, moves), i, h, j, row)
    requires multiset(order) == multiset(Later(EMPTY_WORLD, moves).rows) && 1 <= pageSize <= 200
    ensures page >= 1
    ensures var c := Later(EMPTY_WORLD, moves).instances[i].handlers[h].conversationId;
            forall p :: p >= 1 ==> (row in Listed(order, c, p, pageSize) <==> p == page)
  {
    var _, _ := ShownStandsAt(moves, i, h, j, row);
    HistoryKeeps(EMPTY_WORLD, moves);
    page := CommittedIsListedOnce(Later(EMPTY_WORLD, moves).rows, row, order, pageSize);
  }
}
