/** Every announced reply answers a user message announced before it, and no two replies answer the same one. */
module WorldQuestions {
  import opened Ids
  import opened Frames
  import opened Chat
  import opened World

  /** The user row with id `q` stands on the channel, and `reply` is the reply to its text. */
  ghost predicate Asks(origin: map<string, seq<Row>>, place: map<Uuid, (string, nat)>, q: Uuid, name: string,
                       reply: string) {
    && q in place && place[q].0 == name && place[q].1 < |OriginLog(origin, name)|
    && var user := OriginLog(origin, name)[place[q].1];
    user.id == q && user.role == UserRole && reply == MockAssistantReply(user.content)
  }

  /** No two replies have the same question, and questions and replies have been announced. */
  ghost predicate Injective(question: map<Uuid, Uuid>, place: map<Uuid, (string, nat)>) {
    && (forall a :: a in question ==> a in place && question[a] in place)
    && (forall a, b :: a in question && b in question && question[a] == question[b] ==> a == b)
  }

  /** Each announced reply has a question that stands before it on the same channel. */
  ghost predicate Answered(origin: map<string, seq<Row>>, place: map<Uuid, (string, nat)>, question: map<Uuid, Uuid>,
                           name: string, j: nat)
    requires j < |OriginLog(origin, name)|
  {
    var row := OriginLog(origin, name)[j];
    row.role == AssistantRole ==>
      row.id in question && Asks(origin, place, question[row.id], name, row.content) && place[question[row.id]].1 < j
  }

  ghost predicate RepliesOk(origin: map<string, seq<Row>>, place: map<Uuid, (string, nat)>, question: map<Uuid, Uuid>) {
    forall name, j {:trigger Answered(origin, place, question, name, j)} ::
      0 <= j < |OriginLog(origin, name)| ==> Answered(origin, place, question, name, j)
  }

  predicate InReply(f: Flow) {
    f.PersistingReply? || f.PublishingReply?
  }

  /** The text of the reply under way. */
  function ReplyText(f: Flow): string
    requires InReply(f)
  {
    if f.PersistingReply? then MockAssistantReply(f.content) else f.row.content
  }

  /** A service that is replying answers the message it has announced, which nobody has answered yet. */
  ghost predicate AskingOk(who: Handle, service: Service, origin: map<string, seq<Row>>,
                           place: map<Uuid, (string, nat)>,
                           asking: map<Handle, Uuid>, question: map<Uuid, Uuid>) {
    InReply(service.flow) ==>
      var q := AskedBy(asking, who);
      && Asks(origin, place, q, ConversationChannel(service.ctx.conversationId), ReplyText(service.flow))
      && (forall a :: a in question ==> question[a] != q)
  }

  ghost predicate AskersOk(services: map<Handle, Service>, origin: map<string, seq<Row>>,
                           place: map<Uuid, (string, nat)>,
                           asking: map<Handle, Uuid>, question: map<Uuid, Uuid>) {
    && (forall who :: who in services ==> AskingOk(who, services[who], origin, place, asking, question))
    && (forall a, b :: a in services && b in services && a != b
                       && InReply(services[a].flow) && InReply(services[b].flow) ==>
          AskedBy(asking, a) != AskedBy(asking, b))
  }

  ghost predicate QuestionsOk(w: World) {
    && Injective(w.question, w.place)
    && RepliesOk(w.origin, w.place, w.question)
    && AskersOk(w.services, w.origin, w.place, w.asking, w.question)
  }

  // ----- moves that announce nothing -----

  /** A service goes on with the same reply, or with none. */
  lemma AskersKeep(services: map<Handle, Service>, who: Handle, service: Service, origin: map<string, seq<Row>>,
                   place: map<Uuid, (string, nat)>, asking: map<Handle, Uuid>, question: map<Uuid, Uuid>)
    requires AskersOk(services, origin, place, asking, question)
    requires InReply(service.flow) ==>
      && who in services && services[who].ctx == service.ctx
      && InReply(services[who].flow) && ReplyText(services[who].flow) == ReplyText(service.flow)
    ensures AskersOk(services[who := service], origin, place, asking, question)
  {
    if InReply(service.flow) {
      assert AskingOk(who, services[who], origin, place, asking, question);
    }
  }

  lemma QuietQuestions(w: World, who: Handle, service: Service, rows: seq<Row>)
    requires QuestionsOk(w)
    requires InReply(service.flow) ==>
      && who in w.services && w.services[who].ctx == service.ctx
      && InReply(w.services[who].flow) && ReplyText(w.services[who].flow) == ReplyText(service.flow)
    ensures QuestionsOk(w.(rows := rows, services := w.services[who := service]))
  {
    AskersKeep(w.services, who, service, w.origin, w.place, w.asking, w.question);
  }

  // ----- announcements -----

  /** The logs have grown, and what stands in them has kept its place. */
  ghost predicate Extends(origin: map<string, seq<Row>>, origin': map<string, seq<Row>>,
                          place: map<Uuid, (string, nat)>, place': map<Uuid, (string, nat)>) {
    && (forall name :: OriginLog(origin, name) <= OriginLog(origin', name))
    && (forall id :: id in place ==> id in place' && place'[id] == place[id])
  }

  lemma AsksStays(origin: map<string, seq<Row>>, origin': map<string, seq<Row>>, place: map<Uuid, (string, nat)>,
                  place': map<Uuid, (string, nat)>, q: Uuid, name: string, reply: string)
    requires Asks(origin, place, q, name, reply) && Extends(origin, origin', place, place')
    ensures Asks(origin', place', q, name, reply) && place'[q] == place[q]
  {
    assert OriginLog(origin, name) <= OriginLog(origin', name);
  }

  /** One row more on one channel; all that was answered stays answered. */
  lemma RepliesKeep(origin: map<string, seq<Row>>, place: map<Uuid, (string, nat)>, question: map<Uuid, Uuid>,
                    name: string, row: Row,
                    place': map<Uuid, (string, nat)>, question': map<Uuid, Uuid>)
    requires RepliesOk(origin, place, question)
    requires Extends(origin, origin[name := OriginLog(origin, name) + [row]], place, place')
    requires forall a :: a in question ==> a in question' && question'[a] == question[a]
    requires row.role == AssistantRole ==>
      row.id in question' && Asks(origin, place, question'[row.id], name, row.content)
    ensures RepliesOk(origin[name := OriginLog(origin, name) + [row]], place', question')
  {
    var origin' := origin[name := OriginLog(origin, name) + [row]];
    forall n, j | 0 <= j < |OriginLog(origin', n)| ensures Answered(origin', place', question', n, j) {
      if j < |OriginLog(origin, n)| {
        assert OriginLog(origin, n) <= OriginLog(origin', n);
        assert Answered(origin, place, question, n, j);
        var before := OriginLog(origin, n)[j];
        if before.role == AssistantRole {
          AsksStays(origin, origin', place, place', question[before.id], n, before.content);
        }
      } else if row.role == AssistantRole {
        AsksStays(origin, origin', place, place', question'[row.id], name, row.content);
      }
    }
  }

  /** A service other than the announcing one. */
  lemma OtherAskerKeeps(a: Handle, service: Service, origin: map<string, seq<Row>>, origin': map<string, seq<Row>>,
                        place: map<Uuid, (string, nat)>, place': map<Uuid, (string, nat)>,
                        asking: map<Handle, Uuid>, asking': map<Handle, Uuid>,
                        question: map<Uuid, Uuid>, question': map<Uuid, Uuid>)
    requires AskingOk(a, service, origin, place, asking, question) && Extends(origin, origin', place, place')
    requires AskedBy(asking', a) == AskedBy(asking, a)
    requires InReply(service.flow) ==>
      forall b :: b in question' && b !in question ==> question'[b] != AskedBy(asking, a)
    requires forall b :: b in question && b in question' ==> question'[b] == question[b]
    ensures AskingOk(a, service, origin', place', asking', question')
  {
    if InReply(service.flow) {
      var name := ConversationChannel(service.ctx.conversationId);
      AsksStays(origin, origin', place, place', AskedBy(asking, a), name, ReplyText(service.flow));
    }
  }

  /** Announcing a user message: a new question, which nobody has answered. */
  lemma UserAskersKeep(services: map<Handle, Service>, who: Handle, service: Service, origin: map<string, seq<Row>>,
                       place: map<Uuid, (string, nat)>, asking: map<Handle, Uuid>, question: map<Uuid, Uuid>, row: Row)
    requires AskersOk(services, origin, place, asking, question) && Injective(question, place)
    requires row.role == UserRole && row.id !in place
    requires service.flow.PersistingReply? ==> row.content == service.flow.content
    requires !service.flow.PublishingReply?
    ensures var name := ConversationChannel(service.ctx.conversationId);
            AskersOk(services[who := service], origin[name := OriginLog(origin, name) + [row]],
                     place[row.id := (name, |OriginLog(origin, name)|)], asking[who := row.id], question)
  {
    var name := ConversationChannel(service.ctx.conversationId);
    var origin' := origin[name := OriginLog(origin, name) + [row]];
    var place' := place[row.id := (name, |OriginLog(origin, name)|)];
    var asking', services' := asking[who := row.id], services[who := service];
    assert OriginLog(origin', name)[|OriginLog(origin, name)|] == row;
    forall a | a in services' ensures AskingOk(a, services'[a], origin', place', asking', question) {
      if a != who {
        OtherAskerKeeps(a, services[a], origin, origin', place, place', asking, asking', question, question);
      }
    }
    forall a | a in services && InReply(services[a].flow) ensures AskedBy(asking, a) in place {
      assert AskingOk(a, services[a], origin, place, asking, question);
    }
  }

  /** Announcing a reply: its question is answered now, and the service asks no more. */
  lemma ReplyAskersKeep(services: map<Handle, Service>, who: Handle, service: Service, origin: map<string, seq<Row>>,
                        place: map<Uuid, (string, nat)>, asking: map<Handle, Uuid>, question: map<Uuid, Uuid>, row: Row)
    requires AskersOk(services, origin, place, asking, question) && Injective(question, place)
    requires who in services && InReply(services[who].flow) && !InReply(service.flow) && row.id !in place
    ensures var name := ConversationChannel(service.ctx.conversationId);
            AskersOk(services[who := service], origin[name := OriginLog(origin, name) + [row]],
                     place[row.id := (name, |OriginLog(origin, name)|)], asking,
                     question[row.id := AskedBy(asking, who)])
  {
    var name := ConversationChannel(service.ctx.conversationId);
    var origin' := origin[name := OriginLog(origin, name) + [row]];
    var place' := place[row.id := (name, |OriginLog(origin, name)|)];
    var question', services' := question[row.id := AskedBy(asking, who)], services[who := service];
    forall a | a in services' ensures AskingOk(a, services'[a], origin', place', asking, question') {
      if a != who {
        assert AskingOk(a, services[a], origin, place, asking, question);
        OtherAskerKeeps(a, services[a], origin, origin', place, place', asking, asking, question, question');
      }
    }
  }

  lemma UserAnnounced(w: World, who: Handle, row: Row, next: Flow)
    requires QuestionsOk(w) && who in w.services && row.role == UserRole && row.id !in w.place
    requires next.PersistingReply? ==> row.content == next.content
    requires !next.PublishingReply?
    ensures QuestionsOk(PublishEffect(w, who, w.services[who].ctx, row, FrameOf(row))
                        .(services := w.services[who := Service(w.services[who].ctx, next)]))
  {
    var ctx := w.services[who].ctx;
    var name := ConversationChannel(ctx.conversationId);
    UserAskersKeep(w.services, who, Service(ctx, next), w.origin, w.place, w.asking, w.question, row);
    RepliesKeep(w.origin, w.place, w.question, name, row, w.place[row.id := (name, |OriginLog(w.origin, name)|)],
                w.question);
  }

  lemma ReplyAnnounced(w: World, who: Handle, row: Row, next: Flow)
    requires QuestionsOk(w) && who in w.services && row.role == AssistantRole && row.id !in w.place
    requires w.services[who].flow.PublishingReply? && w.services[who].flow.row == row && !InReply(next)
    ensures QuestionsOk(PublishEffect(w, who, w.services[who].ctx, row, FrameOf(row))
                        .(services := w.services[who := Service(w.services[who].ctx, next)]))
  {
    var ctx, q := w.services[who].ctx, AskedBy(w.asking, who);
    var name := ConversationChannel(ctx.conversationId);
    assert AskingOk(who, w.services[who], w.origin, w.place, w.asking, w.question);
    ReplyAskersKeep(w.services, who, Service(ctx, next), w.origin, w.place, w.asking, w.question, row);
    RepliesKeep(w.origin, w.place, w.question, name, row, w.place[row.id := (name, |OriginLog(w.origin, name)|)],
                w.question[row.id := q]);
  }

  // ----- all moves, all histories -----

  /** How an answer moves a reply along. */
  lemma ReplyMoves(ctx: Context, f: Flow, e: Event)
    requires FlowOk(ctx, f) && Awaits(f, e)
    ensures var (next, effect) := FlowNext(ctx, f, e);
            if effect.Append? then
              && (f.PublishingUser? || f.PublishingReply?) && !next.PublishingReply?
              && (f.PublishingUser? ==>
                    f.row.role == UserRole && (next.PersistingReply? ==> f.row.content == next.content))
              && (f.PublishingReply? ==> f.row.role == AssistantRole && !InReply(next))
            else InReply(next) ==> InReply(f) && ReplyText(f) == ReplyText(next)
  {
  }

  lemma AnswerQuestions(w: World, who: Handle, e: Event)
    requires WorldOk(w) && QuestionsOk(w) && Possible(w, Answer(who, e))
    ensures QuestionsOk(Do(w, Answer(who, e)))
  {
    var ctx, f := w.services[who].ctx, w.services[who].flow;
    var next, effect := FlowNext(ctx, f, e).0, FlowNext(ctx, f, e).1;
    assert ServiceOk(w.services[who], w.rows, w.place);
    FlowNextShape(ctx, f, e);
    ReplyMoves(ctx, f, e);
    if effect.Append? {
      if f.PublishingUser? {
        UserAnnounced(w, who, f.row, next);
      } else {
        ReplyAnnounced(w, who, f.row, next);
      }
    } else {
      QuietQuestions(w, who, Service(ctx, next), if effect.Insert? then w.rows + [effect.row] else w.rows);
    }
  }

  lemma MoveQuestions(w: World, move: Move)
    requires WorldOk(w) && QuestionsOk(w) && Possible(w, move)
    ensures QuestionsOk(Do(w, move))
  {
    if move.Answer? {
      AnswerQuestions(w, move.who, move.e);
    } else if move.Serve? {
      var service := Do(w, move).services[move.who];
      QuietQuestions(w, move.who, service, w.rows);
    }
  }

  lemma {:induction false} HistoryQuestions(w: World, moves: seq<Move>)
    requires WorldOk(w) && QuestionsOk(w) && History(w, moves)
    ensures WorldOk(Later(w, moves)) && QuestionsOk(Later(w, moves))
    decreases |moves|
  {
    if moves != [] {
      MoveKeeps(w, moves[0]);
      MoveQuestions(w, moves[0]);
      HistoryQuestions(Do(w, moves[0]), moves[1..]);
    }
  }

  // ----- the results -----

  /** Question before answer: an announced assistant row has been preceded, on the same channel, by a committed user
      row that it replies to, the one that the history records as its question. */
  lemma QuestionBeforeAnswer(moves: seq<Move>, name: string, j: nat, answer: Row) returns (k: nat, question: Row)
    requires History(EMPTY_WORLD, moves)
    requires Announces(Later(EMPTY_WORLD, moves), name, j, answer) && answer.role == AssistantRole
    ensures var w := Later(EMPTY_WORLD, moves);
            && answer.id in w.question && question.id == w.question[answer.id]
            && k < j && question in w.rows && Announces(w, name, k, question)
            && question.role == UserRole && question.conversationId == answer.conversationId
            && answer.content == MockAssistantReply(question.content)
  {
    HistoryQuestions(EMPTY_WORLD, moves);
    var w := Later(EMPTY_WORLD, moves);
    var r := EntryAnnounces(w, name, j);
    FrameTellsId(r, answer);
    assert Answered(w.origin, w.place, w.question, name, j);
    k := w.place[w.question[answer.id]].1;
    question := EntryAnnounces(w, name, k);
    ChannelInjective(question.conversationId, answer.conversationId);
  }

  /** Different answers have different questions, on all channels together. */
  lemma QuestionAnsweredOnce(moves: seq<Move>, a: Uuid, b: Uuid)
    requires History(EMPTY_WORLD, moves)
    ensures var question := Later(EMPTY_WORLD, moves).question;
            a in question && b in question && question[a] == question[b] ==> a == b
  {
    HistoryQuestions(EMPTY_WORLD, moves);
  }
}
