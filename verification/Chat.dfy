/** The chat flow of one socket: what it awaits, and what each answer makes it do. */
module Chat {
  import opened Ids
  import opened Frames

  datatype Role = UserRole | AssistantRole

  /** A committed message. */
  datatype Row = Row(id: Uuid, conversationId: Uuid, senderId: Option<Uuid>, role: Role, content: string,
                     createdAt: Timestamp)

  /** The conversation and the user that a service call is made for. */
  datatype Context = Context(conversationId: Uuid, userId: Uuid)

  function UserRow(ctx: Context, content: string, id: Uuid, at: Timestamp): Row {
    Row(id, ctx.conversationId, Some(ctx.userId), UserRole, content, at)
  }

  function ReplyRow(ctx: Context, userContent: string, id: Uuid, at: Timestamp): Row {
    Row(id, ctx.conversationId, None, AssistantRole, MockAssistantReply(userContent), at)
  }

  // ----- frames -----

  /** `_message_created`: None when it raises for want of a sender. */
  function MessageCreatedFrame(row: Row): Option<Frame> {
    match row.senderId
    case None => None
    case Some(sender) =>
      Some(Construct(MessageCreated(row.id, row.conversationId, sender, row.content, row.createdAt)))
  }

  /** `_assistant_message`. */
  function AssistantFrame(row: Row): Frame {
    Construct(AssistantMessage(row.id, row.conversationId, row.content, row.createdAt))
  }

  const INVALID_JSON: Frame := ErrorMessage("invalid_json", "Message must be valid JSON")
  const UNSUPPORTED: Frame := ErrorMessage("unsupported_message", "Unsupported WebSocket message type")
  const PROCESSING_FAILED: Frame := ErrorMessage("message_processing_failed", "Unable to process message")
  const PUBLISH_FAILED: Frame := ErrorMessage("message_publish_failed", "Message was saved but could not be delivered")

  /** The fixed error frames are fixpoints of construction, so that constructing them again changes nothing. */
  lemma FixedErrorsAreConstructed()
    ensures Constructed(INVALID_JSON) && Constructed(UNSUPPORTED)
    ensures Constructed(PROCESSING_FAILED) && Constructed(PUBLISH_FAILED)
  {
  }

  function InvalidMessage(complaint: string): Frame {
    Construct(ErrorMessage("invalid_message", complaint))
  }

  // ----- the flow -----

  /** What arrives on the socket: text that is not JSON, or a tree. */
  datatype Raw = Malformed | Tree(json: Json)

  /** What the service awaits. */
  datatype Flow =
    | Idle                                       // the next message
    | Persisting(content: string)                // the user row's commit
    | PublishingUser(row: Row, content: string)  // the publish of the user frame
    | PersistingReply(content: string)           // the assistant row's commit
    | PublishingReply(row: Row)                  // the publish of the assistant frame
    | Replying(frame: Frame)                     // a direct send: a pong or an error
    | Ended                                      // the exception has left `run`

  /** A failed commit or publish may have taken effect all the same. */
  datatype Persisted = Committed(id: Uuid, at: Timestamp) | NotCommitted | CommitLost(id: Uuid, at: Timestamp)
  datatype Publication = Published | NotPublished | PublishLost

  datatype Event =
    | Receive(raw: Raw, complaint: string)  // `complaint` is the text of the first validation error, if any
    | ReceiveFails                          // WebSocketDisconnect, or any other error that leaves `run`
    | Persist(persisted: Persisted)
    | Publish(publication: Publication)
    | Send(ok: bool)

  datatype Effect = Nothing | Insert(row: Row) | Append(frame: Frame) | Direct(frame: Frame)

  /** What a received message leads to. */
  function AfterReceive(raw: Raw, complaint: string): Flow {
    match raw
    case Malformed => Replying(INVALID_JSON)
    case Tree(json) =>
      match ValidateInbound(json)
      case None => Replying(InvalidMessage(complaint))
      case Some(MessageSend(content)) => Persisting(content)
      case Some(Ping(nonce)) => Replying(Construct(Pong(nonce)))
      case Some(_) => Replying(UNSUPPORTED)
  }

  function AfterPersist(row: Row, persisted: Persisted, next: Flow): (Flow, Effect) {
    match persisted
    case Committed(_, _) => (next, Insert(row))
    case NotCommitted => (Replying(PROCESSING_FAILED), Nothing)
    case CommitLost(_, _) => (Replying(PROCESSING_FAILED), Insert(row))
  }

  function AfterPublish(frame: Frame, publication: Publication, next: Flow): (Flow, Effect) {
    match publication
    case Published => (next, Append(frame))
    case NotPublished => (Replying(PUBLISH_FAILED), Nothing)
    case PublishLost => (Replying(PUBLISH_FAILED), Append(frame))
  }

  function NewId(persisted: Persisted): Uuid {
    match persisted
    case Committed(id, _) => id
    case NotCommitted => 0
    case CommitLost(id, _) => id
  }

  function NewTime(persisted: Persisted): Timestamp {
    match persisted
    case Committed(_, at) => at
    case NotCommitted => 0
    case CommitLost(_, at) => at
  }

  /** The answer is one that the flow awaits. */
  predicate Awaits(f: Flow, e: Event) {
    match f
    case Idle => e.Receive? || e.ReceiveFails?
    case Persisting(_) => e.Persist?
    case PublishingUser(row, _) => e.Publish? && row.senderId.Some?
    case PersistingReply(_) => e.Persist?
    case PublishingReply(_) => e.Publish?
    case Replying(_) => e.Send?
    case Ended => false
  }

  function FlowNext(ctx: Context, f: Flow, e: Event): (Flow, Effect)
    requires Awaits(f, e)
  {
    match f
    case Idle =>
      if e.ReceiveFails? then (Ended, Nothing) else (AfterReceive(e.raw, e.complaint), Nothing)
    case Persisting(content) =>
      var row := UserRow(ctx, content, NewId(e.persisted), NewTime(e.persisted));
      AfterPersist(row, e.persisted, PublishingUser(row, content))
    case PublishingUser(row, content) =>
      AfterPublish(MessageCreatedFrame(row).value, e.publication, PersistingReply(content))
    case PersistingReply(content) =>
      var row := ReplyRow(ctx, content, NewId(e.persisted), NewTime(e.persisted));
      AfterPersist(row, e.persisted, PublishingReply(row))
    case PublishingReply(row) =>
      AfterPublish(AssistantFrame(row), e.publication, Idle)
    case Replying(frame) =>
      if e.ok then (Idle, Direct(frame)) else (Ended, Nothing)
  }

  /** What is awaited is consistent with the context and with what was validated. */
  ghost predicate FlowOk(ctx: Context, f: Flow) {
    match f
    case Persisting(content) => content != "" && Stripped(content)
    case PublishingUser(row, content) =>
      row == UserRow(ctx, content, row.id, row.createdAt) && content != "" && Stripped(content)
    case PersistingReply(content) => content != "" && Stripped(content)
    case PublishingReply(row) =>
      exists content :: row == ReplyRow(ctx, content, row.id, row.createdAt) && content != "" && Stripped(content)
    case Replying(frame) => (frame.Pong? || frame.ErrorMessage?) && Constructed(frame)
    case _ => true
  }

  /** What a received message is answered with is a constructed frame. */
  lemma ReceivedIsAnswerable(raw: Raw, complaint: string)
    ensures var f := AfterReceive(raw, complaint);
            f.Replying? ==> (f.frame.Pong? || f.frame.ErrorMessage?) && Constructed(f.frame)
  {
    FixedErrorsAreConstructed();
    ConstructFixpoint(ErrorMessage("invalid_message", complaint));
    if raw.Tree? && ValidateInbound(raw.json).Some? && ValidateInbound(raw.json).value.Ping? {
      ConstructFixpoint(Pong(ValidateInbound(raw.json).value.nonce));
    }
  }

  /** A direct reply is what its construction makes of it, so the client that reads it gets the frame that was sent. */
  lemma DirectReplyReadsBack(ctx: Context, f: Flow)
    requires FlowOk(ctx, f) && f.Replying?
    ensures Construct(f.frame) == f.frame && ReadPayload(Serialize(f.frame)) == Some(f.frame)
  {
    ConstructFixpoint(f.frame);
    OutboundRoundTrip(f.frame);
  }

  lemma FlowNextOk(ctx: Context, f: Flow, e: Event)
    requires FlowOk(ctx, f) && Awaits(f, e)
    ensures FlowOk(ctx, FlowNext(ctx, f, e).0)
  {
    FixedErrorsAreConstructed();
    if f.Idle? && e.Receive? {
      ReceivedIsAnswerable(e.raw, e.complaint);
    }
    if f.Idle? && e.Receive? && e.raw.Tree? && ValidateInbound(e.raw.json).Some?
      && ValidateInbound(e.raw.json).value.MessageSend?
    {
      InboundIsBounded(e.raw.json);
    }
    if f.PersistingReply? {
      var row := ReplyRow(ctx, f.content, NewId(e.persisted), NewTime(e.persisted));
      assert row == ReplyRow(ctx, f.content, row.id, row.createdAt);
    }
  }

  /** In every flow that can arise the user frame is built, never refused for want of a sender. */
  lemma NeverWithoutSender(ctx: Context, f: Flow, publication: Publication)
    requires FlowOk(ctx, f) && f.PublishingUser?
    ensures Awaits(f, Publish(publication)) && MessageCreatedFrame(f.row).Some?
  {
  }

  /** The frame that announces a row. */
  function FrameOf(row: Row): Frame {
    match MessageCreatedFrame(row)
    case Some(frame) => frame
    case None => AssistantFrame(row)
  }

  /** A row whose content survives construction, so that row and frame agree on it. */
  predicate RowOk(row: Row) {
    Stripped(row.content) && (row.role == UserRole <==> row.senderId.Some?)
  }

  /** Row, frame and relayed JSON agree: id, conversation, sender, role (by the kind of frame) and content. */
  lemma FrameAgreesWithRow(row: Row)
    requires RowOk(row)
    ensures FrameOf(row) ==
      if row.role == UserRole then
        MessageCreated(row.id, row.conversationId, row.senderId.value, row.content, row.createdAt)
      else AssistantMessage(row.id, row.conversationId, row.content, row.createdAt)
    ensures ReadPayload(Serialize(FrameOf(row))) == Some(FrameOf(row))
  {
    StripFixpoint(row.content);
    OutboundRoundTrip(FrameOf(row));
  }

  // ----- one socket's run, with its ledger -----

  /** `received`, `userPublishes`, `exchanges` and `lost` count messages taken in, successful publishes of user
      frames, completed exchanges, and direct replies whose send failed. */
  datatype Ledger = Ledger(flow: Flow, rows: seq<Row>, published: seq<Frame>, sent: seq<Frame>,
                           received: nat, userPublishes: nat, exchanges: nat, lost: nat)

  const NEW_LEDGER: Ledger := Ledger(Idle, [], [], [], 0, 0, 0, 0)

  /** The database gives every row an id of its own. */
  predicate FreshId(rows: seq<Row>, e: Event) {
    e.Persist? && !e.persisted.NotCommitted? ==> forall i :: 0 <= i < |rows| ==> rows[i].id != NewId(e.persisted)
  }

  predicate Accepts(st: Ledger, e: Event) {
    Awaits(st.flow, e) && FreshId(st.rows, e)
  }

  /** The books after event `e` has moved the flow on with one effect. */
  function Book(st: Ledger, e: Event, flow: Flow, effect: Effect): Ledger {
    st.(flow := flow,
        rows := if effect.Insert? then st.rows + [effect.row] else st.rows,
        published := if effect.Append? then st.published + [effect.frame] else st.published,
        sent := if effect.Direct? then st.sent + [effect.frame] else st.sent,
        received := st.received + (if e.Receive? then 1 else 0),
        userPublishes := st.userPublishes + (if st.flow.PublishingUser? && e == Publish(Published) then 1 else 0),
        exchanges := st.exchanges + (if st.flow.PublishingReply? && e == Publish(Published) then 1 else 0),
        lost := st.lost + (if e == Send(false) then 1 else 0))
  }

  function LedgerNext(ctx: Context, st: Ledger, e: Event): Ledger
    requires Accepts(st, e)
  {
    var (flow, effect) := FlowNext(ctx, st.flow, e);
    Book(st, e, flow, effect)
  }

  predicate Accepted(ctx: Context, st: Ledger, es: seq<Event>)
    decreases |es|, 0
  {
    es == [] || (Accepted(ctx, st, es[..|es| - 1]) && Accepts(Follow(ctx, st, es[..|es| - 1]), es[|es| - 1]))
  }

  function Follow(ctx: Context, st: Ledger, es: seq<Event>): Ledger
    requires Accepted(ctx, st, es)
    decreases |es|, 1
  {
    if es == [] then st else LedgerNext(ctx, Follow(ctx, st, es[..|es| - 1]), es[|es| - 1])
  }

  function CountPongs(sent: seq<Frame>): nat {
    if sent == [] then 0 else CountPongs(sent[..|sent| - 1]) + if sent[|sent| - 1].Pong? then 1 else 0
  }

  function CountErrors(sent: seq<Frame>): nat {
    if sent == [] then 0 else CountErrors(sent[..|sent| - 1]) + if sent[|sent| - 1].ErrorMessage? then 1 else 0
  }

  function CountRows(rows: seq<Row>, role: Role): nat {
    if rows == [] then 0 else CountRows(rows[..|rows| - 1], role) + if rows[|rows| - 1].role == role then 1 else 0
  }

  /** Every message taken in is accounted for, and nothing else was sent. */
  predicate Balanced(st: Ledger) {
    && st.received == CountPongs(st.sent) + CountErrors(st.sent) + st.exchanges + st.lost
                      + (if st.flow.Idle? || st.flow.Ended? then 0 else 1)
    && |st.sent| == CountPongs(st.sent) + CountErrors(st.sent)
    && (st.lost == 0 || (st.lost == 1 && st.flow.Ended?))
    && CountRows(st.rows, AssistantRole) + (if st.flow.PersistingReply? then 1 else 0) <= st.userPublishes
    && st.userPublishes + (if st.flow.PublishingUser? then 1 else 0) <= CountRows(st.rows, UserRole)
    && st.exchanges + (if st.flow.PublishingReply? then 1 else 0) <= CountRows(st.rows, AssistantRole)
  }

  lemma CountSnoc(sent: seq<Frame>, frame: Frame)
    ensures CountPongs(sent + [frame]) == CountPongs(sent) + if frame.Pong? then 1 else 0
    ensures CountErrors(sent + [frame]) == CountErrors(sent) + if frame.ErrorMessage? then 1 else 0
  {
    assert (sent + [frame])[..|sent|] == sent;
  }

  lemma CountRowsSnoc(rows: seq<Row>, row: Row, role: Role)
    ensures CountRows(rows + [row], role) == CountRows(rows, role) + if row.role == role then 1 else 0
  {
    assert (rows + [row])[..|rows|] == rows;
  }

  /** What the flow can do, as far as the books are concerned. */
  predicate Moves(f: Flow, e: Event, flow: Flow, effect: Effect) {
    match f
    case Idle =>
      effect == Nothing &&
      (if e.Receive? then flow.Replying? || flow.Persisting? else flow.Ended? && e.ReceiveFails?)
    case Persisting(_) =>
      e.Persist? && (effect.Insert? ==> effect.row.role == UserRole) && (effect.Insert? || effect == Nothing) &&
      ((flow.PublishingUser? && effect.Insert?) || flow.Replying?)
    case PublishingUser(_, _) =>
      e.Publish? && (effect.Append? || effect == Nothing) &&
      (if e.publication.Published? then flow.PersistingReply? else flow.Replying?)
    case PersistingReply(_) =>
      e.Persist? && (effect.Insert? ==> effect.row.role == AssistantRole) && (effect.Insert? || effect == Nothing) &&
      ((flow.PublishingReply? && effect.Insert?) || flow.Replying?)
    case PublishingReply(_) =>
      e.Publish? && (effect.Append? || effect == Nothing) &&
      (if e.publication.Published? then flow.Idle? else flow.Replying?)
    case Replying(frame) =>
      e.Send? && (if e.ok then flow.Idle? && effect == Direct(frame) else flow.Ended? && effect == Nothing)
    case Ended => false
  }

  lemma FlowMoves(ctx: Context, f: Flow, e: Event)
    requires Awaits(f, e)
    ensures Moves(f, e, FlowNext(ctx, f, e).0, FlowNext(ctx, f, e).1)
  {
  }

  lemma BookBalanced(st: Ledger, e: Event, flow: Flow, effect: Effect)
    requires Balanced(st) && Moves(st.flow, e, flow, effect)
    requires st.flow.Replying? ==> st.flow.frame.Pong? || st.flow.frame.ErrorMessage?
    ensures Balanced(Book(st, e, flow, effect))
  {
    match effect
    case Direct(frame) => CountSnoc(st.sent, frame);
    case Insert(row) => CountRowsSnoc(st.rows, row, UserRole); CountRowsSnoc(st.rows, row, AssistantRole);
    case _ =>
  }

  lemma LedgerNextBalanced(ctx: Context, st: Ledger, e: Event)
    requires Balanced(st) && FlowOk(ctx, st.flow) && Accepts(st, e)
    ensures Balanced(LedgerNext(ctx, st, e)) && FlowOk(ctx, LedgerNext(ctx, st, e).flow)
  {
    FlowNextOk(ctx, st.flow, e);
    FlowMoves(ctx, st.flow, e);
    BookBalanced(st, e, FlowNext(ctx, st.flow, e).0, FlowNext(ctx, st.flow, e).1);
  }

  lemma {:induction false} RunBalanced(ctx: Context, es: seq<Event>)
    requires Accepted(ctx, NEW_LEDGER, es)
    ensures Balanced(Follow(ctx, NEW_LEDGER, es)) && FlowOk(ctx, Follow(ctx, NEW_LEDGER, es).flow)
    decreases |es|
  {
    if es != [] {
      RunBalanced(ctx, es[..|es| - 1]);
      LedgerNextBalanced(ctx, Follow(ctx, NEW_LEDGER, es[..|es| - 1]), es[|es| - 1]);
    }
  }

  /** Each message has ended in exactly one pong, one error, one completed exchange without a direct reply, or one
      direct reply that could not be sent, which ends the run; and
      assistant rows <= successful user publishes <= user rows. */
  predicate Conserved(st: Ledger) {
    && (st.flow.Idle? || st.flow.Ended? ==>
          st.received == CountPongs(st.sent) + CountErrors(st.sent) + st.exchanges + st.lost)
    && |st.sent| == CountPongs(st.sent) + CountErrors(st.sent)
    && st.lost <= 1 && (st.lost == 1 ==> st.flow.Ended?)
    && st.exchanges <= CountRows(st.rows, AssistantRole) <= st.userPublishes <= CountRows(st.rows, UserRole)
  }

  lemma BalancedIsConserved(st: Ledger)
    requires Balanced(st)
    ensures Conserved(st)
  {
  }

  /** So it is after any events, whatever comes in and whatever fails. */
  lemma FlowConservation(ctx: Context, es: seq<Event>)
    requires Accepted(ctx, NEW_LEDGER, es)
    ensures Conserved(Follow(ctx, NEW_LEDGER, es))
  {
    RunBalanced(ctx, es);
    BalancedIsConserved(Follow(ctx, NEW_LEDGER, es));
  }

  // ----- one message, one session -----

  /** What the database, the channel and the socket answer while one message is processed. */
  datatype Answers = Answers(userRow: Persisted, userFrame: Publication, replyRow: Persisted,
                             replyFrame: Publication, sends: bool)

  datatype Incoming = Incoming(raw: Raw, complaint: string, answers: Answers)

  predicate Taken(rows: seq<Row>, id: Uuid) {
    exists i :: 0 <= i < |rows| && rows[i].id == id
  }

  /** A row whose id is taken violates the primary key, and is not committed. */
  function Stored(rows: seq<Row>, answer: Persisted): Persisted {
    if !answer.NotCommitted? && Taken(rows, NewId(answer)) then NotCommitted else answer
  }

  predicate Busy(f: Flow) {
    && !f.Idle? && !f.Ended?
    && (f.PublishingUser? ==> f.row.senderId.Some?)
  }

  /** The answer to what the flow awaits. */
  function NextAnswer(st: Ledger, a: Answers): (e: Event)
    requires Busy(st.flow)
    ensures Accepts(st, e)
  {
    match st.flow
    case Persisting(_) => Persist(Stored(st.rows, a.userRow))
    case PublishingUser(_, _) => Publish(a.userFrame)
    case PersistingReply(_) => Persist(Stored(st.rows, a.replyRow))
    case PublishingReply(_) => Publish(a.replyFrame)
    case Replying(_) => Send(a.sends)
  }

  function StagesLeft(f: Flow): nat {
    match f
    case Persisting(_) => 5
    case PublishingUser(_, _) => 4
    case PersistingReply(_) => 3
    case PublishingReply(_) => 2
    case Replying(_) => 1
    case _ => 0
  }

  /** The machine runs until it awaits the next message or has ended. */
  function Settle(ctx: Context, st: Ledger, a: Answers): Ledger
    requires Busy(st.flow) || st.flow.Idle? || st.flow.Ended?
    decreases StagesLeft(st.flow)
  {
    if st.flow.Idle? || st.flow.Ended? then st else Settle(ctx, LedgerNext(ctx, st, NextAnswer(st, a)), a)
  }

  /** One message after another, until a reply cannot be sent or `receive_json` raises. */
  function Session(ctx: Context, st: Ledger, inbound: seq<Incoming>): Ledger
    requires st.flow.Idle? || st.flow.Ended?
    decreases |inbound|
  {
    if st.flow.Ended? then st
    else if inbound == [] then LedgerNext(ctx, st, ReceiveFails)
    else
      var received := LedgerNext(ctx, st, Receive(inbound[0].raw, inbound[0].complaint));
      SettleEnds(ctx, received, inbound[0].answers);
      Session(ctx, Settle(ctx, received, inbound[0].answers), inbound[1..])
  }

  /** The machine comes to rest, having taken in nothing, and only a reply that cannot be sent ends it. */
  lemma {:induction false} SettleEnds(ctx: Context, st: Ledger, a: Answers)
    requires Busy(st.flow) || st.flow.Idle? || st.flow.Ended?
    ensures var rest := Settle(ctx, st, a);
            && (rest.flow.Idle? || rest.flow.Ended?)
            && rest.received == st.received
            && rest.lost == st.lost + (if rest.flow.Ended? && !st.flow.Ended? then 1 else 0)
    decreases StagesLeft(st.flow)
  {
    if Busy(st.flow) {
      SettleEnds(ctx, LedgerNext(ctx, st, NextAnswer(st, a)), a);
    }
  }

  lemma SessionStep(ctx: Context, st: Ledger, inbound: seq<Incoming>, i: nat)
    requires st.flow.Idle? && i < |inbound|
    ensures var received := LedgerNext(ctx, st, Receive(inbound[i].raw, inbound[i].complaint));
            var rest := Settle(ctx, received, inbound[i].answers);
            && received.received == st.received + 1 && received.lost == st.lost
            && (rest.flow.Idle? || rest.flow.Ended?)
            && rest.received == st.received + 1 && rest.lost == st.lost + (if rest.flow.Ended? then 1 else 0)
            && Session(ctx, st, inbound[i..]) == Session(ctx, rest, inbound[i + 1..])
  {
    SettleEnds(ctx, LedgerNext(ctx, st, Receive(inbound[i].raw, inbound[i].complaint)), inbound[i].answers);
    assert inbound[i..][1..] == inbound[i + 1..];
  }

  /** All four stages of an exchange succeed. */
  predicate Completes(ctx: Context, rows: seq<Row>, content: string, a: Answers) {
    && UserAnnounced(rows, a)
    && StoredReply(ctx, rows, content, a).Committed? && a.replyFrame.Published?
  }

  predicate UserAnnounced(rows: seq<Row>, a: Answers) {
    Stored(rows, a.userRow).Committed? && a.userFrame.Published?
  }

  /** What becomes of the reply's row when the user's row has been stored. */
  function StoredReply(ctx: Context, rows: seq<Row>, content: string, a: Answers): Persisted {
    Stored(rows + [UserRow(ctx, content, NewId(a.userRow), NewTime(a.userRow))], a.replyRow)
  }

  /** What is left to do is one direct send. */
  lemma SettleReplying(ctx: Context, st: Ledger, a: Answers)
    requires st.flow.Replying?
    ensures Settle(ctx, st, a) == LedgerNext(ctx, st, Send(a.sends))
  {
    assert NextAnswer(st, a) == Send(a.sends);
  }

  lemma SettleStage(ctx: Context, st: Ledger, a: Answers, e: Event)
    requires Busy(st.flow) && e == NextAnswer(st, a)
    ensures Settle(ctx, st, a) == Settle(ctx, LedgerNext(ctx, st, e), a)
  {
  }

  /** The exchange failed, which costs one error if that can be sent. What a failed commit or publish has done all the
      same stays. */
  predicate Failed(st: Ledger, rest: Ledger, error: Frame, sends: bool, rows: seq<Row>, frames: seq<Frame>) {
    && rest.exchanges == st.exchanges
    && rest.rows == st.rows + rows && rest.published == st.published + frames
    && rest.flow == (if sends then Idle else Ended)
    && rest.sent == st.sent + (if sends then [error] else [])
  }

  /** The error for a stage that failed: the publish, when the row was committed. */
  function StageError(persisted: Persisted): Frame {
    if persisted.Committed? then PUBLISH_FAILED else PROCESSING_FAILED
  }

  /** The row, unless the database has not stored it. */
  function Written(persisted: Persisted, row: Row): seq<Row> {
    if persisted.NotCommitted? then [] else [row]
  }

  /** The frame, unless its row was not committed or the channel has not taken it. */
  function Announced(persisted: Persisted, publication: Publication, row: Row): seq<Frame> {
    if persisted.Committed? && !publication.NotPublished? then [FrameOf(row)] else []
  }

  /** From the user's published row on. */
  lemma ReplyOutcome(ctx: Context, st: Ledger, content: string, a: Answers)
    requires st.flow == PersistingReply(content)
    ensures var rest := Settle(ctx, st, a);
            if Stored(st.rows, a.replyRow).Committed? && a.replyFrame.Published? then
              var reply := ReplyRow(ctx, content, a.replyRow.id, a.replyRow.at);
              rest == st.(flow := Idle, rows := st.rows + [reply], published := st.published + [FrameOf(reply)],
                          exchanges := st.exchanges + 1)
            else
              var stored := Stored(st.rows, a.replyRow);
              var reply := ReplyRow(ctx, content, NewId(stored), NewTime(stored));
              Failed(st, rest, StageError(stored), a.sends, Written(stored, reply),
                     Announced(stored, a.replyFrame, reply)) &&
              rest.userPublishes == st.userPublishes
  {
    var st1 := LedgerNext(ctx, st, NextAnswer(st, a));
    assert Settle(ctx, st, a) == Settle(ctx, st1, a);
    if st1.flow.PublishingReply? {
      var st2 := LedgerNext(ctx, st1, NextAnswer(st1, a));
      assert Settle(ctx, st1, a) == Settle(ctx, st2, a);
      if st2.flow.Replying? {
        SettleReplying(ctx, st2, a);
      }
    } else {
      SettleReplying(ctx, st1, a);
    }
  }

  /** The ledger once the user's row is committed and announced. */
  function WithUser(st: Ledger, content: string, user: Row): Ledger {
    st.(flow := PersistingReply(content), rows := st.rows + [user],
        published := st.published + [FrameOf(user)], userPublishes := st.userPublishes + 1)
  }

  /** Up to the user's published row. */
  lemma UserOutcome(ctx: Context, st: Ledger, content: string, a: Answers)
    requires st.flow == Persisting(content)
    ensures var rest := Settle(ctx, st, a);
            if UserAnnounced(st.rows, a) then
              var user := UserRow(ctx, content, a.userRow.id, a.userRow.at);
              rest == Settle(ctx, WithUser(st, content, user), a)
            else
              var stored := Stored(st.rows, a.userRow);
              var user := UserRow(ctx, content, NewId(stored), NewTime(stored));
              Failed(st, rest, StageError(stored), a.sends, Written(stored, user),
                     Announced(stored, a.userFrame, user)) &&
              rest.userPublishes == st.userPublishes
  {
    var st1 := LedgerNext(ctx, st, NextAnswer(st, a));
    assert Settle(ctx, st, a) == Settle(ctx, st1, a);
    if st1.flow.PublishingUser? {
      var st2 := LedgerNext(ctx, st1, NextAnswer(st1, a));
      assert Settle(ctx, st1, a) == Settle(ctx, st2, a);
      if st2.flow.Replying? {
        SettleReplying(ctx, st2, a);
      } else {
        assert st2 == WithUser(st, content, UserRow(ctx, content, a.userRow.id, a.userRow.at));
      }
    } else {
      SettleReplying(ctx, st1, a);
    }
  }

  /** A message is answered in full exactly when all four stages succeed: two rows, two frames that announce them, and
      no direct reply. Otherwise no exchange is counted, and the first stage that failed costs one error. */
  lemma ExchangeOutcome(ctx: Context, st: Ledger, content: string, a: Answers)
    requires st.flow == Persisting(content)
    ensures var rest := Settle(ctx, st, a);
            if Completes(ctx, st.rows, content, a) then
              var user := UserRow(ctx, content, a.userRow.id, a.userRow.at);
              var reply := ReplyRow(ctx, content, a.replyRow.id, a.replyRow.at);
              rest == st.(flow := Idle, rows := st.rows + [user] + [reply],
                          published := st.published + [FrameOf(user)] + [FrameOf(reply)],
                          userPublishes := st.userPublishes + 1, exchanges := st.exchanges + 1)
            else if UserAnnounced(st.rows, a) then
              var stored := StoredReply(ctx, st.rows, content, a);
              var reply := ReplyRow(ctx, content, NewId(stored), NewTime(stored));
              Failed(WithUser(st, content, UserRow(ctx, content, a.userRow.id, a.userRow.at)), rest, StageError(stored),
                     a.sends, Written(stored, reply), Announced(stored, a.replyFrame, reply)) &&
              rest.userPublishes == st.userPublishes + 1
            else
              var stored := Stored(st.rows, a.userRow);
              var user := UserRow(ctx, content, NewId(stored), NewTime(stored));
              Failed(st, rest, StageError(stored), a.sends, Written(stored, user),
                     Announced(stored, a.userFrame, user)) &&
              rest.userPublishes == st.userPublishes
  {
    UserOutcome(ctx, st, content, a);
    if UserAnnounced(st.rows, a) {
      ReplyOutcome(ctx, WithUser(st, content, UserRow(ctx, content, a.userRow.id, a.userRow.at)), content, a);
    }
  }

  // ----- the service -----

  class ChatWebSocketService {
    const ctx: Context
    /** The database, the channel and the socket, as far as this service writes to them. */
    var rows: seq<Row>
    var published: seq<Frame>
    var sent: seq<Frame>
    /** The flow the calls so far amount to, and the answers that led there. */
    ghost var ledger: Ledger
    ghost var events: seq<Event>

    ghost predicate Valid()
      reads this
    {
      && Accepted(ctx, NEW_LEDGER, events) && ledger == Follow(ctx, NEW_LEDGER, events)
      && rows == ledger.rows && published == ledger.published && sent == ledger.sent
    }

    constructor (ctx: Context)
      ensures Valid() && this.ctx == ctx && events == [] && ledger == NEW_LEDGER
    {
      this.ctx := ctx;
      rows, published, sent := [], [], [];
      ledger, events := NEW_LEDGER, [];
    }

    ghost method Record(e: Event)
      requires Accepted(ctx, NEW_LEDGER, events) && ledger == Follow(ctx, NEW_LEDGER, events) && Accepts(ledger, e)
      modifies this`ledger, this`events
      ensures events == old(events) + [e] && ledger == LedgerNext(ctx, old(ledger), e)
      ensures Accepted(ctx, NEW_LEDGER, events) && ledger == Follow(ctx, NEW_LEDGER, events)
    {
      assert (events + [e])[..|events|] == events;
      ledger := LedgerNext(ctx, ledger, e);
      events := events + [e];
    }

    /** A session that adds the row and commits, or rolls back and raises. */
    method CreateMessage(senderId: Option<Uuid>, role: Role, content: string,
                         answer: Persisted) returns (created: Option<Row>)
      requires Valid()
      requires (ledger.flow == Persisting(content) && senderId == Some(ctx.userId) && role == UserRole)
            || (exists c :: ledger.flow == PersistingReply(c) && content == MockAssistantReply(c)
                            && senderId == None && role == AssistantRole)
      modifies this
      ensures Valid() && ledger == LedgerNext(ctx, old(ledger), Persist(Stored(old(rows), answer)))
      ensures created.Some? <==> Stored(old(rows), answer).Committed?
      ensures created == None ==> ledger.flow == Replying(PROCESSING_FAILED)
      ensures created.Some? && old(ledger).flow.Persisting? ==> ledger.flow == PublishingUser(created.value, content)
      ensures created.Some? && old(ledger).flow.PersistingReply? ==> ledger.flow == PublishingReply(created.value)
      ensures created.Some? ==> rows == old(rows) + [created.value]
      ensures created.Some? ==> created.value == Row(answer.id, ctx.conversationId, senderId, role, content, answer.at)
    {
      var persisted := Stored(rows, answer);
      var row := Row(NewId(persisted), ctx.conversationId, senderId, role, content, NewTime(persisted));
      if !persisted.NotCommitted? {
        rows := rows + [row];
      }
      created := if persisted.Committed? then Some(row) else None;
      Record(Persist(persisted));
    }

    /** `send_json`: when the socket fails, the exception leaves `run`. */
    method SendJson(frame: Frame, sends: bool) returns (alive: bool)
      requires Valid() && ledger.flow == Replying(frame)
      modifies this
      ensures Valid() && ledger == LedgerNext(ctx, old(ledger), Send(sends)) && alive == sends
    {
      alive := sends;
      if alive {
        sent := sent + [frame];
      }
      Record(Send(sends));
    }

    /** `_publish_frame`. When it reports a failure it has awaited the error reply. */
    method PublishFrame(frame: Frame, answer: Publication, sends: bool) returns (ok: bool, alive: bool)
      requires Valid()
      requires (ledger.flow.PublishingUser? && MessageCreatedFrame(ledger.flow.row) == Some(frame))
            || (ledger.flow.PublishingReply? && AssistantFrame(ledger.flow.row) == frame)
      modifies this
      ensures Valid() && (ok <==> answer.Published?) && (alive <==> ok || sends)
      ensures ok && old(ledger).flow.PublishingUser? ==> ledger.flow == PersistingReply(old(ledger).flow.content)
      ensures ok && old(ledger).flow.PublishingReply? ==> ledger.flow == Idle
      ensures !ok ==> LedgerNext(ctx, old(ledger), Publish(answer)).flow.Replying?
      ensures var st := LedgerNext(ctx, old(ledger), Publish(answer));
              ledger == if ok then st else LedgerNext(ctx, st, Send(sends))
    {
      if !answer.NotPublished? {
        published := published + [frame];
      }
      ok := answer.Published?;
      Record(Publish(answer));
      alive := true;
      if !ok {
        alive := SendJson(PUBLISH_FAILED, sends);
      }
    }

    method HandleMessageSend(content: string, a: Answers) returns (alive: bool)
      requires Valid() && ledger.flow == Persisting(content)
      modifies this
      ensures Valid() && ledger == Settle(ctx, old(ledger), a) && (alive <==> ledger.flow.Idle?)
    {
      SettleStage(ctx, ledger, a, Persist(Stored(rows, a.userRow)));
      var userMessage := CreateMessage(Some(ctx.userId), UserRole, content, a.userRow);
      if userMessage == None {
        SettleReplying(ctx, ledger, a);
        alive := SendJson(PROCESSING_FAILED, a.sends);
        return;
      }
      ghost var st := LedgerNext(ctx, ledger, Publish(a.userFrame));
      SettleStage(ctx, ledger, a, Publish(a.userFrame));
      var ok;
      ok, alive := PublishFrame(MessageCreatedFrame(userMessage.value).value, a.userFrame, a.sends);
      if !ok {
        SettleReplying(ctx, st, a);
        return;
      }
      alive := HandleReply(content, a);
    }

    /** The second half of `_handle_message_send`, from the published user message on. */
    method HandleReply(content: string, a: Answers) returns (alive: bool)
      requires Valid() && ledger.flow == PersistingReply(content)
      modifies this
      ensures Valid() && ledger == Settle(ctx, old(ledger), a) && (alive <==> ledger.flow.Idle?)
    {
      SettleStage(ctx, ledger, a, Persist(Stored(rows, a.replyRow)));
      var assistantMessage := CreateMessage(None, AssistantRole, MockAssistantReply(content), a.replyRow);
      if assistantMessage == None {
        SettleReplying(ctx, ledger, a);
        alive := SendJson(PROCESSING_FAILED, a.sends);
        return;
      }
      ghost var st := LedgerNext(ctx, ledger, Publish(a.replyFrame));
      SettleStage(ctx, ledger, a, Publish(a.replyFrame));
      var ok;
      ok, alive := PublishFrame(AssistantFrame(assistantMessage.value), a.replyFrame, a.sends);
      if !ok {
        SettleReplying(ctx, st, a);
      }
    }

    /** `run`, on the messages that arrive before `receive_json` raises. */
    method Run(inbound: seq<Incoming>)
      requires Valid() && ledger == NEW_LEDGER
      modifies this
      ensures Valid() && ledger == Session(ctx, NEW_LEDGER, inbound)
      ensures ledger.received <= |inbound| && (ledger.lost == 0 ==> ledger.received == |inbound|)
      // each message ended in one pong, one error, one exchange, or one reply that could not be sent
      ensures ledger.received == CountPongs(sent) + CountErrors(sent) + ledger.exchanges + ledger.lost
      ensures ledger.lost <= 1 && |sent| == CountPongs(sent) + CountErrors(sent)
      ensures CountRows(rows, AssistantRole) <= ledger.userPublishes <= CountRows(rows, UserRole)
    {
      var i := 0;
      while i < |inbound|
        invariant 0 <= i <= |inbound|
        invariant Valid() && ledger.flow == Idle && ledger.received == i
        invariant Session(ctx, NEW_LEDGER, inbound) == Session(ctx, ledger, inbound[i..])
      {
        SessionStep(ctx, ledger, inbound, i);
        var alive := Answer(inbound[i]);
        i := i + 1;
        if !alive {
          FlowConservation(ctx, events);
          return;
        }
      }
      Disconnect();
      FlowConservation(ctx, events);
    }

    /** `receive_json` raises. */
    ghost method Disconnect()
      requires Valid() && ledger.flow == Idle
      modifies this`ledger, this`events
      ensures Valid() && ledger == LedgerNext(ctx, old(ledger), ReceiveFails) == old(ledger).(flow := Ended)
    {
      Record(ReceiveFails);
    }

    /** One round of the loop of `run`: a message comes in and is answered. */
    method Answer(next: Incoming) returns (alive: bool)
      requires Valid() && ledger.flow == Idle
      modifies this
      ensures Valid()
      ensures var received := LedgerNext(ctx, old(ledger), Receive(next.raw, next.complaint));
              ledger == Settle(ctx, received, next.answers)
      ensures alive <==> ledger.flow.Idle?
    {
      Record(Receive(next.raw, next.complaint));
      var sends := next.answers.sends;
      match next.raw {
        case Malformed => alive := SendJson(INVALID_JSON, sends);
        case Tree(json) =>
          var inbound := ValidateInbound(json);
          if inbound == None {
            alive := SendJson(InvalidMessage(next.complaint), sends);
          } else if inbound.value.MessageSend? {
            alive := HandleMessageSend(inbound.value.content, next.answers);
          } else if inbound.value.Ping? {
            alive := SendJson(Construct(Pong(inbound.value.nonce)), sends);
          } else {
            alive := SendJson(UNSUPPORTED, sends);
          }
      }
    }
  }
}
