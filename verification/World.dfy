/** The whole deployment: one database, one Redis, any number of instances, and the chat service of every running
    handler on each of them. */
module World {
  import opened Ids
  import opened Frames
  import opened Chat
  import Fan = FanOut
  import FanOutInvariant
  import FanOutSteps

  /** The chat service that handler `h` of instance `i` runs. */
  datatype Handle = Handle(i: nat, h: nat)
  datatype Service = Service(ctx: Context, flow: Flow)

  /** `logs` is what Redis has published on each channel name. The rest is history: `origin` has the row that each
      log entry announces, `place` where the announcement of a row id stands, `asking` the user message that each
      service has announced last, and `question` the user message that each announced reply answers. */
  datatype World = World(
    rows: seq<Row>,
    logs: map<string, seq<Payload>>,
    origin: map<string, seq<Row>>,
    place: map<Uuid, (string, nat)>,
    asking: map<Handle, Uuid>,
    question: map<Uuid, Uuid>,
    instances: seq<Fan.State>,
    services: map<Handle, Service>)

  const EMPTY_WORLD: World := World([], map[], map[], map[], map[], map[], [], map[])

  datatype Move =
    | Boot(view: map<Uuid, seq<Payload>>)     // an instance process starts
    | Local(i: nat, step: Fan.Step)           // a fan-out step of one instance
    | Serve(who: Handle, userId: Uuid)         // a running handler calls the chat service
    | Answer(who: Handle, e: Event)            // the service gets an answer and goes on
    | Leave(who: Handle)                       // the handler goes on after the service has raised

  function ChannelLog(logs: map<string, seq<Payload>>, name: string): seq<Payload> {
    if name in logs then logs[name] else []
  }

  function OriginLog(origin: map<string, seq<Row>>, name: string): seq<Row> {
    if name in origin then origin[name] else []
  }

  /** What an instance can read from Redis is what was published under the channel's name. */
  ghost predicate Sees(view: map<Uuid, seq<Payload>>, logs: map<string, seq<Payload>>) {
    forall c: Uuid :: Fan.LogOf(view, c) == ChannelLog(logs, ConversationChannel(c))
  }

  predicate RunningAt(w: World, who: Handle) {
    who.i < |w.instances| && who.h < |w.instances[who.i].handlers| && w.instances[who.i].handlers[who.h].pc.Running?
  }

  ghost predicate Possible(w: World, move: Move) {
    match move
    case Boot(view) => Sees(view, w.logs)
    case Local(i, step) => i < |w.instances| && !step.Publish? && !step.HRunEnds? && Fan.Enabled(w.instances[i], step)
    case Serve(who, _) => RunningAt(w, who) && who !in w.services
    case Answer(who, e) =>
      RunningAt(w, who) && who in w.services && Awaits(w.services[who].flow, e) && FreshId(w.rows, e)
    case Leave(who) => RunningAt(w, who) && who in w.services && w.services[who].flow.Ended?
  }

  /** Redis hands a publication to every instance. */
  function Deliver(instances: seq<Fan.State>, c: Uuid, p: Payload): (r: seq<Fan.State>)
    ensures |r| == |instances|
  {
    seq(|instances|, i requires 0 <= i < |instances| => Fan.Apply(instances[i], Fan.Publish(c, p)))
  }

  /** The row whose announcement the flow awaits. */
  function Held(f: Flow): Option<Row> {
    match f
    case PublishingUser(row, _) => Some(row)
    case PublishingReply(row) => Some(row)
    case _ => None
  }

  /** The user message that the service is answering. */
  function AskedBy(asking: map<Handle, Uuid>, who: Handle): Uuid {
    if who in asking then asking[who] else 0
  }

  function PublishEffect(w: World, who: Handle, ctx: Context, row: Row, frame: Frame): World {
    var name := ConversationChannel(ctx.conversationId);
    w.(logs := w.logs[name := ChannelLog(w.logs, name) + [Serialize(frame)]],
       origin := w.origin[name := OriginLog(w.origin, name) + [row]],
       place := w.place[row.id := (name, |OriginLog(w.origin, name)|)],
       asking := if row.role == UserRole then w.asking[who := row.id] else w.asking,
       question := if row.role == UserRole then w.question else w.question[row.id := AskedBy(w.asking, who)],
       instances := Deliver(w.instances, ctx.conversationId, Serialize(frame)))
  }

  function AnswerStep(w: World, who: Handle, e: Event): World
    requires who in w.services && Awaits(w.services[who].flow, e)
  {
    var Service(ctx, f) := w.services[who];
    var (next, effect) := FlowNext(ctx, f, e);
    var w1 :=
      match effect
      case Insert(row) => w.(rows := w.rows + [row])
      case Append(frame) => if Held(f).Some? then PublishEffect(w, who, ctx, Held(f).value, frame) else w
      case _ => w;
    w1.(services := w.services[who := Service(ctx, next)])
  }

  function Do(w: World, move: Move): World
    requires Possible(w, move)
  {
    match move
    case Boot(view) => w.(instances := w.instances + [Fan.Init(view)])
    case Local(i, step) => w.(instances := w.instances[i := Fan.Apply(w.instances[i], step)])
    case Serve(who, userId) =>
      var ctx := Context(w.instances[who.i].handlers[who.h].conversationId, userId);
      w.(services := w.services[who := Service(ctx, Idle)])
    case Answer(who, e) => AnswerStep(w, who, e)
    case Leave(who) => w.(instances := w.instances[who.i := Fan.Apply(w.instances[who.i], Fan.HRunEnds(who.h))])
  }

  ghost predicate History(w: World, moves: seq<Move>)
    decreases |moves|
  {
    moves == [] || (Possible(w, moves[0]) && History(Do(w, moves[0]), moves[1..]))
  }

  ghost function Later(w: World, moves: seq<Move>): World
    requires History(w, moves)
    decreases |moves|
  {
    if moves == [] then w else Later(Do(w, moves[0]), moves[1..])
  }

  // ----- the invariant -----

  ghost predicate InstancesOk(instances: seq<Fan.State>, logs: map<string, seq<Payload>>) {
    forall i :: 0 <= i < |instances| ==> FanOutInvariant.Inv(instances[i]) && Sees(instances[i].logs, logs)
  }

  ghost predicate RowsOk(rows: seq<Row>) {
    && (forall i :: 0 <= i < |rows| ==> RowOk(rows[i]))
    && (forall i, j :: 0 <= i < j < |rows| ==> rows[i].id != rows[j].id)
  }

  /** Entry `j` of a channel announces a committed row of the channel's own conversation, at the row's one place. */
  ghost predicate EntryOk(rows: seq<Row>, log: seq<Payload>, announced: seq<Row>, place: map<Uuid, (string, nat)>,
                          name: string, j: nat)
    requires j < |log| == |announced|
  {
    var row := announced[j];
    && row in rows && log[j] == Serialize(FrameOf(row)) && name == ConversationChannel(row.conversationId)
    && row.id in place && place[row.id] == (name, j)
  }

  ghost predicate ChannelOk(rows: seq<Row>, log: seq<Payload>, announced: seq<Row>, place: map<Uuid, (string, nat)>,
                            name: string) {
    && |log| == |announced|
    && forall j :: 0 <= j < |log| ==> EntryOk(rows, log, announced, place, name, j)
  }

  ghost predicate ChannelsOk(rows: seq<Row>, logs: map<string, seq<Payload>>, origin: map<string, seq<Row>>,
                             place: map<Uuid, (string, nat)>) {
    forall name :: ChannelOk(rows, ChannelLog(logs, name), OriginLog(origin, name), place, name)
  }

  /** A service's flow is consistent, and a row that it is about to announce is committed and not announced yet. */
  ghost predicate ServiceOk(s: Service, rows: seq<Row>, place: map<Uuid, (string, nat)>) {
    && FlowOk(s.ctx, s.flow)
    && (Held(s.flow).Some? ==>
          Held(s.flow).value in rows && Held(s.flow).value.id !in place &&
          Held(s.flow).value.conversationId == s.ctx.conversationId)
  }

  ghost predicate ServicesOk(services: map<Handle, Service>, rows: seq<Row>, place: map<Uuid, (string, nat)>) {
    && (forall who :: who in services ==> ServiceOk(services[who], rows, place))
    && (forall a, b :: a in services && b in services && a != b
                       && Held(services[a].flow).Some? && Held(services[b].flow).Some? ==>
          Held(services[a].flow).value.id != Held(services[b].flow).value.id)
  }

  ghost predicate HasId(rows: seq<Row>, id: Uuid) {
    exists i :: 0 <= i < |rows| && rows[i].id == id
  }

  /** Only committed rows have been announced. */
  ghost predicate PlacesOk(rows: seq<Row>, place: map<Uuid, (string, nat)>) {
    forall id :: id in place ==> HasId(rows, id)
  }

  /** A service works for the conversation its handler was opened for. */
  ghost predicate ContextsOk(services: map<Handle, Service>, instances: seq<Fan.State>) {
    forall who :: who in services ==>
      && who.i < |instances| && who.h < |instances[who.i].handlers|
      && services[who].ctx.conversationId == instances[who.i].handlers[who.h].conversationId
  }

  ghost predicate WorldOk(w: World) {
    && InstancesOk(w.instances, w.logs)
    && RowsOk(w.rows)
    && ChannelsOk(w.rows, w.logs, w.origin, w.place)
    && PlacesOk(w.rows, w.place)
    && ServicesOk(w.services, w.rows, w.place)
    && ContextsOk(w.services, w.instances)
  }

  // ----- moves of instances -----

  lemma LogsStay(s: Fan.State, step: Fan.Step)
    requires Fan.Enabled(s, step) && !step.Publish?
    ensures Fan.Apply(s, step).logs == s.logs
  {
    if Fan.IsHandlerStep(step) {
      FanOutSteps.HandlerStepFootprint(s, step);
    } else if Fan.IsLoopStep(step) {
      FanOutSteps.LoopStepFootprint(s, step);
    }
  }

  lemma InstanceStepKeeps(w: World, i: nat, step: Fan.Step)
    requires WorldOk(w) && i < |w.instances| && Fan.Enabled(w.instances[i], step) && !step.Publish?
    ensures WorldOk(w.(instances := w.instances[i := Fan.Apply(w.instances[i], step)]))
  {
    var s := w.instances[i];
    FanOutSteps.StepKeeps(s, step);
    LogsStay(s, step);
    ConversationsPersist(s, step);
    InstanceKeeps(w, i, Fan.Apply(s, step));
  }

  lemma ConversationsPersist(s: Fan.State, step: Fan.Step)
    requires Fan.Enabled(s, step)
    ensures var hs' := Fan.Apply(s, step).handlers;
            && |s.handlers| <= |hs'|
            && forall h :: 0 <= h < |s.handlers| ==> hs'[h].conversationId == s.handlers[h].conversationId
  {
    if Fan.IsHandlerStep(step) {
      FanOutSteps.HandlerStepFootprint(s, step);
    } else if Fan.IsLoopStep(step) {
      FanOutSteps.LoopStepFootprint(s, step);
    }
  }

  /** An instance moves without touching the logs. */
  lemma InstanceKeeps(w: World, i: nat, s: Fan.State)
    requires WorldOk(w) && i < |w.instances| && FanOutInvariant.Inv(s) && s.logs == w.instances[i].logs
    requires |w.instances[i].handlers| <= |s.handlers|
    requires forall h :: 0 <= h < |w.instances[i].handlers| ==>
      s.handlers[h].conversationId == w.instances[i].handlers[h].conversationId
    ensures WorldOk(w.(instances := w.instances[i := s]))
  {
  }

  // ----- answers -----

  /** What an answer does, as far as rows and announcements are concerned. */
  lemma FlowNextShape(ctx: Context, f: Flow, e: Event)
    requires FlowOk(ctx, f) && Awaits(f, e)
    ensures var (next, effect) := FlowNext(ctx, f, e);
            && (effect.Append? ==> Held(f).Some? && effect.frame == FrameOf(Held(f).value) && Held(next) == None)
            && (effect.Insert? ==>
                  && RowOk(effect.row) && effect.row.conversationId == ctx.conversationId
                  && e.Persist? && !e.persisted.NotCommitted? && effect.row.id == NewId(e.persisted)
                  && (Held(next) == None || Held(next) == Some(effect.row)))
            && (effect.Nothing? || effect.Direct? ==> Held(next) == None)
  {
    FlowNextOk(ctx, f, e);
    if f.PersistingReply? {
      ReplyIsStripped(f.content);
    }
  }

  /** The service's flow changes and nothing else does. */
  lemma QuietAnswerKeeps(w: World, who: Handle, next: Flow)
    requires WorldOk(w) && who in w.services
    requires FlowOk(w.services[who].ctx, next) && Held(next) == None
    ensures WorldOk(w.(services := w.services[who := Service(w.services[who].ctx, next)]))
  {
  }

  lemma ChannelsKeepWithRow(rows: seq<Row>, row: Row, logs: map<string, seq<Payload>>, origin: map<string, seq<Row>>,
                            place: map<Uuid, (string, nat)>)
    requires ChannelsOk(rows, logs, origin, place)
    ensures ChannelsOk(rows + [row], logs, origin, place)
  {
    forall name ensures ChannelOk(rows + [row], ChannelLog(logs, name), OriginLog(origin, name), place, name) {
      assert ChannelOk(rows, ChannelLog(logs, name), OriginLog(origin, name), place, name);
      forall j | 0 <= j < |ChannelLog(logs, name)|
        ensures EntryOk(rows + [row], ChannelLog(logs, name), OriginLog(origin, name), place, name, j)
      {
        assert EntryOk(rows, ChannelLog(logs, name), OriginLog(origin, name), place, name, j);
      }
    }
  }

  lemma PlacesKeepWithRow(rows: seq<Row>, row: Row, place: map<Uuid, (string, nat)>)
    requires PlacesOk(rows, place)
    ensures PlacesOk(rows + [row], place)
  {
    forall id | id in place ensures HasId(rows + [row], id) {
      var i :| 0 <= i < |rows| && rows[i].id == id;
      assert (rows + [row])[i].id == id;
    }
  }

  /** A commit: the new row's id is nobody else's, so it has not been announced. */
  lemma InsertKeeps(w: World, who: Handle, row: Row, next: Flow)
    requires WorldOk(w) && who in w.services && FlowOk(w.services[who].ctx, next)
    requires RowOk(row) && row.conversationId == w.services[who].ctx.conversationId && !HasId(w.rows, row.id)
    requires Held(next) == None || Held(next) == Some(row)
    ensures WorldOk(w.(rows := w.rows + [row], services := w.services[who := Service(w.services[who].ctx, next)]))
  {
    RowsKeepWithRow(w.rows, row);
    ContextsKeep(w.services, w.instances, who, next);
    ChannelsKeepWithRow(w.rows, row, w.logs, w.origin, w.place);
    PlacesKeepWithRow(w.rows, row, w.place);
    ServicesKeepWithRow(w, who, row, next);
  }

  lemma RowsKeepWithRow(rows: seq<Row>, row: Row)
    requires RowsOk(rows) && RowOk(row) && !HasId(rows, row.id)
    ensures RowsOk(rows + [row])
  {
    assert forall i :: 0 <= i < |rows| ==> rows[i].id != row.id;
  }

  lemma ContextsKeep(services: map<Handle, Service>, instances: seq<Fan.State>, who: Handle, next: Flow)
    requires ContextsOk(services, instances) && who in services
    ensures ContextsOk(services[who := Service(services[who].ctx, next)], instances)
  {
  }

  lemma ServicesKeepWithRow(w: World, who: Handle, row: Row, next: Flow)
    requires ServicesOk(w.services, w.rows, w.place) && PlacesOk(w.rows, w.place)
    requires who in w.services && FlowOk(w.services[who].ctx, next)
    requires row.conversationId == w.services[who].ctx.conversationId && !HasId(w.rows, row.id)
    requires Held(next) == None || Held(next) == Some(row)
    ensures ServicesOk(w.services[who := Service(w.services[who].ctx, next)], w.rows + [row], w.place)
  {
    var services := w.services[who := Service(w.services[who].ctx, next)];
    forall a | a in services ensures ServiceOk(services[a], w.rows + [row], w.place) {
      assert ServiceOk(w.services[a], w.rows, w.place);
    }
    forall a | a in w.services && a != who && Held(w.services[a].flow).Some?
      ensures Held(w.services[a].flow).value.id != row.id
    {
      assert ServiceOk(w.services[a], w.rows, w.place);
      RowHasId(w.rows, Held(w.services[a].flow).value);
    }
  }

  lemma RowHasId(rows: seq<Row>, row: Row)
    requires row in rows
    ensures HasId(rows, row.id)
  {
  }

  // ----- a publication -----

  /** The publication reaches the channel's conversation on every instance, and no other: channel names are
      injective. */
  lemma DeliverKeeps(instances: seq<Fan.State>, logs: map<string, seq<Payload>>, c: Uuid, p: Payload)
    requires InstancesOk(instances, logs)
    ensures var name := ConversationChannel(c);
            InstancesOk(Deliver(instances, c, p), logs[name := ChannelLog(logs, name) + [p]])
  {
    var name := ConversationChannel(c);
    var logs' := logs[name := ChannelLog(logs, name) + [p]];
    forall i | 0 <= i < |instances|
      ensures FanOutInvariant.Inv(Deliver(instances, c, p)[i]) && Sees(Deliver(instances, c, p)[i].logs, logs')
    {
      FanOutSteps.StepKeeps(instances[i], Fan.Publish(c, p));
      forall d: Uuid
        ensures Fan.LogOf(Deliver(instances, c, p)[i].logs, d) == ChannelLog(logs', ConversationChannel(d))
      {
        ChannelInjective(c, d);
        assert Fan.LogOf(instances[i].logs, d) == ChannelLog(logs, ConversationChannel(d));
      }
    }
  }

  /** The announced row takes its place at the end of its channel; every other entry stays as it was. */
  lemma AnnounceKeeps(rows: seq<Row>, logs: map<string, seq<Payload>>, origin: map<string, seq<Row>>,
                      place: map<Uuid, (string, nat)>, row: Row)
    requires ChannelsOk(rows, logs, origin, place) && row in rows && row.id !in place
    ensures var name := ConversationChannel(row.conversationId);
            ChannelsOk(rows, logs[name := ChannelLog(logs, name) + [Serialize(FrameOf(row))]],
                       origin[name := OriginLog(origin, name) + [row]],
                       place[row.id := (name, |OriginLog(origin, name)|)])
  {
    var name := ConversationChannel(row.conversationId);
    var logs' := logs[name := ChannelLog(logs, name) + [Serialize(FrameOf(row))]];
    var origin' := origin[name := OriginLog(origin, name) + [row]];
    var place' := place[row.id := (name, |OriginLog(origin, name)|)];
    forall n ensures ChannelOk(rows, ChannelLog(logs', n), OriginLog(origin', n), place', n) {
      assert ChannelOk(rows, ChannelLog(logs, n), OriginLog(origin, n), place, n);
      forall j | 0 <= j < |ChannelLog(logs', n)|
        ensures EntryOk(rows, ChannelLog(logs', n), OriginLog(origin', n), place', n, j)
      {
        AnnouncedEntry(rows, logs, origin, place, row, n, j);
      }
    }
  }

  lemma AnnouncedEntry(rows: seq<Row>, logs: map<string, seq<Payload>>, origin: map<string, seq<Row>>,
                       place: map<Uuid, (string, nat)>, row: Row, n: string, j: nat)
    requires ChannelOk(rows, ChannelLog(logs, n), OriginLog(origin, n), place, n) && row in rows && row.id !in place
    requires j < |ChannelLog(logs, n)| || (n == ConversationChannel(row.conversationId) && j == |ChannelLog(logs, n)|)
    ensures var name := ConversationChannel(row.conversationId);
            var logs' := logs[name := ChannelLog(logs, name) + [Serialize(FrameOf(row))]];
            var origin' := origin[name := OriginLog(origin, name) + [row]];
            var place' := place[row.id := (name, |OriginLog(origin, name)|)];
            && j < |ChannelLog(logs', n)| == |OriginLog(origin', n)|
            && EntryOk(rows, ChannelLog(logs', n), OriginLog(origin', n), place', n, j)
  {
    var name := ConversationChannel(row.conversationId);
    assert OriginLog(origin, n) <= OriginLog(origin[name := OriginLog(origin, name) + [row]], n);
    if j < |OriginLog(origin, n)| {
      assert EntryOk(rows, ChannelLog(logs, n), OriginLog(origin, n), place, n, j);
    }
  }

  lemma PublishKeeps(w: World, who: Handle, row: Row, next: Flow)
    requires WorldOk(w) && who in w.services && FlowOk(w.services[who].ctx, next)
    requires Held(w.services[who].flow) == Some(row) && Held(next) == None
    ensures WorldOk(PublishEffect(w, who, w.services[who].ctx, row, FrameOf(row))
                    .(services := w.services[who := Service(w.services[who].ctx, next)]))
  {
    var ctx := w.services[who].ctx;
    assert ServiceOk(w.services[who], w.rows, w.place);
    DeliverKeeps(w.instances, w.logs, ctx.conversationId, Serialize(FrameOf(row)));
    AnnounceKeeps(w.rows, w.logs, w.origin, w.place, row);
    RowHasId(w.rows, row);
    var name := ConversationChannel(ctx.conversationId);
    PlaceKeeps(w.rows, w.place, row.id, (name, |OriginLog(w.origin, name)|));
    ServicesAfterPublish(w, who, row, next);
    ContextsAfterPublish(w, who, row, next);
  }

  lemma PlaceKeeps(rows: seq<Row>, place: map<Uuid, (string, nat)>, id: Uuid, at: (string, nat))
    requires PlacesOk(rows, place) && HasId(rows, id)
    ensures PlacesOk(rows, place[id := at])
  {
  }

  lemma ContextsAfterPublish(w: World, who: Handle, row: Row, next: Flow)
    requires ContextsOk(w.services, w.instances) && who in w.services
    ensures ContextsOk(w.services[who := Service(w.services[who].ctx, next)],
                       Deliver(w.instances, w.services[who].ctx.conversationId, Serialize(FrameOf(row))))
  {
  }

  lemma ServicesAfterPublish(w: World, who: Handle, row: Row, next: Flow)
    requires ServicesOk(w.services, w.rows, w.place) && who in w.services
    requires FlowOk(w.services[who].ctx, next)
    requires Held(w.services[who].flow) == Some(row) && Held(next) == None
    ensures var name := ConversationChannel(w.services[who].ctx.conversationId);
            ServicesOk(w.services[who := Service(w.services[who].ctx, next)], w.rows,
                       w.place[row.id := (name, |OriginLog(w.origin, name)|)])
  {
    var name := ConversationChannel(w.services[who].ctx.conversationId);
    var services := w.services[who := Service(w.services[who].ctx, next)];
    var place := w.place[row.id := (name, |OriginLog(w.origin, name)|)];
    forall a | a in services ensures ServiceOk(services[a], w.rows, place) {
      assert ServiceOk(w.services[a], w.rows, w.place);
    }
  }

  /** A service works for the conversation of its handler and the user it was called with, from its call on. */
  lemma ServesItsCaller(w: World, move: Move, who: Handle)
    requires Possible(w, move)
    ensures who in Do(w, move).services <==> who in w.services || (move.Serve? && move.who == who)
    ensures who in w.services ==> Do(w, move).services[who].ctx == w.services[who].ctx
    ensures move.Serve? && move.who == who ==>
      var c := w.instances[who.i].handlers[who.h].conversationId;
      Do(w, move).services[who] == Service(Context(c, move.userId), Idle)
    // and the handler leaves it only after it has raised
    ensures move.Leave? ==> move.who in w.services && w.services[move.who].flow == Ended
    ensures move.Local? ==> !move.step.HRunEnds?
  {
  }

  // ----- all moves, all histories -----

  lemma AnswerKeeps(w: World, who: Handle, e: Event)
    requires WorldOk(w) && Possible(w, Answer(who, e))
    ensures WorldOk(Do(w, Answer(who, e)))
  {
    var ctx, f := w.services[who].ctx, w.services[who].flow;
    var next, effect := FlowNext(ctx, f, e).0, FlowNext(ctx, f, e).1;
    assert ServiceOk(w.services[who], w.rows, w.place);
    FlowNextShape(ctx, f, e);
    FlowNextOk(ctx, f, e);
    match effect
    case Insert(row) => InsertKeeps(w, who, row, next);
    case Append(frame) => PublishKeeps(w, who, Held(f).value, next);
    case _ => QuietAnswerKeeps(w, who, next);
  }

  lemma BootKeeps(w: World, view: map<Uuid, seq<Payload>>)
    requires WorldOk(w) && Sees(view, w.logs)
    ensures WorldOk(w.(instances := w.instances + [Fan.Init(view)]))
  {
    FanOutInvariant.InitOk(view);
  }

  lemma ServeKeeps(w: World, who: Handle, userId: Uuid)
    requires WorldOk(w) && Possible(w, Serve(who, userId))
    ensures WorldOk(Do(w, Serve(who, userId)))
  {
    var service := Service(Context(w.instances[who.i].handlers[who.h].conversationId, userId), Idle);
    IdleServiceKeeps(w.services, who, service, w.rows, w.place);
  }

  lemma IdleServiceKeeps(services: map<Handle, Service>, who: Handle, service: Service, rows: seq<Row>,
                         place: map<Uuid, (string, nat)>)
    requires ServicesOk(services, rows, place) && service.flow.Idle?
    ensures ServicesOk(services[who := service], rows, place)
  {
  }

  lemma MoveKeeps(w: World, move: Move)
    requires WorldOk(w) && Possible(w, move)
    ensures WorldOk(Do(w, move))
  {
    match move
    case Boot(view) => BootKeeps(w, view);
    case Local(i, step) => InstanceStepKeeps(w, i, step);
    case Serve(who, userId) => ServeKeeps(w, who, userId);
    case Answer(who, e) => AnswerKeeps(w, who, e);
    case Leave(who) => InstanceStepKeeps(w, who.i, Fan.HRunEnds(who.h));
  }

  lemma {:induction false} HistoryKeeps(w: World, moves: seq<Move>)
    requires WorldOk(w) && History(w, moves)
    ensures WorldOk(Later(w, moves))
    decreases |moves|
  {
    if moves != [] {
      MoveKeeps(w, moves[0]);
      HistoryKeeps(Do(w, moves[0]), moves[1..]);
    }
  }

  // ----- the end-to-end results -----

  /** Entry `j` of the channel carries the frame of `row`. */
  ghost predicate Announces(w: World, name: string, j: nat, row: Row) {
    && j < |ChannelLog(w.logs, name)| && RowOk(row)
    && ReadPayload(ChannelLog(w.logs, name)[j]) == Some(FrameOf(row))
  }

  lemma EntryAnnounces(w: World, name: string, j: nat) returns (row: Row)
    requires WorldOk(w) && j < |ChannelLog(w.logs, name)|
    ensures row in w.rows && Announces(w, name, j, row) && name == ConversationChannel(row.conversationId)
    ensures row.id in w.place && w.place[row.id] == (name, j)
    ensures j < |OriginLog(w.origin, name)| && row == OriginLog(w.origin, name)[j]
  {
    assert ChannelOk(w.rows, ChannelLog(w.logs, name), OriginLog(w.origin, name), w.place, name);
    row := OriginLog(w.origin, name)[j];
    assert EntryOk(w.rows, ChannelLog(w.logs, name), OriginLog(w.origin, name), w.place, name, j);
    FrameAgreesWithRow(row);
  }

  lemma FrameTellsId(a: Row, b: Row)
    requires RowOk(a) && RowOk(b) && FrameOf(a) == FrameOf(b)
    ensures a == b
  {
    FrameAgreesWithRow(a);
    FrameAgreesWithRow(b);
  }

  /** Committed before visible: on every history, each entry of each channel carries the frame of a committed row of
      the channel's own conversation. The frame has the row's id, conversation, sender, role and content
      (FrameAgreesWithRow). */
  lemma CommittedBeforeVisible(moves: seq<Move>, name: string, j: nat) returns (row: Row)
    requires History(EMPTY_WORLD, moves) && j < |ChannelLog(Later(EMPTY_WORLD, moves).logs, name)|
    ensures var w := Later(EMPTY_WORLD, moves);
            row in w.rows && Announces(w, name, j, row) && name == ConversationChannel(row.conversationId)
  {
    HistoryKeeps(EMPTY_WORLD, moves);
    row := EntryAnnounces(Later(EMPTY_WORLD, moves), name, j);
  }

  /** No row enters the log twice, on any channel: an id stands in one place. */
  lemma AnnouncedOnce(moves: seq<Move>, name: string, j: nat, row: Row, name': string, j': nat, row': Row)
    requires History(EMPTY_WORLD, moves)
    ensures var w := Later(EMPTY_WORLD, moves);
            Announces(w, name, j, row) && Announces(w, name', j', row') && row.id == row'.id ==>
              name == name' && j == j' && row == row'
  {
    HistoryKeeps(EMPTY_WORLD, moves);
    var w := Later(EMPTY_WORLD, moves);
    if Announces(w, name, j, row) && Announces(w, name', j', row') && row.id == row'.id {
      var r := EntryAnnounces(w, name, j);
      var r' := EntryAnnounces(w, name', j');
      FrameTellsId(r, row);
      FrameTellsId(r', row');
    }
  }

  /** The `j`-th frame relayed to socket `h` of instance `i` is the frame of `row`. */
  ghost predicate Shown(w: World, i: nat, h: nat, j: nat, row: Row) {
    && i < |w.instances| && h < |w.instances[i].handlers| && j < |w.instances[i].handlers[h].got|
    && var s, c, k := w.instances[i], w.instances[i].handlers[h].conversationId, w.instances[i].handlers[h].got[j];
    && k < |Fan.Log(s, c)| && RowOk(row) && ReadPayload(Fan.Log(s, c)[k]) == Some(FrameOf(row))
  }

  lemma ShownIsAnnounced(w: World, i: nat, h: nat, j: nat) returns (row: Row)
    requires WorldOk(w) && i < |w.instances| && h < |w.instances[i].handlers| && j < |w.instances[i].handlers[h].got|
    ensures var c, k := w.instances[i].handlers[h].conversationId, w.instances[i].handlers[h].got[j];
            row in w.rows && row.conversationId == c && Shown(w, i, h, j, row) &&
            Announces(w, ConversationChannel(c), k, row)
  {
    var s := w.instances[i];
    var c, k := s.handlers[h].conversationId, s.handlers[h].got[j];
    assert FanOutInvariant.Inv(s) && Sees(s.logs, w.logs);
    assert FanOutInvariant.Relayable(Fan.LogOf(s.logs, c), k);
    assert Fan.LogOf(s.logs, c) == ChannelLog(w.logs, ConversationChannel(c));
    row := EntryAnnounces(w, ConversationChannel(c), k);
    ChannelInjective(c, row.conversationId);
  }

  /** End to end: on every history, every frame relayed to any client of any instance is the frame of a committed row
      of the conversation that the client's handler was opened for. */
  lemma DeliveredIsCommittedAndOwn(moves: seq<Move>, i: nat, h: nat, j: nat) returns (row: Row)
    requires History(EMPTY_WORLD, moves)
    requires var w := Later(EMPTY_WORLD, moves);
             i < |w.instances| && h < |w.instances[i].handlers| && j < |w.instances[i].handlers[h].got|
    ensures var w := Later(EMPTY_WORLD, moves);
            row in w.rows && row.conversationId == w.instances[i].handlers[h].conversationId && Shown(w, i, h, j, row)
  {
    HistoryKeeps(EMPTY_WORLD, moves);
    row := ShownIsAnnounced(Later(EMPTY_WORLD, moves), i, h, j);
  }

  /** And no client is shown the same message twice. */
  lemma ShownAtMostOnce(moves: seq<Move>, i: nat, h: nat, j: nat, row: Row, j': nat, row': Row)
    requires History(EMPTY_WORLD, moves)
    ensures var w := Later(EMPTY_WORLD, moves);
            Shown(w, i, h, j, row) && Shown(w, i, h, j', row') && row.id == row'.id ==> j == j'
  {
    HistoryKeeps(EMPTY_WORLD, moves);
    var w := Later(EMPTY_WORLD, moves);
    if Shown(w, i, h, j, row) && Shown(w, i, h, j', row') && row.id == row'.id {
      var r := ShownIsAnnounced(w, i, h, j);
      var r' := ShownIsAnnounced(w, i, h, j');
      FrameTellsId(r, row);
      FrameTellsId(r', row');
      var name, got := ConversationChannel(r.conversationId), w.instances[i].handlers[h].got;
      AnnouncedOnce(moves, name, got[j], r, name, got[j'], r');
      assert FanOutInvariant.Increasing(got);
    }
  }
}
