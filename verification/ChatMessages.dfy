/** What each kind of client message leads to, from the tree that arrives to the rows, frames and replies. */
module ChatMessages {
  import opened Ids
  import opened Frames
  import opened Chat

  // ----- the trees a client sends -----

  function Typed(tag: string): Json {
    JObject(map["type" := JString(tag)])
  }

  function TypedWith(tag: string, payload: map<string, Json>): Json {
    JObject(map["type" := JString(tag), "payload" := JObject(payload)])
  }

  /** One message, taken in and dealt with. */
  function Handled(ctx: Context, st: Ledger, raw: Raw, complaint: string, a: Answers): Ledger
    requires st.flow.Idle?
  {
    Settle(ctx, LedgerNext(ctx, st, Receive(raw, complaint)), a)
  }

  // ----- message.send -----

  lemma SendIsRead(text: string)
    ensures ValidateInbound(TypedWith("message.send", map["content" := JString(text)])) ==
      if 1 <= |Strip(text)| <= 16000 then Some(MessageSend(Strip(text))) else None
  {
  }

  lemma SendIsTakenIn(ctx: Context, st: Ledger, text: string, complaint: string)
    requires st.flow.Idle? && 1 <= |Strip(text)| <= 16000
    ensures var raw := Tree(TypedWith("message.send", map["content" := JString(text)]));
            LedgerNext(ctx, st, Receive(raw, complaint)) ==
            st.(flow := Persisting(Strip(text)), received := st.received + 1)
  {
    SendIsRead(text);
  }

  /** The stripped text is what is stored and announced for the user, and what the reply repeats. */
  lemma SentTextIsStored(ctx: Context, st: Ledger, text: string, complaint: string, a: Answers)
    requires st.flow.Idle? && 1 <= |Strip(text)| <= 16000 && Completes(ctx, st.rows, Strip(text), a)
    ensures var raw := Tree(TypedWith("message.send", map["content" := JString(text)]));
            var c, content := ctx.conversationId, Strip(text);
            var user := Row(a.userRow.id, c, Some(ctx.userId), UserRole, content, a.userRow.at);
            var answer := "Mock AI response: " + content;
            var reply := Row(a.replyRow.id, c, None, AssistantRole, answer, a.replyRow.at);
            Handled(ctx, st, raw, complaint, a) ==
            st.(rows := st.rows + [user] + [reply],
                published := st.published + [MessageCreated(user.id, c, ctx.userId, content, user.createdAt)]
                             + [AssistantMessage(reply.id, c, answer, reply.createdAt)],
                received := st.received + 1, userPublishes := st.userPublishes + 1, exchanges := st.exchanges + 1)
  {
    var content := Strip(text);
    StripFixpoint(text);
    ReplyIsStripped(content);
    SendIsTakenIn(ctx, st, text, complaint);
    ExchangeOutcome(ctx, st.(flow := Persisting(content), received := st.received + 1), content, a);
    FrameAgreesWithRow(UserRow(ctx, content, a.userRow.id, a.userRow.at));
    FrameAgreesWithRow(ReplyRow(ctx, content, a.replyRow.id, a.replyRow.at));
  }

  /** A failed commit and a failed publish are told apart. */
  lemma FailuresAreReported(persisted: Persisted)
    ensures StageError(persisted) ==
      if persisted.Committed? then
        ErrorMessage("message_publish_failed", "Message was saved but could not be delivered")
      else ErrorMessage("message_processing_failed", "Unable to process message")
  {
  }

  // ----- direct replies -----

  /** The message costs one direct reply and nothing else. */
  predicate RepliedWith(st: Ledger, rest: Ledger, reply: Frame, sends: bool) {
    rest == st.(flow := if sends then Idle else Ended, received := st.received + 1,
                sent := st.sent + (if sends then [reply] else []), lost := st.lost + (if sends then 0 else 1))
  }

  lemma ReplyIsSent(ctx: Context, st: Ledger, raw: Raw, complaint: string, a: Answers, reply: Frame)
    requires st.flow.Idle? && AfterReceive(raw, complaint) == Replying(reply)
    ensures RepliedWith(st, Handled(ctx, st, raw, complaint, a), reply, a.sends)
  {
    SettleReplying(ctx, LedgerNext(ctx, st, Receive(raw, complaint)), a);
  }

  lemma PingIsRead(nonce: string)
    ensures ValidateInbound(TypedWith("ping", map["nonce" := JString(nonce)])) == Some(Ping(Some(Strip(nonce))))
    ensures ValidateInbound(TypedWith("ping", map["nonce" := JNull])) == Some(Ping(None))
    ensures ValidateInbound(TypedWith("ping", map[])) == Some(Ping(None))
    ensures ValidateInbound(Typed("ping")) == Some(Ping(None))
  {
  }

  lemma PongIsRead(nonce: string)
    ensures ValidateInbound(TypedWith("pong", map["nonce" := JString(nonce)])) == Some(Pong(Some(Strip(nonce))))
    ensures ValidateInbound(TypedWith("pong", map["nonce" := JNull])) == Some(Pong(None))
    ensures ValidateInbound(TypedWith("pong", map[])) == Some(Pong(None))
    ensures ValidateInbound(Typed("pong")) == Some(Pong(None))
  {
  }

  /** A ping is answered with one pong, which carries its own stripped nonce. */
  lemma PingIsAnswered(ctx: Context, st: Ledger, nonce: string, complaint: string, a: Answers)
    requires st.flow.Idle?
    ensures var raw := Tree(TypedWith("ping", map["nonce" := JString(nonce)]));
            RepliedWith(st, Handled(ctx, st, raw, complaint, a), Pong(Some(Strip(nonce))), a.sends)
    ensures RepliedWith(st, Handled(ctx, st, Tree(Typed("ping")), complaint, a), Pong(None), a.sends)
  {
    var raw := Tree(TypedWith("ping", map["nonce" := JString(nonce)]));
    PingIsRead(nonce);
    StripFixpoint(nonce);
    ReplyIsSent(ctx, st, raw, complaint, a, Pong(Some(Strip(nonce))));
    ReplyIsSent(ctx, st, Tree(Typed("ping")), complaint, a, Pong(None));
  }

  /** A pong is not a message that the service supports. */
  lemma PongIsUnsupported(ctx: Context, st: Ledger, nonce: string, complaint: string, a: Answers)
    requires st.flow.Idle?
    ensures var reply := ErrorMessage("unsupported_message", "Unsupported WebSocket message type");
            && RepliedWith(st, Handled(ctx, st, Tree(Typed("pong")), complaint, a), reply, a.sends)
            && RepliedWith(st, Handled(ctx, st, Tree(TypedWith("pong", map["nonce" := JString(nonce)])), complaint, a),
                           reply, a.sends)
  {
    PongIsRead(nonce);
    ReplyIsSent(ctx, st, Tree(Typed("pong")), complaint, a, UNSUPPORTED);
    ReplyIsSent(ctx, st, Tree(TypedWith("pong", map["nonce" := JString(nonce)])), complaint, a, UNSUPPORTED);
  }

  /** Text that is not JSON. */
  lemma MalformedIsRefused(ctx: Context, st: Ledger, complaint: string, a: Answers)
    requires st.flow.Idle?
    ensures var reply := ErrorMessage("invalid_json", "Message must be valid JSON");
            RepliedWith(st, Handled(ctx, st, Malformed, complaint, a), reply, a.sends)
  {
    ReplyIsSent(ctx, st, Malformed, complaint, a, INVALID_JSON);
  }

  /** A tree that is no client message, with the text of the first complaint. */
  lemma InvalidIsRefused(ctx: Context, st: Ledger, json: Json, complaint: string, a: Answers)
    requires st.flow.Idle? && ValidateInbound(json) == None
    ensures var rest := Handled(ctx, st, Tree(json), complaint, a);
            RepliedWith(st, rest, ErrorMessage("invalid_message", Strip(complaint)), a.sends)
  {
    InvalidFrame(complaint);
    ReplyIsSent(ctx, st, Tree(json), complaint, a, InvalidMessage(complaint));
  }

  lemma InvalidFrame(complaint: string)
    ensures InvalidMessage(complaint) == ErrorMessage("invalid_message", Strip(complaint))
  {
    var code := "invalid_message";
    assert Stripped(code);
    StripFixpoint(code);
  }
}
