/** WebSocket frames: whitespace stripping, JSON trees, and the two discriminated unions. */
module Frames {
  import opened Ids

  // ----- str_strip_whitespace -----

  /** Unicode White_Space, the set the validator trims. */
  predicate IsSpace(c: char) {
    var n := c as int;
    || 0x9 <= n <= 0xD || n == 0x20 || n == 0x85 || n == 0xA0 || n == 0x1680
    || 0x2000 <= n <= 0x200A || n == 0x2028 || n == 0x2029 || n == 0x202F || n == 0x205F || n == 0x3000
  }

  lemma AsciiSpaces(c: char)
    requires c as int < 0x80
    ensures IsSpace(c) <==> c == ' ' || '\t' <= c <= '\r'
  {
  }

  predicate AllSpace(s: string) {
    forall i :: 0 <= i < |s| ==> IsSpace(s[i])
  }

  function TrimStart(s: string): string {
    if s != "" && IsSpace(s[0]) then TrimStart(s[1..]) else s
  }

  function TrimEnd(s: string): string {
    if s != "" && IsSpace(s[|s| - 1]) then TrimEnd(s[..|s| - 1]) else s
  }

  function Strip(s: string): string {
    TrimEnd(TrimStart(s))
  }

  /** Has no white space at either end. */
  predicate Stripped(s: string) {
    s == "" || (!IsSpace(s[0]) && !IsSpace(s[|s| - 1]))
  }

  lemma {:induction false} TrimStartSplits(s: string) returns (before: string)
    ensures s == before + TrimStart(s) && AllSpace(before)
    ensures TrimStart(s) == "" || !IsSpace(TrimStart(s)[0])
  {
    if s != "" && IsSpace(s[0]) {
      var rest := TrimStartSplits(s[1..]);
      before := [s[0]] + rest;
    } else {
      before := "";
    }
  }

  lemma {:induction false} TrimEndSplits(s: string) returns (after: string)
    ensures s == TrimEnd(s) + after && AllSpace(after)
    ensures TrimEnd(s) == "" || !IsSpace(TrimEnd(s)[|TrimEnd(s)| - 1])
  {
    if s != "" && IsSpace(s[|s| - 1]) {
      var rest := TrimEndSplits(s[..|s| - 1]);
      after := rest + [s[|s| - 1]];
      assert s == s[..|s| - 1] + [s[|s| - 1]];
    } else {
      after := "";
    }
  }

  /** Stripping removes white space at both ends and nothing else. */
  lemma StripSplits(s: string) returns (before: string, after: string)
    ensures s == before + Strip(s) + after
    ensures AllSpace(before) && AllSpace(after) && Stripped(Strip(s))
  {
    before := TrimStartSplits(s);
    after := TrimEndSplits(TrimStart(s));
    assert before + (Strip(s) + after) == before + Strip(s) + after;
    if Strip(s) != "" {
      assert Strip(s)[0] == TrimStart(s)[0];
    }
  }

  /** Stripping is idempotent, and its fixpoints are exactly the stripped strings. */
  lemma StripFixpoint(s: string)
    ensures Stripped(Strip(s))
    ensures Strip(Strip(s)) == Strip(s)
    ensures Strip(s) == s <==> Stripped(s)
  {
    var _, _ := StripSplits(s);
  }

  // ----- the mock reply -----

  const REPLY_PREFIX: string := "Mock AI response: "

  function MockAssistantReply(userContent: string): string {
    REPLY_PREFIX + userContent
  }

  /** The reply to a nonempty stripped text survives stripping, so row and frame agree on it. */
  lemma ReplyIsStripped(userContent: string)
    requires userContent != "" && Stripped(userContent)
    ensures Stripped(MockAssistantReply(userContent))
  {
    var reply := MockAssistantReply(userContent);
    assert reply[0] == 'M' && reply[|reply| - 1] == userContent[|userContent| - 1];
  }

  // ----- JSON trees -----

  /** An instant; its text form is outside the model. */
  type Timestamp = nat

  datatype Json =
    | JNull
    | JBool(b: bool)
    | JNumber(n: int)
    | JString(s: string)
    | JTime(t: Timestamp)
    | JArray(items: seq<Json>)
    | JObject(fields: map<string, Json>)

  // ----- frames -----

  const MAX_CONTENT: nat := 16000

  datatype Frame =
    | MessageSend(content: string)
    | MessageCreated(id: Uuid, conversationId: Uuid, senderId: Uuid, content: string, createdAt: Timestamp)
    | AssistantMessage(id: Uuid, conversationId: Uuid, content: string, createdAt: Timestamp)
    | ErrorMessage(code: string, message: string)
    | Ping(nonce: Option<string>)
    | Pong(nonce: Option<string>)

  function StripOption(nonce: Option<string>): Option<string> {
    match nonce
    case None => None
    case Some(s) => Some(Strip(s))
  }

  /** What constructing the model does to the strings it is given. */
  function Construct(f: Frame): Frame {
    match f
    case MessageSend(content) => MessageSend(Strip(content))
    case MessageCreated(id, c, sender, content, at) => MessageCreated(id, c, sender, Strip(content), at)
    case AssistantMessage(id, c, content, at) => AssistantMessage(id, c, Strip(content), at)
    case ErrorMessage(code, message) => ErrorMessage(Strip(code), Strip(message))
    case Ping(nonce) => Ping(StripOption(nonce))
    case Pong(nonce) => Pong(StripOption(nonce))
  }

  predicate StrippedOption(nonce: Option<string>) {
    nonce.Some? ==> Stripped(nonce.value)
  }

  predicate Constructed(f: Frame) {
    match f
    case MessageSend(content) => Stripped(content)
    case MessageCreated(_, _, _, content, _) => Stripped(content)
    case AssistantMessage(_, _, content, _) => Stripped(content)
    case ErrorMessage(code, message) => Stripped(code) && Stripped(message)
    case Ping(nonce) => StrippedOption(nonce)
    case Pong(nonce) => StrippedOption(nonce)
  }

  lemma ConstructFixpoint(f: Frame)
    ensures Constructed(Construct(f))
    ensures Construct(f) == f <==> Constructed(f)
  {
    match f
    case MessageSend(content) => StripFixpoint(content);
    case MessageCreated(_, _, _, content, _) => StripFixpoint(content);
    case AssistantMessage(_, _, content, _) => StripFixpoint(content);
    case ErrorMessage(code, message) => StripFixpoint(code); StripFixpoint(message);
    case Ping(nonce) => if nonce.Some? { StripFixpoint(nonce.value); }
    case Pong(nonce) => if nonce.Some? { StripFixpoint(nonce.value); }
  }

  // ----- model_dump -----

  function Tag(f: Frame): string {
    match f
    case MessageSend(_) => "message.send"
    case MessageCreated(_, _, _, _, _) => "message.created"
    case AssistantMessage(_, _, _, _) => "assistant.message"
    case ErrorMessage(_, _) => "error"
    case Ping(_) => "ping"
    case Pong(_) => "pong"
  }

  function DumpNonce(nonce: Option<string>): map<string, Json> {
    map["nonce" := match nonce case None => JNull case Some(s) => JString(s)]
  }

  function DumpPayload(f: Frame): map<string, Json> {
    match f
    case MessageSend(content) => map["content" := JString(content)]
    case MessageCreated(id, c, sender, content, at) =>
      map["id" := JString(UuidText(id)), "conversation_id" := JString(UuidText(c)),
          "sender_id" := JString(UuidText(sender)), "role" := JString("user"),
          "content" := JString(content), "created_at" := JTime(at)]
    case AssistantMessage(id, c, content, at) =>
      map["id" := JString(UuidText(id)), "conversation_id" := JString(UuidText(c)),
          "role" := JString("assistant"), "content" := JString(content), "created_at" := JTime(at)]
    case ErrorMessage(code, message) => map["code" := JString(code), "message" := JString(message)]
    case Ping(nonce) => DumpNonce(nonce)
    case Pong(nonce) => DumpNonce(nonce)
  }

  function Dump(f: Frame): Json {
    JObject(map["type" := JString(Tag(f)), "payload" := JObject(DumpPayload(f))])
  }

  // ----- validation -----

  function TextField(m: map<string, Json>, key: string): Option<string> {
    if key in m && m[key].JString? then Some(Strip(m[key].s)) else None
  }

  function UuidField(m: map<string, Json>, key: string): Option<Uuid> {
    if key in m && m[key].JString? then ParseUuid(m[key].s) else None
  }

  function TimeField(m: map<string, Json>, key: string): Option<Timestamp> {
    if key in m && m[key].JTime? then Some(m[key].t) else None
  }

  /** A literal with a default: it may be missing, but not different. */
  predicate RoleAgrees(m: map<string, Json>, role: string) {
    "role" in m ==> m["role"] == JString(role)
  }

  /** `nonce: str | None = None`; the outer None is a rejection. */
  function NonceField(m: map<string, Json>): Option<Option<string>> {
    if "nonce" !in m || m["nonce"] == JNull then Some(None)
    else if m["nonce"].JString? then Some(Some(Strip(m["nonce"].s)))
    else None
  }

  /** The payload object; `defaults` says whether a missing one is built empty. */
  function PayloadField(m: map<string, Json>, defaults: bool): Option<map<string, Json>> {
    if "payload" !in m then if defaults then Some(map[]) else None
    else if m["payload"].JObject? then Some(m["payload"].fields)
    else None
  }

  function ValidateCreated(p: map<string, Json>): Option<Frame> {
    var id, c, sender := UuidField(p, "id"), UuidField(p, "conversation_id"), UuidField(p, "sender_id");
    var content, at := TextField(p, "content"), TimeField(p, "created_at");
    if id.Some? && c.Some? && sender.Some? && content.Some? && at.Some? && RoleAgrees(p, "user") then
      Some(MessageCreated(id.value, c.value, sender.value, content.value, at.value))
    else None
  }

  function ValidateAssistant(p: map<string, Json>): Option<Frame> {
    var id, c := UuidField(p, "id"), UuidField(p, "conversation_id");
    var content, at := TextField(p, "content"), TimeField(p, "created_at");
    if id.Some? && c.Some? && content.Some? && at.Some? && RoleAgrees(p, "assistant") then
      Some(AssistantMessage(id.value, c.value, content.value, at.value))
    else None
  }

  function ValidateError(p: map<string, Json>): Option<Frame> {
    var code, message := TextField(p, "code"), TextField(p, "message");
    if code.Some? && message.Some? then Some(ErrorMessage(code.value, message.value)) else None
  }

  /** The length bounds apply to the stripped text. */
  function ValidateSend(p: map<string, Json>): Option<Frame> {
    var content := TextField(p, "content");
    if content.Some? && 1 <= |content.value| <= MAX_CONTENT then Some(MessageSend(content.value)) else None
  }

  /** The nonce of a ping or pong message. */
  function PingNonce(m: map<string, Json>): Option<Option<string>> {
    var p := PayloadField(m, true);
    if p.Some? then NonceField(p.value) else None
  }

  function ValidatePing(m: map<string, Json>): Option<Frame> {
    var nonce := PingNonce(m);
    if nonce.Some? then Some(Ping(nonce.value)) else None
  }

  function ValidatePong(m: map<string, Json>): Option<Frame> {
    var nonce := PingNonce(m);
    if nonce.Some? then Some(Pong(nonce.value)) else None
  }

  /** The discriminator: an object whose `type` is this text. */
  predicate Tagged(j: Json, tag: string) {
    j.JObject? && "type" in j.fields && j.fields["type"] == JString(tag)
  }

  /** The union a client frame is read through. */
  function ValidateInbound(j: Json): Option<Frame> {
    if Tagged(j, "message.send") then
      var p := PayloadField(j.fields, false);
      if p.Some? then ValidateSend(p.value) else None
    else if Tagged(j, "ping") then ValidatePing(j.fields)
    else if Tagged(j, "pong") then ValidatePong(j.fields)
    else None
  }

  /** The union a relayed frame is read through. */
  function ValidateOutbound(j: Json): Option<Frame> {
    if Tagged(j, "ping") then ValidatePing(j.fields)
    else if Tagged(j, "pong") then ValidatePong(j.fields)
    else if !j.JObject? then None
    else
      var p := PayloadField(j.fields, false);
      if p.None? then None
      else if Tagged(j, "message.created") then ValidateCreated(p.value)
      else if Tagged(j, "assistant.message") then ValidateAssistant(p.value)
      else if Tagged(j, "error") then ValidateError(p.value)
      else None
  }

  /** Dumping an outbound frame and validating the tree constructs the frame again. */
  lemma DumpThenValidate(f: Frame)
    requires !f.MessageSend?
    ensures ValidateOutbound(Dump(f)) == Some(Construct(f))
  {
    forall tag: string ensures Tagged(Dump(f), tag) <==> tag == Tag(f) { DumpIsTagged(f, tag); }
    DumpIsTagged(f, Tag(f));
    if f.MessageCreated? {
      CreatedRoundTrip(f);
    } else if f.AssistantMessage? {
      AssistantRoundTrip(f);
    } else if f.ErrorMessage? {
      ErrorRoundTrip(f);
    } else {
      PingRoundTrip(f);
    }
  }

  lemma ErrorRoundTrip(f: Frame)
    requires f.ErrorMessage?
    ensures ValidateError(DumpPayload(f)) == Some(Construct(f))
  {
  }

  lemma PingRoundTrip(f: Frame)
    requires f.Ping? || f.Pong?
    ensures Dump(f).JObject? && PingNonce(Dump(f).fields) == Some(Construct(f).nonce)
  {
    assert Dump(f).fields["payload"] == JObject(DumpPayload(f));
  }

  lemma DumpIsTagged(f: Frame, tag: string)
    ensures Tagged(Dump(f), tag) <==> tag == Tag(f)
    ensures Dump(f).JObject? && PayloadField(Dump(f).fields, false) == Some(DumpPayload(f))
  {
    assert Dump(f).fields["payload"] == JObject(DumpPayload(f));
  }

  lemma CreatedRoundTrip(f: Frame)
    requires f.MessageCreated?
    ensures ValidateCreated(DumpPayload(f)) == Some(Construct(f))
  {
    UuidRoundTrip(f.id);
    UuidRoundTrip(f.conversationId);
    UuidRoundTrip(f.senderId);
  }

  lemma AssistantRoundTrip(f: Frame)
    requires f.AssistantMessage?
    ensures ValidateAssistant(DumpPayload(f)) == Some(Construct(f))
  {
    UuidRoundTrip(f.id);
    UuidRoundTrip(f.conversationId);
  }

  /** The round trip is exact for the constructed frames and for no others. */
  lemma OutboundRoundTrip(f: Frame)
    requires !f.MessageSend?
    ensures ValidateOutbound(Dump(f)) == Some(f) <==> Constructed(f)
  {
    DumpThenValidate(f);
    ConstructFixpoint(f);
  }

  lemma ValidatedIsConstructed(j: Json)
    ensures ValidateOutbound(j).Some? ==>
      Constructed(ValidateOutbound(j).value) && !ValidateOutbound(j).value.MessageSend?
    ensures ValidateInbound(j).Some? ==> Constructed(ValidateInbound(j).value)
  {
    forall s: string ensures Stripped(Strip(s)) { StripFixpoint(s); }
  }

  /** Whatever arrived, the frame that is relayed on reads back as itself, however many hops follow. */
  lemma RelayIsStable(j: Json)
    requires ValidateOutbound(j).Some?
    ensures ValidateOutbound(Dump(ValidateOutbound(j).value)) == ValidateOutbound(j)
  {
    ValidatedIsConstructed(j);
    OutboundRoundTrip(ValidateOutbound(j).value);
  }

  /** An accepted client text is stripped, nonempty and within the bound; a text that is blank or too long
      once stripped is refused. */
  lemma InboundContent(content: string)
    ensures ValidateInbound(Dump(MessageSend(content))) ==
      if 1 <= |Strip(content)| <= MAX_CONTENT then Some(MessageSend(Strip(content))) else None
    ensures AllSpace(content) ==> ValidateInbound(Dump(MessageSend(content))) == None
  {
    if AllSpace(content) {
      var before, after := StripSplits(content);
      assert Strip(content) == content[|before|..|content| - |after|];
    }
  }

  lemma InboundIsBounded(j: Json)
    requires ValidateInbound(j).Some? && ValidateInbound(j).value.MessageSend?
    ensures var content := ValidateInbound(j).value.content;
            1 <= |content| <= MAX_CONTENT && Stripped(content) && Stripped(MockAssistantReply(content))
  {
    ValidatedIsConstructed(j);
    ReplyIsStripped(ValidateInbound(j).value.content);
  }

  // ----- the wire -----

  /** An object with these keys and no others. */
  predicate HasKeys(j: Json, keys: set<string>) {
    j.JObject? && j.fields.Keys == keys
  }

  /** The text under a key of an object. */
  predicate Holds(j: Json, key: string, text: string) {
    j.JObject? && key in j.fields && j.fields[key] == JString(text)
  }

  /** What goes over the wire: a type and a payload, nothing else. */
  lemma WireEnvelope(f: Frame)
    ensures HasKeys(Dump(f), {"type", "payload"}) && Dump(f).fields["payload"].JObject?
    ensures Dump(f).fields["payload"].fields == DumpPayload(f)
    ensures f.MessageSend? ==> Holds(Dump(f), "type", "message.send")
    ensures f.MessageCreated? ==> Holds(Dump(f), "type", "message.created")
    ensures f.AssistantMessage? ==> Holds(Dump(f), "type", "assistant.message")
    ensures f.ErrorMessage? ==> Holds(Dump(f), "type", "error")
    ensures f.Ping? ==> Holds(Dump(f), "type", "ping")
    ensures f.Pong? ==> Holds(Dump(f), "type", "pong")
  {
    assert Dump(f).fields["payload"] == JObject(DumpPayload(f));
  }

  /** A user message names its sender and says that its role is the user's. */
  lemma WireMessageCreated(f: Frame)
    requires f.MessageCreated?
    ensures var p := JObject(DumpPayload(f));
            && HasKeys(p, {"id", "conversation_id", "sender_id", "role", "content", "created_at"})
            && Holds(p, "id", UuidText(f.id)) && Holds(p, "conversation_id", UuidText(f.conversationId))
            && Holds(p, "sender_id", UuidText(f.senderId)) && Holds(p, "role", "user")
            && Holds(p, "content", f.content) && p.fields["created_at"] == JTime(f.createdAt)
  {
  }

  /** A reply has no sender, and its role is the assistant's. */
  lemma WireAssistantMessage(f: Frame)
    requires f.AssistantMessage?
    ensures var p := JObject(DumpPayload(f));
            && HasKeys(p, {"id", "conversation_id", "role", "content", "created_at"})
            && Holds(p, "id", UuidText(f.id)) && Holds(p, "conversation_id", UuidText(f.conversationId))
            && Holds(p, "role", "assistant")
            && Holds(p, "content", f.content) && p.fields["created_at"] == JTime(f.createdAt)
  {
  }

  lemma WireOthers(f: Frame)
    ensures f.MessageSend? ==>
      var p := JObject(DumpPayload(f)); HasKeys(p, {"content"}) && Holds(p, "content", f.content)
    ensures f.ErrorMessage? ==>
      var p := JObject(DumpPayload(f));
      HasKeys(p, {"code", "message"}) && Holds(p, "code", f.code) && Holds(p, "message", f.message)
    // a missing nonce is written out as null
    ensures f.Ping? || f.Pong? ==>
      var p := JObject(DumpPayload(f));
      && HasKeys(p, {"nonce"})
      && p.fields["nonce"] == (if f.nonce.Some? then JString(f.nonce.value) else JNull)
  {
  }

  /** The type decides which frame a tree is read as. */
  lemma TypeDecides(j: Json)
    ensures ValidateInbound(j).Some? ==> Holds(j, "type", Tag(ValidateInbound(j).value))
    ensures ValidateOutbound(j).Some? ==> Holds(j, "type", Tag(ValidateOutbound(j).value))
    ensures ValidateInbound(j).Some? ==>
      var f := ValidateInbound(j).value; f.MessageSend? || f.Ping? || f.Pong?
    ensures ValidateOutbound(j).Some? ==> !ValidateOutbound(j).value.MessageSend?
  {
  }

  /** A payload that lacks a field without a default, or has another role, is refused. */
  lemma IncompleteIsRefused(p: map<string, Json>)
    ensures "id" !in p || "conversation_id" !in p || "sender_id" !in p || "content" !in p || "created_at" !in p ==>
      ValidateCreated(p) == None
    ensures "id" !in p || "conversation_id" !in p || "content" !in p || "created_at" !in p ==>
      ValidateAssistant(p) == None
    ensures "code" !in p || "message" !in p ==> ValidateError(p) == None
    ensures "content" !in p ==> ValidateSend(p) == None
    ensures "role" in p && p["role"] != JString("user") ==> ValidateCreated(p) == None
    ensures "role" in p && p["role"] != JString("assistant") ==> ValidateAssistant(p) == None
  {
  }

  /** A field of another kind is refused, and so is a payload that is no object. */
  lemma WrongKindIsRefused(m: map<string, Json>, key: string)
    requires key in m
    ensures !m[key].JString? ==> TextField(m, key) == None && UuidField(m, key) == None
    ensures !m[key].JTime? ==> TimeField(m, key) == None
    ensures key == "nonce" && m[key] != JNull && !m[key].JString? ==> NonceField(m) == None
    ensures key == "payload" && !m[key].JObject? ==> PayloadField(m, true) == None && PayloadField(m, false) == None
  {
  }

  // ----- Redis payloads -----

  /** What a channel carries: text that `json.loads` reads, or text that it refuses. */
  datatype Payload = Text(tree: Json) | Garbage

  function Serialize(f: Frame): Payload {
    Text(Dump(f))
  }

  /** The frame that `_handle_message` relays; None when it logs a warning and drops the payload. */
  function ReadPayload(p: Payload): Option<Frame> {
    match p
    case Text(tree) => ValidateOutbound(tree)
    case Garbage => None
  }

  /** Text that is not JSON, and JSON that is no outbound frame, are dropped; anything else is relayed. */
  lemma PayloadIsRelayed(p: Payload)
    ensures ReadPayload(p).Some? <==> p.Text? && ValidateOutbound(p.tree).Some?
    ensures ReadPayload(p).Some? ==> ReadPayload(Serialize(ReadPayload(p).value)) == ReadPayload(p)
  {
    if p.Text? && ValidateOutbound(p.tree).Some? {
      RelayIsStable(p.tree);
    }
  }
}
