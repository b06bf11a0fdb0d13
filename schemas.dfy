/** The wire protocol between the server and the mobile client: the inbound
    (client to server) and outbound (server to client) envelopes, the REST
    shapes, and the validation the inbound schema performs on a parsed JSON
    value. */
module Schemas {
  import opened Wrappers

  /** A JSON value, as `JSON.parse` returns it. */
  datatype Json =
    | JNull
    | JBool(b: bool)
    | JNum(n: real)
    | JStr(s: string)
    | JArr(items: seq<Json>)
    | JObj(fields: map<string, Json>)

  datatype Direction = Above | Below
  datatype Role = User | Agent

  // ---------------------------------------------------------------------------
  // Inbound (client to server)
  // ---------------------------------------------------------------------------

  datatype Inbound =
    | Prompt(prompt: string, sessionId: Option<string>)
    | Ping
    | TxSigned(txId: string, signature: string)
    | TxRejected(txId: string, reason: Option<string>)

  /** The constraint the schema adds to the shape of an inbound envelope:
      a prompt is at least one character long. */
  predicate ValidInbound(m: Inbound) {
    m.Prompt? ==> |m.prompt| >= 1
  }

  function InboundTag(m: Inbound): string {
    match m
    case Prompt(_, _) => "prompt"
    case Ping => "ping"
    case TxSigned(_, _) => "tx_signed"
    case TxRejected(_, _) => "tx_rejected"
  }

  /** The value stored under `key` when `j` is an object holding that key. */
  function Get(j: Json, key: string): Option<Json> {
    if j.JObj? && key in j.fields then Some(j.fields[key]) else None
  }

  /** A required string field: absent or non-string fails. */
  function RequiredString(v: Option<Json>): Option<string> {
    if v.Some? && v.value.JStr? then Some(v.value.s) else None
  }

  /** An optional string field: `Some(None)` when the key is absent,
      `Some(Some(s))` for a string, `None` (failure) for any other value,
      `null` included. */
  function OptionalString(v: Option<Json>): Option<Option<string>> {
    if v.None? then Some(None)
    else if v.value.JStr? then Some(Some(v.value.s))
    else None
  }

  /** The prompt payload: `prompt` a string of length at least one, and
      `session_id` an optional string. Unknown keys are ignored. */
  function ParsePromptPayload(p: Json): (r: Option<Inbound>)
    ensures r.Some? ==> r.value.Prompt? && ValidInbound(r.value)
  {
    if !p.JObj? then None
    else
      var prompt := RequiredString(Get(p, "prompt"));
      var sid := OptionalString(Get(p, "session_id"));
      if prompt.Some? && |prompt.value| >= 1 && sid.Some? then Some(Prompt(prompt.value, sid.value))
      else None
  }

  /** The inbound discriminated union: the `type` field selects one of the
      four envelope shapes, and anything else is refused. */
  function ParseInbound(j: Json): (r: Option<Inbound>)
    ensures r.Some? ==> ValidInbound(r.value)
    ensures r.Some? ==> Get(j, "type") == Some(JStr(InboundTag(r.value)))
  {
    if !j.JObj? then None
    else
      var tag := Get(j, "type");
      var payload := Get(j, "payload");
      if tag == Some(JStr("prompt")) then
        if payload.Some? then ParsePromptPayload(payload.value) else None
      else if tag == Some(JStr("ping")) then
        Some(Ping)
      else if tag == Some(JStr("tx_signed")) then
        if payload.Some? && payload.value.JObj? then
          var txId := RequiredString(Get(payload.value, "tx_id"));
          var signature := RequiredString(Get(payload.value, "signature"));
          if txId.Some? && signature.Some? then Some(TxSigned(txId.value, signature.value)) else None
        else None
      else if tag == Some(JStr("tx_rejected")) then
        if payload.Some? && payload.value.JObj? then
          var txId := RequiredString(Get(payload.value, "tx_id"));
          var reason := OptionalString(Get(payload.value, "reason"));
          if txId.Some? && reason.Some? then Some(TxRejected(txId.value, reason.value)) else None
        else None
      else None
  }

  /** The JSON a client builds for an inbound envelope (an absent optional
      field is left out of the object). */
  function InboundToJson(m: Inbound): (j: Json)
    ensures j.JObj? && Get(j, "type") == Some(JStr(InboundTag(m)))
    ensures Get(j, "payload").Some? <==> !m.Ping?
  {
    match m
    case Prompt(prompt, sid) =>
      var payload := map["prompt" := JStr(prompt)];
      JObj(map["type" := JStr("prompt"),
               "payload" := JObj(if sid.Some? then payload["session_id" := JStr(sid.value)] else payload)])
    case Ping => JObj(map["type" := JStr("ping")])
    case TxSigned(txId, signature) =>
      JObj(map["type" := JStr("tx_signed"),
               "payload" := JObj(map["tx_id" := JStr(txId), "signature" := JStr(signature)])])
    case TxRejected(txId, reason) =>
      var payload := map["tx_id" := JStr(txId)];
      JObj(map["type" := JStr("tx_rejected"),
               "payload" := JObj(if reason.Some? then payload["reason" := JStr(reason.value)] else payload)])
  }

  /** Every valid envelope survives encoding and validation unchanged. */
  lemma InboundRoundTrip(m: Inbound)
    requires ValidInbound(m)
    ensures ParseInbound(InboundToJson(m)) == Some(m)
  {
    match m
    case Prompt(prompt, sid) =>
      var pl := Get(InboundToJson(m), "payload").value;
      assert Get(pl, "prompt") == Some(JStr(prompt));
      assert sid.None? ==> Get(pl, "session_id") == None;
    case Ping =>
    case TxSigned(_, _) =>
    case TxRejected(txId, reason) =>
      var pl := Get(InboundToJson(m), "payload").value;
      assert reason.None? ==> Get(pl, "reason") == None;
  }

  /** A frame is accepted as a prompt exactly when it is an object tagged
      `prompt` whose payload holds a non-empty `prompt` string and, if present,
      a string `session_id`. */
  lemma ParsePromptExactly(j: Json, prompt: string, sid: Option<string>)
    ensures ParseInbound(j) == Some(Prompt(prompt, sid)) <==>
      (Get(j, "type") == Some(JStr("prompt")) && Get(j, "payload").Some? &&
       var pl := Get(j, "payload").value;
       Get(pl, "prompt") == Some(JStr(prompt)) && |prompt| >= 1 &&
       Get(pl, "session_id") == (if sid.Some? then Some(JStr(sid.value)) else None))
  {
  }

  /** `tx_signed` needs both identifiers; `tx_rejected` needs the tx id and
      accepts a missing reason. */
  lemma ParseTxAcksExactly(j: Json, txId: string, signature: string, reason: Option<string>)
    ensures ParseInbound(j) == Some(TxSigned(txId, signature)) <==>
      (Get(j, "type") == Some(JStr("tx_signed")) && Get(j, "payload").Some? &&
       Get(Get(j, "payload").value, "tx_id") == Some(JStr(txId)) &&
       Get(Get(j, "payload").value, "signature") == Some(JStr(signature)))
    ensures ParseInbound(j) == Some(TxRejected(txId, reason)) <==>
      (Get(j, "type") == Some(JStr("tx_rejected")) && Get(j, "payload").Some? &&
       Get(Get(j, "payload").value, "tx_id") == Some(JStr(txId)) &&
       Get(Get(j, "payload").value, "reason") == (if reason.Some? then Some(JStr(reason.value)) else None))
  {
  }

  /** Only the four inbound tags are ever accepted. */
  lemma InboundTagsExactly(j: Json)
    requires ParseInbound(j).Some?
    ensures Get(j, "type") in {Some(JStr("prompt")), Some(JStr("ping")), Some(JStr("tx_signed")), Some(JStr("tx_rejected"))}
  {
  }

  // ---------------------------------------------------------------------------
  // Outbound (server to client)
  // ---------------------------------------------------------------------------

  datatype Trigger = Trigger(alertId: int, token: string, targetPrice: real, triggeredPrice: real, direction: Direction)

  /** A signing request. `expiresAt` is in epoch milliseconds. `reason` is not
      part of the schema but the agent's signing tool sends it. */
  datatype SigningRequest = SigningRequest(
    txId: string, fromToken: string, toToken: string, amount: real,
    serializedTx: string, trigger: Trigger, expiresAt: int, reason: Option<string>)

  datatype Outbound =
    | AgentDelta(sessionId: string, text: string)
    | AgentDone(sessionId: string, text: string)
    | ToolCall(sessionId: string, tool: string, input: Json)
    | ToolResult(sessionId: string, tool: string, output: Json)
    | Error(sessionId: string, message: string)
    | Pong
    | TxSigningRequest(request: SigningRequest)

  function OutboundTag(m: Outbound): string {
    match m
    case AgentDelta(_, _) => "agent_delta"
    case AgentDone(_, _) => "agent_done"
    case ToolCall(_, _, _) => "tool_call"
    case ToolResult(_, _, _) => "tool_result"
    case Error(_, _) => "error"
    case Pong => "pong"
    case TxSigningRequest(_) => "tx_signing_request"
  }

  predicate SameShape(a: Outbound, b: Outbound) {
    (a.AgentDelta? && b.AgentDelta?) || (a.AgentDone? && b.AgentDone?) ||
    (a.ToolCall? && b.ToolCall?) || (a.ToolResult? && b.ToolResult?) ||
    (a.Error? && b.Error?) || (a.Pong? && b.Pong?) ||
    (a.TxSigningRequest? && b.TxSigningRequest?)
  }

  /** The outbound union is discriminated: two envelopes carry the same tag
      exactly when they have the same shape. */
  lemma OutboundTagDiscriminates(a: Outbound, b: Outbound)
    ensures OutboundTag(a) == OutboundTag(b) <==> SameShape(a, b)
  {
  }

  const OutboundTags: set<string> :=
    {"agent_delta", "agent_done", "tool_call", "tool_result", "error", "pong", "tx_signing_request"}

  /** There are exactly seven outbound tags, and each one is used. */
  lemma OutboundTagsExactly()
    ensures |OutboundTags| == 7
    ensures forall m :: OutboundTag(m) in OutboundTags
    ensures forall t :: t in OutboundTags ==> exists m :: OutboundTag(m) == t
  {
    assert OutboundTag(AgentDelta("", "")) == "agent_delta";
    assert OutboundTag(AgentDone("", "")) == "agent_done";
    assert OutboundTag(ToolCall("", "", JNull)) == "tool_call";
    assert OutboundTag(ToolResult("", "", JNull)) == "tool_result";
    assert OutboundTag(Error("", "")) == "error";
    assert OutboundTag(Pong) == "pong";
    assert OutboundTag(TxSigningRequest(SigningRequest("", "", "", 0.0, "", Trigger(0, "", 0.0, 0.0, Below), 0, None))) == "tx_signing_request";
  }

  // ---------------------------------------------------------------------------
  // REST shapes
  // ---------------------------------------------------------------------------

  /** A transcript row as the history endpoint returns it. */
  datatype RestMessage = RestMessage(id: real, sessionId: string, role: Role, content: string, createdAt: string)

  function ParseRole(v: Option<Json>): (r: Option<Role>)
    ensures r == Some(User) <==> v == Some(JStr("user"))
    ensures r == Some(Agent) <==> v == Some(JStr("agent"))
  {
    if v == Some(JStr("user")) then Some(User)
    else if v == Some(JStr("agent")) then Some(Agent)
    else None
  }

  /** The REST message schema: an object whose `id` is a number, whose
      `session_id`, `content` and `created_at` are strings and whose `role`
      is `user` or `agent`; the parsed row holds those values. */
  function ParseRestMessage(j: Json): (r: Option<RestMessage>)
    ensures r.Some? <==>
      && j.JObj?
      && "id" in j.fields && j.fields["id"].JNum?
      && "session_id" in j.fields && j.fields["session_id"].JStr?
      && "role" in j.fields && (j.fields["role"] == JStr("user") || j.fields["role"] == JStr("agent"))
      && "content" in j.fields && j.fields["content"].JStr?
      && "created_at" in j.fields && j.fields["created_at"].JStr?
    ensures r.Some? ==>
      && r.value.id == j.fields["id"].n
      && r.value.sessionId == j.fields["session_id"].s
      && (r.value.role == User <==> j.fields["role"] == JStr("user"))
      && r.value.content == j.fields["content"].s
      && r.value.createdAt == j.fields["created_at"].s
  {
    var id := Get(j, "id");
    var sid := RequiredString(Get(j, "session_id"));
    var role := ParseRole(Get(j, "role"));
    var content := RequiredString(Get(j, "content"));
    var created := RequiredString(Get(j, "created_at"));
    if id.Some? && id.value.JNum? && sid.Some? && role.Some? && content.Some? && created.Some? then
      Some(RestMessage(id.value.n, sid.value, role.value, content.value, created.value))
    else None
  }

  /** The REST prompt request has the prompt payload's shape, so one parse
      serves both: a non-empty `prompt` and an optional `session_id`. */
  lemma PromptRequestShape(j: Json)
    ensures ParsePromptPayload(j).Some? <==>
      (RequiredString(Get(j, "prompt")).Some? && |RequiredString(Get(j, "prompt")).value| >= 1 &&
       OptionalString(Get(j, "session_id")).Some?)
  {
  }
}
