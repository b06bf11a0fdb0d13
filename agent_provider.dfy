/** The mobile client's agent state: the transcript and its reducers for
    streamed replies, the tool and thinking indicators, the signing request
    awaiting the user, the frames the client sends, and the reconnect
    backoff. */
module AgentProvider {
  import opened Wrappers
  import opened Strings
  import opened Schemas
  import opened Seqs

  datatype ChatMessage = ChatMessage(id: string, role: Role, content: string, streaming: bool)

  datatype ToolActivity = ToolActivity(tool: string, input: Json)

  datatype ConnectionStatus = Connecting | Connected | Disconnected

  // ---------------------------------------------------------------------------
  // Transcript reducers
  // ---------------------------------------------------------------------------

  /** The transcript's last message is still being streamed. */
  predicate Streaming(ms: seq<ChatMessage>) {
    |ms| > 0 && ms[|ms| - 1].streaming
  }

  /** `agent_delta`: a streaming last message grows by `text`; otherwise a
      new streaming agent message holding `text` is appended. */
  function ApplyDelta(prev: seq<ChatMessage>, text: string, freshId: string): (r: seq<ChatMessage>)
    ensures Streaming(r)
    ensures Streaming(prev) ==>
      |r| == |prev| && r[..|r| - 1] == prev[..|prev| - 1] &&
      r[|r| - 1] == prev[|prev| - 1].(content := prev[|prev| - 1].content + text)
    ensures !Streaming(prev) ==> r == prev + [ChatMessage(freshId, Agent, text, true)]
  {
    if Streaming(prev) then
      var last := prev[|prev| - 1];
      prev[..|prev| - 1] + [last.(content := last.content + text)]
    else prev + [ChatMessage(freshId, Agent, text, true)]
  }

  /** `agent_done`: a streaming last message takes `text` as its content and
      stops streaming; otherwise the transcript is unchanged. */
  function ApplyDone(prev: seq<ChatMessage>, text: string): (r: seq<ChatMessage>)
    ensures |r| == |prev| && !Streaming(r)
    ensures Streaming(prev) ==>
      r[..|r| - 1] == prev[..|prev| - 1] && r[|r| - 1] == prev[|prev| - 1].(content := text, streaming := false)
    ensures !Streaming(prev) ==> r == prev
  {
    if Streaming(prev) then
      var last := prev[|prev| - 1];
      prev[..|prev| - 1] + [last.(content := text, streaming := false)]
    else prev
  }

  /** The deltas of one reply, in order. */
  function ApplyDeltas(prev: seq<ChatMessage>, texts: seq<string>, ids: seq<string>): (r: seq<ChatMessage>)
    requires |ids| == |texts|
    decreases |texts|
  {
    if texts == [] then prev else ApplyDeltas(ApplyDelta(prev, texts[0], ids[0]), texts[1..], ids[1..])
  }

  function Concat(texts: seq<string>): string {
    if texts == [] then "" else texts[0] + Concat(texts[1..])
  }

  /** Deltas arriving on a streaming message all land in it, in order. */
  lemma {:induction false} DeltasExtendStreaming(prev: seq<ChatMessage>, texts: seq<string>, ids: seq<string>)
    requires |ids| == |texts| && Streaming(prev)
    ensures var last := prev[|prev| - 1];
      ApplyDeltas(prev, texts, ids) == prev[..|prev| - 1] + [last.(content := last.content + Concat(texts))]
    decreases |texts|
  {
    var last := prev[|prev| - 1];
    if texts != [] {
      var next := ApplyDelta(prev, texts[0], ids[0]);
      DeltasExtendStreaming(next, texts[1..], ids[1..]);
      assert next[..|next| - 1] == prev[..|prev| - 1];
      AppendAssoc(last.content, texts[0], Concat(texts[1..]));
    } else {
      assert last.content + Concat(texts) == last.content;
      assert prev == prev[..|prev| - 1] + [last];
    }
  }

  /** A reply streamed after a settled transcript becomes one new streaming
      agent message whose content is the concatenation of its deltas; the
      earlier messages are kept. */
  lemma StreamedReply(prev: seq<ChatMessage>, texts: seq<string>, ids: seq<string>)
    requires |ids| == |texts| && texts != [] && !Streaming(prev)
    ensures ApplyDeltas(prev, texts, ids) == prev + [ChatMessage(ids[0], Agent, Concat(texts), true)]
  {
    var first := ApplyDelta(prev, texts[0], ids[0]);
    DeltasExtendStreaming(first, texts[1..], ids[1..]);
    assert first[..|first| - 1] == prev;
  }

  /** `agent_done` carrying the full text settles the streamed reply with
      exactly that text. */
  lemma DoneSettlesReply(prev: seq<ChatMessage>, texts: seq<string>, ids: seq<string>)
    requires |ids| == |texts| && texts != [] && !Streaming(prev)
    ensures ApplyDone(ApplyDeltas(prev, texts, ids), Concat(texts)) ==
      prev + [ChatMessage(ids[0], Agent, Concat(texts), false)]
  {
    StreamedReply(prev, texts, ids);
    var streamed := prev + [ChatMessage(ids[0], Agent, Concat(texts), true)];
    assert streamed[..|streamed| - 1] == prev;
  }

  // ---------------------------------------------------------------------------
  // History
  // ---------------------------------------------------------------------------

  /** A row of the server's message history. */
  datatype HistoryRow = HistoryRow(id: nat, sessionId: string, role: Role, content: string)

  function ToChat(row: HistoryRow): ChatMessage {
    ChatMessage(NatToString(row.id), row.role, row.content, false)
  }

  /** The rows of session `sid`, in server order, as settled messages. */
  function FilterHistory(rows: seq<HistoryRow>, sid: string): (r: seq<ChatMessage>)
    ensures |r| <= |rows|
    ensures forall i :: 0 <= i < |r| ==> !r[i].streaming
  {
    if rows == [] then []
    else (if rows[0].sessionId == sid then [ToChat(rows[0])] else []) + FilterHistory(rows[1..], sid)
  }

  /** The history keeps exactly the session's rows. */
  lemma {:induction false} FilterHistoryExactly(rows: seq<HistoryRow>, sid: string)
    ensures forall row :: row in rows && row.sessionId == sid ==> ToChat(row) in FilterHistory(rows, sid)
    ensures forall m :: m in FilterHistory(rows, sid) ==>
      exists row :: row in rows && row.sessionId == sid && m == ToChat(row)
  {
    if rows != [] {
      FilterHistoryExactly(rows[1..], sid);
      forall m | m in FilterHistory(rows[1..], sid)
        ensures exists row :: row in rows && row.sessionId == sid && m == ToChat(row)
      {
        var row :| row in rows[1..] && row.sessionId == sid && m == ToChat(row);
        assert row in rows;
      }
      forall row | row in rows && row.sessionId == sid ensures ToChat(row) in FilterHistory(rows, sid) {
        if row != rows[0] {
          assert row in rows[1..];
        }
      }
    }
  }

  /** Filtering keeps the server's order: the history of two runs of rows is
      the history of the first followed by that of the second. */
  lemma {:induction false} FilterHistoryAppend(a: seq<HistoryRow>, b: seq<HistoryRow>, sid: string)
    ensures FilterHistory(a + b, sid) == FilterHistory(a, sid) + FilterHistory(b, sid)
  {
    if a == [] {
      assert a + b == b;
    } else {
      assert (a + b)[1..] == a[1..] + b;
      FilterHistoryAppend(a[1..], b, sid);
      var head := if a[0].sessionId == sid then [ToChat(a[0])] else [];
      AppendAssoc(head, FilterHistory(a[1..], sid), FilterHistory(b, sid));
    }
  }

  // ---------------------------------------------------------------------------
  // Expiry and backoff
  // ---------------------------------------------------------------------------

  /** A request has expired once the clock is past its expiry. */
  predicate IsExpired(now: int, expiresAt: int)
    ensures !IsExpired(now, expiresAt) <==> now <= expiresAt
  {
    now > expiresAt
  }

  const InitialDelay: nat := 1000
  const MaxDelay: nat := 30000

  /** The delay before the next attempt: doubled, capped at thirty seconds. */
  function NextDelay(d: nat): (r: nat)
    ensures r <= MaxDelay
    ensures InitialDelay <= d ==> InitialDelay <= r
    ensures d <= MaxDelay ==> d <= r
  {
    if 2 * d < MaxDelay then 2 * d else MaxDelay
  }

  function Pow2(n: nat): (r: nat)
    ensures r >= 1
  {
    if n == 0 then 1 else 2 * Pow2(n - 1)
  }

  /** The delay after `n` reconnection attempts in a row have failed: each
      retry doubles the delay when its timer fires. */
  function DelayAfter(n: nat): (r: nat)
    ensures InitialDelay <= r <= MaxDelay
  {
    if n == 0 then InitialDelay else NextDelay(DelayAfter(n - 1))
  }

  /** The delay after `n` failed attempts is a second doubled `n` times, capped at
      thirty seconds. */
  lemma {:induction false} DelayAfterClosedForm(n: nat)
    ensures DelayAfter(n) == if InitialDelay * Pow2(n) < MaxDelay then InitialDelay * Pow2(n) else MaxDelay
  {
    if n > 0 {
      DelayAfterClosedForm(n - 1);
      assert InitialDelay * Pow2(n) == 2 * (InitialDelay * Pow2(n - 1));
    }
  }

  /** After five failed reconnection attempts in a row, the client waits the
      full thirty seconds. */
  lemma DelayCapped(n: nat)
    requires n >= 5
    ensures DelayAfter(n) == MaxDelay
  {
    DelayAfterClosedForm(n);
    PowMonotone(5, n);
  }

  lemma {:induction false} PowMonotone(m: nat, n: nat)
    requires m <= n
    ensures Pow2(m) <= Pow2(n)
    decreases n - m
  {
    if m < n {
      PowMonotone(m + 1, n);
    }
  }

  // ---------------------------------------------------------------------------
  // Signing decisions
  // ---------------------------------------------------------------------------

  /** The frame `approveTx` sends: `expired` for a request past its expiry;
      otherwise the wallet's signature, or `sign_failed` when deserialising
      or signing threw (`signature` is `None`). */
  function ApprovalFrame(req: SigningRequest, now: int, signature: Option<string>): (f: Inbound)
    ensures f.TxSigned? || f.TxRejected?
    ensures f.txId == req.txId
    ensures f.TxSigned? <==> !IsExpired(now, req.expiresAt) && signature.Some?
    ensures f.TxSigned? ==> f.signature == signature.value
    ensures f.TxRejected? ==> f.reason == Some(if IsExpired(now, req.expiresAt) then "expired" else "sign_failed")
  {
    if IsExpired(now, req.expiresAt) then TxRejected(req.txId, Some("expired"))
    else if signature.Some? then TxSigned(req.txId, signature.value)
    else TxRejected(req.txId, Some("sign_failed"))
  }

  // ---------------------------------------------------------------------------
  // The client state
  // ---------------------------------------------------------------------------

  class AgentClient {
    var messages: seq<ChatMessage>
    var toolActivity: Option<ToolActivity>
    var isThinking: bool
    var status: ConnectionStatus
    var pendingTx: Option<SigningRequest>
    var sessionId: Option<string>
    /** Whether a socket is held (`wsRef.current` is set). */
    var attached: bool
    /** The frames handed to the held socket, in order. */
    var sent: seq<Inbound>
    var reconnectDelay: nat
    var destroyed: bool

    /** The delay stays within its bounds, and every frame sent passes the
        server's inbound schema. */
    ghost predicate Valid()
      reads this
    {
      && InitialDelay <= reconnectDelay <= MaxDelay
      && forall i :: 0 <= i < |sent| ==> ValidInbound(sent[i])
    }

    constructor ()
      ensures Valid()
      ensures messages == [] && toolActivity == None && !isThinking && status == Disconnected
      ensures pendingTx == None && sessionId == None && !attached && sent == []
      ensures reconnectDelay == InitialDelay && !destroyed
    {
      messages, toolActivity, isThinking, status := [], None, false, Disconnected;
      pendingTx, sessionId, attached, sent := None, None, false, [];
      reconnectDelay, destroyed := InitialDelay, false;
    }

    /** `wsRef.current?.send`: a frame reaches the socket only while one is
        held. */
    method Send(frame: Inbound)
      requires Valid() && ValidInbound(frame)
      modifies this`sent
      ensures Valid()
      ensures sent == if attached then old(sent) + [frame] else old(sent)
    {
      if attached {
        sent := sent + [frame];
      }
    }

    /** The session id is known and, when the history request succeeded, the
        transcript becomes that session's history. */
    method LoadHistory(sid: string, response: Option<seq<HistoryRow>>)
      modifies this`sessionId, this`messages
      ensures sessionId == Some(sid)
      ensures response.Some? ==> messages == FilterHistory(response.value, sid)
      ensures response.None? ==> messages == old(messages)
    {
      sessionId := Some(sid);
      if response.Some? {
        messages := FilterHistory(response.value, sid);
      }
    }

    /** `connect`: nothing once torn down; otherwise a socket is opened. */
    method Connect()
      modifies this`status, this`attached
      ensures destroyed ==> status == old(status) && attached == old(attached)
      ensures !destroyed ==> status == Connecting && attached
    {
      if destroyed {
        return;
      }
      status := Connecting;
      attached := true;
    }

    /** `onopen`: connected, and the backoff starts over. */
    method OnOpen()
      requires Valid()
      modifies this`status, this`reconnectDelay
      ensures Valid()
      ensures status == Connected && reconnectDelay == InitialDelay
    {
      status := Connected;
      reconnectDelay := InitialDelay;
    }

    /** `onclose`: the socket is dropped; unless torn down, a retry is due
        after the current delay. */
    method OnClose() returns (retryAfter: Option<nat>)
      requires Valid()
      modifies this`status, this`attached
      ensures Valid()
      ensures status == Disconnected && !attached
      ensures retryAfter == if destroyed then None else Some(reconnectDelay)
      ensures retryAfter.Some? ==> InitialDelay <= retryAfter.value <= MaxDelay
    {
      attached := false;
      status := Disconnected;
      retryAfter := if destroyed then None else Some(reconnectDelay);
    }

    /** The retry timer: the delay doubles up to its cap, then the client
        connects again. */
    method Retry()
      requires Valid()
      modifies this`reconnectDelay, this`status, this`attached
      ensures Valid()
      ensures reconnectDelay == NextDelay(old(reconnectDelay))
      ensures !destroyed ==> status == Connecting && attached
      ensures destroyed ==> status == old(status) && attached == old(attached)
    {
      reconnectDelay := NextDelay(reconnectDelay);
      Connect();
    }

    /** The effect's cleanup: no further connection is made. */
    method Destroy()
      modifies this`destroyed, this`attached
      ensures destroyed && !attached
    {
      destroyed := true;
      attached := false;
    }

    /** `onmessage`. `frame` is `None` when the text is not JSON; frames of
        another type are ignored. */
    method OnMessage(frame: Option<Outbound>, now: int, freshId: string)
      requires Valid()
      modifies this`messages, this`isThinking, this`toolActivity, this`pendingTx, this`sent
      ensures Valid()
      ensures messages ==
        if frame.Some? && frame.value.AgentDelta? then ApplyDelta(old(messages), frame.value.text, freshId)
        else if frame.Some? && frame.value.AgentDone? then ApplyDone(old(messages), frame.value.text)
        else old(messages)
      ensures isThinking ==
        if frame.Some? && (frame.value.AgentDone? || frame.value.Error?) then false else old(isThinking)
      ensures toolActivity ==
        if frame.Some? && frame.value.ToolCall? then Some(ToolActivity(frame.value.tool, frame.value.input))
        else if frame.Some? && (frame.value.AgentDone? || frame.value.ToolResult? || frame.value.Error?) then None
        else old(toolActivity)
      ensures pendingTx ==
        if frame.Some? && frame.value.TxSigningRequest? && !IsExpired(now, frame.value.request.expiresAt)
        then Some(frame.value.request)
        else old(pendingTx)
      ensures sent ==
        if frame.Some? && frame.value.TxSigningRequest? && IsExpired(now, frame.value.request.expiresAt) && attached
        then old(sent) + [TxRejected(frame.value.request.txId, Some("expired"))]
        else old(sent)
    {
      if frame.None? {
        return;
      }
      match frame.value {
        case AgentDelta(_, text) =>
          messages := ApplyDelta(messages, text, freshId);
        case AgentDone(_, text) =>
          messages := ApplyDone(messages, text);
          isThinking := false;
          toolActivity := None;
        case ToolCall(_, tool, input) =>
          toolActivity := Some(ToolActivity(tool, input));
        case ToolResult(_, _, _) =>
          toolActivity := None;
        case Error(_, _) =>
          isThinking := false;
          toolActivity := None;
        case TxSigningRequest(req) =>
          if IsExpired(now, req.expiresAt) {
            Send(TxRejected(req.txId, Some("expired")));
          } else {
            pendingTx := Some(req);
          }
        case Pong =>
      }
    }

    /** `approveTx`: nothing without a pending request; otherwise the
        decision frame is sent and the request is cleared. `signature` is
        what the wallet returned, `None` when it threw. */
    method ApproveTx(now: int, signature: Option<string>)
      requires Valid()
      modifies this`pendingTx, this`sent
      ensures Valid()
      ensures old(pendingTx).None? ==> pendingTx == None && sent == old(sent)
      ensures old(pendingTx).Some? ==>
        pendingTx == None &&
        sent == old(sent) + (if attached then [ApprovalFrame(old(pendingTx).value, now, signature)] else [])
    {
      if pendingTx.None? {
        return;
      }
      var req := pendingTx.value;
      Send(ApprovalFrame(req, now, signature));
      pendingTx := None;
    }

    /** `rejectTx`: nothing without a pending request; otherwise a rejection
        with the given reason, `user_declined` by default, and the request is
        cleared. */
    method RejectTx(reason: Option<string>)
      requires Valid()
      modifies this`pendingTx, this`sent
      ensures Valid()
      ensures old(pendingTx).None? ==> pendingTx == None && sent == old(sent)
      ensures old(pendingTx).Some? ==>
        pendingTx == None &&
        sent == old(sent) +
          (if attached then [TxRejected(old(pendingTx).value.txId, Some(reason.GetOr("user_declined")))] else [])
    {
      if pendingTx.None? {
        return;
      }
      Send(TxRejected(pendingTx.value.txId, Some(reason.GetOr("user_declined"))));
      pendingTx := None;
    }

    /** `sendPrompt`: blank text is ignored; otherwise the trimmed text is
        appended as a settled user message, the client starts thinking, and
        the prompt goes out under the stored session id (or a fresh one when
        none is known yet). */
    method SendPrompt(text: string, freshSession: string, freshId: string)
      requires Valid()
      modifies this`messages, this`isThinking, this`sent
      ensures Valid()
      ensures IsBlank(text) ==>
        messages == old(messages) && isThinking == old(isThinking) && sent == old(sent)
      ensures !IsBlank(text) ==>
        messages == old(messages) + [ChatMessage(freshId, User, Trim(text), false)] && isThinking &&
        sent == old(sent) + (if attached then [Prompt(Trim(text), Some(sessionId.GetOr(freshSession)))] else [])
    {
      var trimmed := Trim(text);
      if trimmed == "" {
        return;
      }
      var sid := sessionId.GetOr(freshSession);
      messages := messages + [ChatMessage(freshId, User, trimmed, false)];
      isThinking := true;
      Send(Prompt(trimmed, Some(sid)));
    }
  }

  /** Every frame the client sends is read back by the server's inbound
      schema as exactly that frame. */
  lemma SentFramesAccepted(client: AgentClient)
    requires client.Valid()
    ensures forall i :: 0 <= i < |client.sent| ==> ParseInbound(InboundToJson(client.sent[i])) == Some(client.sent[i])
  {
    forall i | 0 <= i < |client.sent|
      ensures ParseInbound(InboundToJson(client.sent[i])) == Some(client.sent[i])
    {
      InboundRoundTrip(client.sent[i]);
    }
  }
}
