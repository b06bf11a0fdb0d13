/** The per-connection WebSocket handler: the API-key check on upgrade, the
    five runner subscriptions a connection holds while open, and the dispatch
    of each inbound frame to one reply, one enqueued prompt, or nothing. */
module WsRouter {
  import opened Wrappers
  import opened Schemas
  import opened Sockets
  import opened AgentEvents
  import opened AgentRunner
  import opened ClientRegistry

  /** The key a client must present; `change_me` when the environment sets
      none. */
  function ApiKey(env: Option<string>): (key: string)
    ensures env.Some? ==> key == env.value
    ensures env.None? ==> key == "change_me"
  {
    env.GetOr("change_me")
  }

  /** The close code sent to a client with a wrong key (policy violation). */
  const PolicyViolation: int := 1008

  /** The listeners one connection attaches, one per channel. */
  function ConnectionListeners(ws: Socket): (r: seq<Listener>)
    ensures |r| == 5 && UniqueListeners(r)
    ensures forall c :: c in AllChannels ==> Listener(c, ws) in r
    ensures forall i :: 0 <= i < |r| ==> r[i].conn == ws
  {
    [Listener(DeltaChannel, ws), Listener(DoneChannel, ws), Listener(ToolCallChannel, ws),
     Listener(ToolResultChannel, ws), Listener(ErrorChannel, ws)]
  }

  // ---------------------------------------------------------------------------
  // Frame dispatch
  // ---------------------------------------------------------------------------

  datatype FrameAction =
    | Reply(msg: Outbound)
    | StartPrompt(prompt: string, sessionId: Option<string>)
    | Ignore

  /** What the handler does with a frame, given what `JSON.parse` made of it
      (`None` when it threw). */
  function Dispatch(parsed: Option<Json>): (a: FrameAction)
    ensures a.Reply? ==> a.msg == Pong || (a.msg.Error? && a.msg.sessionId == "")
    ensures a.StartPrompt? ==> |a.prompt| >= 1
    ensures a.StartPrompt? <==>
      parsed.Some? && ParseInbound(parsed.value).Some? && ParseInbound(parsed.value).value.Prompt?
  {
    if parsed.None? then Reply(Error("", "Invalid JSON"))
    else
      match ParseInbound(parsed.value)
      case None => Reply(Error("", "Unknown or malformed message type"))
      case Some(Ping) => Reply(Pong)
      case Some(Prompt(prompt, sid)) => StartPrompt(prompt, sid)
      case Some(TxSigned(_, _)) => Ignore
      case Some(TxRejected(_, _)) => Ignore
  }

  /** The dispatch table, case by case: text that is not JSON and JSON that
      fails the schema are answered with an error to the sender; `ping` with
      `pong`; a prompt is enqueued with its text and session; the two
      acknowledgements are accepted and ignored. */
  lemma DispatchExactly(parsed: Option<Json>)
    ensures parsed.None? <==> Dispatch(parsed) == Reply(Error("", "Invalid JSON"))
    ensures (parsed.Some? && ParseInbound(parsed.value).None?) <==>
      Dispatch(parsed) == Reply(Error("", "Unknown or malformed message type"))
    ensures (parsed.Some? && ParseInbound(parsed.value) == Some(Ping)) <==> Dispatch(parsed) == Reply(Pong)
    ensures forall prompt, sid :: (parsed.Some? && ParseInbound(parsed.value) == Some(Prompt(prompt, sid))) <==>
      Dispatch(parsed) == StartPrompt(prompt, sid)
    ensures Dispatch(parsed).Ignore? <==>
      parsed.Some? && ParseInbound(parsed.value).Some? &&
      (ParseInbound(parsed.value).value.TxSigned? || ParseInbound(parsed.value).value.TxRejected?)
  {
  }

  /** A well-formed prompt frame built by a client is enqueued exactly as it
      was written. */
  lemma PromptFrameEnqueued(prompt: string, sid: Option<string>)
    requires |prompt| >= 1
    ensures Dispatch(Some(InboundToJson(Prompt(prompt, sid)))) == StartPrompt(prompt, sid)
  {
    InboundRoundTrip(Prompt(prompt, sid));
  }

  // ---------------------------------------------------------------------------
  // Connection lifecycle
  // ---------------------------------------------------------------------------

  /** Upgrade: a wrong or missing key closes the socket with 1008 and attaches
      nothing; the right key attaches the connection's five listeners, after
      which the socket is sent every event the runner emits. */
  method OnConnect(runner: Runner, ws: Socket, presented: Option<string>, env: Option<string>)
    returns (accepted: bool)
    requires runner.Valid() && ws !in runner.Subscribers()
    modifies runner`listeners, ws`readyState, ws`closeCode
    ensures runner.Valid()
    ensures accepted <==> presented == Some(ApiKey(env))
    ensures !accepted ==>
      runner.listeners == old(runner.listeners) && ws.readyState == Closing && ws.closeCode == Some(PolicyViolation)
    ensures accepted ==>
      runner.listeners == old(runner.listeners) + ConnectionListeners(ws) &&
      ws.readyState == old(ws.readyState) && ws.closeCode == old(ws.closeCode)
    ensures accepted ==> runner.ChannelsOf(ws) == AllChannels
  {
    if presented != Some(ApiKey(env)) {
      ws.Close(PolicyViolation);
      return false;
    }
    var ls := ConnectionListeners(ws);
    var i := 0;
    while i < 5
      invariant 0 <= i <= 5
      invariant runner.Valid()
      invariant runner.listeners == old(runner.listeners) + ls[..i]
      invariant ws.readyState == old(ws.readyState) && ws.closeCode == old(ws.closeCode)
    {
      assert ls[i] !in old(runner.listeners);
      assert ls[i] !in ls[..i];
      runner.On(ls[i]);
      assert ls[..i + 1] == ls[..i] + [ls[i]];
      i := i + 1;
    }
    accepted := true;
    assert ls[..5] == ls;
    forall c | c in AllChannels ensures c in runner.ChannelsOf(ws) {
      assert Listener(c, ws) in runner.listeners;
    }
  }

  /** A frame arrives: the reply goes to this socket only (if still open), a
      prompt is enqueued once, and nothing else happens. */
  method OnMessage(runner: Runner, ws: Socket, parsed: Option<Json>, freshId: string)
    requires runner.Valid()
    modifies runner`queue, runner`running, runner`inFlight, runner`submitted, runner`started, ws`sent
    ensures runner.Valid()
    ensures Dispatch(parsed).Reply? ==> ws.sent == OfferedTo(old(ws.sent), ws.readyState, Dispatch(parsed).msg)
    ensures !Dispatch(parsed).Reply? ==> ws.sent == old(ws.sent)
    ensures !Dispatch(parsed).StartPrompt? ==>
      runner.submitted == old(runner.submitted) && runner.queue == old(runner.queue) &&
      runner.running == old(runner.running) && runner.inFlight == old(runner.inFlight) &&
      runner.started == old(runner.started)
    ensures Dispatch(parsed).StartPrompt? ==>
      var job := Job(Dispatch(parsed).sessionId.GetOr(freshId), Dispatch(parsed).prompt);
      && runner.submitted == old(runner.submitted) + [job]
      && runner.running
      && (old(runner.running) ==>
            runner.queue == old(runner.queue) + [job] && runner.inFlight == old(runner.inFlight) &&
            runner.started == old(runner.started))
      && (!old(runner.running) ==>
            runner.queue == [] && runner.inFlight == Some(job) && runner.started == old(runner.started) + [job])
  {
    match Dispatch(parsed) {
      case Reply(msg) =>
        Send(ws, msg);
      case StartPrompt(prompt, sid) =>
        var _ := runner.Enqueue(prompt, sid, freshId);
      case Ignore =>
    }
  }

  /** Close: the five listeners attached on connect are detached, so the
      socket hears no further event; every other subscription stays. */
  method OnClose(runner: Runner, ws: Socket)
    requires runner.Valid()
    modifies runner`listeners
    ensures runner.Valid()
    ensures ws !in runner.Subscribers()
    ensures forall i :: 0 <= i < |old(runner.listeners)| && old(runner.listeners)[i].conn != ws ==>
      old(runner.listeners)[i] in runner.listeners
    ensures forall i :: 0 <= i < |runner.listeners| ==> runner.listeners[i] in old(runner.listeners)
  {
    var ls := ConnectionListeners(ws);
    var i := 0;
    while i < 5
      invariant 0 <= i <= 5
      invariant runner.Valid()
      invariant forall k :: 0 <= k < i ==> ls[k] !in runner.listeners
      invariant forall k :: 0 <= k < |old(runner.listeners)| && old(runner.listeners)[k].conn != ws ==>
        old(runner.listeners)[k] in runner.listeners
      invariant forall k :: 0 <= k < |runner.listeners| ==> runner.listeners[k] in old(runner.listeners)
    {
      runner.Off(ls[i]);
      i := i + 1;
    }
    forall l | l in runner.listeners ensures l.conn != ws {
      InAllChannels(l.channel);
      assert Listener(l.channel, ws) in ls;
      assert Listener(l.channel, ws) !in runner.listeners;
    }
  }

  // ---------------------------------------------------------------------------
  // The registry is never told about a connection
  // ---------------------------------------------------------------------------

  /** The handler as written: an authorised, open connection attaches its
      listeners but is never registered, so a signing request broadcast
      through the registry reaches no one. */
  method ConnectedClientMissesBroadcast(env: Option<string>, msg: Outbound) returns (received: seq<Outbound>)
    ensures received == []
  {
    var registry := new ClientRegistry.Registry();
    var ws := UpgradeFresh(registry, env, false);
    registry.Broadcast(msg);
    received := ws.sent;
  }

  /** A fresh open socket presenting the right key to a fresh runner, upgraded
      as written (`registering` false) or as intended. */
  method UpgradeFresh(registry: Registry, env: Option<string>, registering: bool) returns (ws: Socket)
    modifies registry
    ensures fresh(ws) && ws.readyState == Open && ws.sent == []
    ensures registry.clients == old(registry.clients) + (if registering then {ws} else {})
  {
    var runner := new Runner();
    ws := new Socket(Open);
    var accepted;
    if registering {
      accepted := OnConnectRegistering(runner, registry, ws, Some(ApiKey(env)), env);
    } else {
      accepted := OnConnect(runner, ws, Some(ApiKey(env)), env);
    }
  }

  /** Upgrade as intended: the connection is also registered, so broadcasts
      reach it. */
  method OnConnectRegistering(runner: Runner, registry: Registry, ws: Socket, presented: Option<string>, env: Option<string>)
    returns (accepted: bool)
    requires runner.Valid() && ws !in runner.Subscribers()
    modifies runner`listeners, ws`readyState, ws`closeCode, registry
    ensures runner.Valid()
    ensures accepted <==> presented == Some(ApiKey(env))
    ensures accepted ==> registry.clients == old(registry.clients) + {ws}
    ensures !accepted ==> registry.clients == old(registry.clients)
    ensures accepted ==>
      runner.listeners == old(runner.listeners) + ConnectionListeners(ws) &&
      ws.readyState == old(ws.readyState)
    ensures !accepted ==> runner.listeners == old(runner.listeners) && ws.closeCode == Some(PolicyViolation)
  {
    accepted := OnConnect(runner, ws, presented, env);
    if accepted {
      registry.Register(ws);
    }
  }

  /** Close as intended: the connection is unregistered too. */
  method OnCloseUnregistering(runner: Runner, registry: Registry, ws: Socket)
    requires runner.Valid()
    modifies runner`listeners, registry
    ensures runner.Valid()
    ensures ws !in runner.Subscribers()
    ensures registry.clients == old(registry.clients) - {ws}
  {
    OnClose(runner, ws);
    registry.Unregister(ws);
  }

  /** With registration, an authorised open connection receives a broadcast
      exactly once. */
  method ConnectedClientReceivesBroadcast(env: Option<string>, msg: Outbound) returns (received: seq<Outbound>)
    ensures received == [msg]
  {
    var registry := new ClientRegistry.Registry();
    var ws := UpgradeFresh(registry, env, true);
    registry.Broadcast(msg);
    received := ws.sent;
  }
}
