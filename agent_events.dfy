/** The five events the agent runner emits, the channels listeners subscribe
    to, and the envelope the router's per-connection listener turns each event
    into. */
module AgentEvents {
  import opened Schemas
  import opened Sockets
  import opened Seqs

  datatype Event =
    | Delta(sessionId: string, text: string)
    | Done(sessionId: string, text: string)
    | ToolCalled(sessionId: string, tool: string, input: Json)
    | ToolReturned(sessionId: string, tool: string, output: Json)
    | Failed(sessionId: string, message: string)

  datatype Channel = DeltaChannel | DoneChannel | ToolCallChannel | ToolResultChannel | ErrorChannel

  /** The event name passed to `emit` and `on`. */
  function ChannelName(c: Channel): string {
    match c
    case DeltaChannel => "agent_delta"
    case DoneChannel => "agent_done"
    case ToolCallChannel => "tool_call"
    case ToolResultChannel => "tool_result"
    case ErrorChannel => "error"
  }

  function ChannelOf(ev: Event): Channel {
    match ev
    case Delta(_, _) => DeltaChannel
    case Done(_, _) => DoneChannel
    case ToolCalled(_, _, _) => ToolCallChannel
    case ToolReturned(_, _, _) => ToolResultChannel
    case Failed(_, _) => ErrorChannel
  }

  const AllChannels: set<Channel> := {DeltaChannel, DoneChannel, ToolCallChannel, ToolResultChannel, ErrorChannel}

  lemma InAllChannels(c: Channel)
    ensures c in AllChannels
  {
    match c
    case DeltaChannel =>
    case DoneChannel =>
    case ToolCallChannel =>
    case ToolResultChannel =>
    case ErrorChannel =>
  }

  /** The envelope the router's listener sends for an event. */
  function Forward(ev: Event): (m: Outbound)
    ensures OutboundTag(m) == ChannelName(ChannelOf(ev))
  {
    match ev
    case Delta(sid, text) => AgentDelta(sid, text)
    case Done(sid, text) => AgentDone(sid, text)
    case ToolCalled(sid, tool, input) => ToolCall(sid, tool, input)
    case ToolReturned(sid, tool, output) => ToolResult(sid, tool, output)
    case Failed(sid, message) => Error(sid, message)
  }

  /** The session an envelope is about, for the envelopes that carry one. */
  function SessionOf(m: Outbound): string
    requires !m.Pong? && !m.TxSigningRequest?
  {
    m.sessionId
  }

  /** Forwarding loses nothing: an event can be read back from its envelope,
      and every forwarded envelope names the event's session. */
  lemma ForwardInjective(a: Event, b: Event)
    ensures Forward(a) == Forward(b) <==> a == b
    ensures SessionOf(Forward(a)) == a.sessionId
  {
  }

  /** A subscription: the listener for `channel` that writes to `conn`. */
  datatype Listener = Listener(channel: Channel, conn: Socket)

  /** The envelopes a subscriber to `channels` is sent for `evs`, in order. */
  function Deliveries(channels: set<Channel>, evs: seq<Event>): (r: seq<Outbound>)
    ensures |r| <= |evs|
  {
    if evs == [] then []
    else
      var rest := Deliveries(channels, evs[1..]);
      (if ChannelOf(evs[0]) in channels then [Forward(evs[0])] else []) + rest
  }

  /** A subscriber is sent only envelopes of events on its channels. */
  lemma {:induction false} DeliveriesSound(channels: set<Channel>, evs: seq<Event>)
    ensures forall m :: m in Deliveries(channels, evs) ==>
      exists ev :: ev in evs && ChannelOf(ev) in channels && m == Forward(ev)
  {
    if evs != [] {
      DeliveriesSound(channels, evs[1..]);
      forall m | m in Deliveries(channels, evs[1..])
        ensures exists ev :: ev in evs && ChannelOf(ev) in channels && m == Forward(ev)
      {
        var ev :| ev in evs[1..] && ChannelOf(ev) in channels && m == Forward(ev);
        assert ev in evs;
      }
    }
  }

  lemma {:induction false} DeliveriesAppend(channels: set<Channel>, a: seq<Event>, b: seq<Event>)
    ensures Deliveries(channels, a + b) == Deliveries(channels, a) + Deliveries(channels, b)
  {
    if a == [] {
      assert a + b == b;
    } else {
      assert (a + b)[1..] == a[1..] + b;
      DeliveriesAppend(channels, a[1..], b);
      var head := if ChannelOf(a[0]) in channels then [Forward(a[0])] else [];
      AppendAssoc(head, Deliveries(channels, a[1..]), Deliveries(channels, b));
    }
  }

  /** A subscriber to every channel is sent every event, in order. */
  lemma {:induction false} DeliveriesAll(evs: seq<Event>)
    ensures Deliveries(AllChannels, evs) == seq(|evs|, i requires 0 <= i < |evs| => Forward(evs[i]))
  {
    if evs != [] {
      DeliveriesAll(evs[1..]);
    }
  }
}
