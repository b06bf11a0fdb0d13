/** The single-flight prompt queue. Prompts are queued in arrival order; at
    most one job runs at a time; a job persists the prompt, reads the session
    history, folds the model's output stream into events, persists the reply
    and reports completion, after which the next queued job starts.

    The model call is an input: the chunk sequence the stream yields. The
    database statements of a job can fail; which one fails (if any) and with
    what message is an input too. A job runs when `Complete` is called, which
    stands for the moment its promise settles. */
module AgentRunner {
  import opened Wrappers
  import opened Strings
  import opened Schemas
  import opened Sockets
  import opened AgentEvents

  // ---------------------------------------------------------------------------
  // The output stream
  // ---------------------------------------------------------------------------

  datatype Chunk =
    | TextDelta(text: string)
    | ToolCallChunk(tool: string, args: Json)
    | ToolResultChunk(tool: string, result: Json)
    | StepFinish
    | StreamError(message: string)

  predicate ErrorFree(chunks: seq<Chunk>) {
    forall i :: 0 <= i < |chunks| ==> !chunks[i].StreamError?
  }

  /** The events the stream loop emits: one per chunk, in order, none for a
      step boundary, and the first error chunk ends the stream. */
  function StreamEvents(sid: string, chunks: seq<Chunk>): (r: seq<Event>)
    ensures |r| <= |chunks|
  {
    if chunks == [] then []
    else
      match chunks[0]
      case TextDelta(t) => [Delta(sid, t)] + StreamEvents(sid, chunks[1..])
      case ToolCallChunk(tool, args) => [ToolCalled(sid, tool, args)] + StreamEvents(sid, chunks[1..])
      case ToolResultChunk(tool, result) => [ToolReturned(sid, tool, result)] + StreamEvents(sid, chunks[1..])
      case StepFinish => StreamEvents(sid, chunks[1..])
      case StreamError(m) => [Failed(sid, m)]
  }

  /** The text the stream loop accumulates: the deltas before the first error. */
  function StreamText(chunks: seq<Chunk>): string {
    if chunks == [] then ""
    else
      match chunks[0]
      case TextDelta(t) => t + StreamText(chunks[1..])
      case StreamError(_) => ""
      case _ => StreamText(chunks[1..])
  }

  /** A stream without text deltas accumulates no text. */
  lemma {:induction false} NoDeltasNoText(chunks: seq<Chunk>)
    requires forall i :: 0 <= i < |chunks| ==> !chunks[i].TextDelta?
    ensures StreamText(chunks) == ""
  {
    if chunks != [] && !chunks[0].StreamError? {
      forall i | 0 <= i < |chunks[1..]| ensures !chunks[1..][i].TextDelta? {
        assert chunks[1..][i] == chunks[i + 1];
      }
      NoDeltasNoText(chunks[1..]);
    }
  }

  function FirstErrorMessage(chunks: seq<Chunk>): string
    requires !ErrorFree(chunks)
  {
    if chunks[0].StreamError? then chunks[0].message
    else
      assert !ErrorFree(chunks[1..]) by {
        var i :| 0 <= i < |chunks| && chunks[i].StreamError?;
        assert chunks[1..][i - 1] == chunks[i];
      }
      FirstErrorMessage(chunks[1..])
  }

  /** The concatenated texts of the delta events. */
  function DeltaText(evs: seq<Event>): string {
    if evs == [] then ""
    else (if evs[0].Delta? then evs[0].text else "") + DeltaText(evs[1..])
  }

  predicate Terminal(ev: Event) {
    ev.Done? || ev.Failed?
  }

  lemma {:induction false} StreamAppend(sid: string, p: seq<Chunk>, q: seq<Chunk>)
    requires ErrorFree(p)
    ensures StreamEvents(sid, p + q) == StreamEvents(sid, p) + StreamEvents(sid, q)
    ensures StreamText(p + q) == StreamText(p) + StreamText(q)
  {
    if p == [] {
      assert p + q == q;
    } else {
      assert (p + q)[0] == p[0];
      assert (p + q)[1..] == p[1..] + q;
      assert ErrorFree(p[1..]) by {
        forall i | 0 <= i < |p[1..]| ensures !p[1..][i].StreamError? {
          assert p[1..][i] == p[i + 1];
        }
      }
      StreamAppend(sid, p[1..], q);
    }
  }

  /** Every delta is emitted, in stream order, and the accumulated text is the
      concatenation of the emitted deltas. */
  lemma {:induction false} AccumulatedTextIsDeltas(sid: string, chunks: seq<Chunk>)
    ensures DeltaText(StreamEvents(sid, chunks)) == StreamText(chunks)
  {
    if chunks != [] {
      var rest := StreamEvents(sid, chunks[1..]);
      AccumulatedTextIsDeltas(sid, chunks[1..]);
      match chunks[0]
      case TextDelta(t) =>
        assert ([Delta(sid, t)] + rest)[1..] == rest;
      case ToolCallChunk(tool, args) =>
        assert ([ToolCalled(sid, tool, args)] + rest)[1..] == rest;
      case ToolResultChunk(tool, result) =>
        assert ([ToolReturned(sid, tool, result)] + rest)[1..] == rest;
      case StepFinish =>
      case StreamError(m) =>
        assert [Failed(sid, m)][1..] == [];
    }
  }

  /** The stream's events all carry the job's session, contain no `agent_done`,
      and only an error chunk produces an error event, always the last one. */
  lemma {:induction false} StreamEventsShape(sid: string, chunks: seq<Chunk>)
    ensures forall e :: e in StreamEvents(sid, chunks) ==> e.sessionId == sid && !e.Done?
    ensures ErrorFree(chunks) ==> forall e :: e in StreamEvents(sid, chunks) ==> !Terminal(e)
    ensures !ErrorFree(chunks) ==>
      var evs := StreamEvents(sid, chunks);
      |evs| > 0 && evs[|evs| - 1] == Failed(sid, FirstErrorMessage(chunks)) &&
      forall i :: 0 <= i < |evs| - 1 ==> !Terminal(evs[i])
  {
    if chunks != [] {
      StreamEventsShape(sid, chunks[1..]);
      ErrorFreeCons(chunks);
    }
  }

  /** A non-empty stream is error-free exactly when its first chunk is not an
      error and the rest is error-free. */
  lemma ErrorFreeCons(chunks: seq<Chunk>)
    requires chunks != []
    ensures ErrorFree(chunks) <==> !chunks[0].StreamError? && ErrorFree(chunks[1..])
  {
    if ErrorFree(chunks) {
      forall i | 0 <= i < |chunks[1..]| ensures !chunks[1..][i].StreamError? {
        assert chunks[1..][i] == chunks[i + 1];
      }
    } else if !chunks[0].StreamError? {
      var i :| 0 <= i < |chunks| && chunks[i].StreamError?;
      assert chunks[1..][i - 1] == chunks[i];
    }
  }

  /** The stream loop: consumes the chunks one by one, accumulating the text
      and the events to emit, and stops at the first error chunk. */
  method FoldStream(sid: string, chunks: seq<Chunk>) returns (events: seq<Event>, fullText: string, aborted: bool)
    ensures events == StreamEvents(sid, chunks)
    ensures fullText == StreamText(chunks)
    ensures aborted <==> !ErrorFree(chunks)
  {
    events, fullText, aborted := [], "", false;
    var i := 0;
    while i < |chunks|
      invariant 0 <= i <= |chunks|
      invariant ErrorFree(chunks[..i])
      invariant events == StreamEvents(sid, chunks[..i])
      invariant fullText == StreamText(chunks[..i])
    {
      var c := chunks[i];
      assert chunks[..i + 1] == chunks[..i] + [c];
      StreamAppend(sid, chunks[..i], [c]);
      match c {
        case TextDelta(t) =>
          fullText := fullText + t;
          events := events + [Delta(sid, t)];
        case ToolCallChunk(tool, args) =>
          events := events + [ToolCalled(sid, tool, args)];
        case ToolResultChunk(tool, result) =>
          events := events + [ToolReturned(sid, tool, result)];
        case StepFinish =>
        case StreamError(m) =>
          events := events + [Failed(sid, m)];
          assert chunks == chunks[..i] + chunks[i..];
          StreamAppend(sid, chunks[..i], chunks[i..]);
          aborted := true;
          return;
      }
      i := i + 1;
    }
    assert chunks[..i] == chunks;
  }

  // ---------------------------------------------------------------------------
  // One job
  // ---------------------------------------------------------------------------

  datatype Job = Job(sessionId: string, prompt: string)

  /** The job's database statements, in the order they run. */
  datatype DbStep = EnsureSession | InsertPrompt | LoadHistory | InsertReply

  function StepIndex(s: DbStep): nat {
    match s
    case EnsureSession => 0
    case InsertPrompt => 1
    case LoadHistory => 2
    case InsertReply => 3
  }

  /** Which statement throws, if any, and the error's message. */
  datatype Fault = NoFault | FailsAt(step: DbStep, message: string)

  /** The statement `s` runs and succeeds. */
  predicate Completes(fault: Fault, s: DbStep) {
    fault.NoFault? || StepIndex(s) < StepIndex(fault.step)
  }

  /** The events one job emits. A failed statement before the stream reports
      the failure and nothing else. Otherwise the stream's events come first;
      an error chunk ends the job there; an empty text ends it silently for an
      `alert_` session and with an empty `agent_done` for any other; a
      non-empty text ends it with `agent_done` carrying the text once the reply
      is stored, or with the storing statement's failure. */
  function JobEvents(sid: string, chunks: seq<Chunk>, fault: Fault): (r: seq<Event>)
    ensures |r| > 0 || (Completes(fault, LoadHistory) && StartsWith(sid, "alert_"))
    ensures forall i :: 0 <= i < |r| ==> r[i].sessionId == sid
  {
    StreamEventsShape(sid, chunks);
    if !Completes(fault, LoadHistory) then [Failed(sid, fault.message)]
    else if !ErrorFree(chunks) then StreamEvents(sid, chunks)
    else StreamEvents(sid, chunks) + ClosingEvents(sid, StreamText(chunks), fault)
  }

  /** The events that close an error-free stream with text `text`. */
  function ClosingEvents(sid: string, text: string, fault: Fault): (r: seq<Event>)
    ensures |r| <= 1
    ensures forall i :: 0 <= i < |r| ==> r[i].sessionId == sid && Terminal(r[i])
    ensures r == [] <==> text == "" && StartsWith(sid, "alert_")
  {
    if text == "" then (if StartsWith(sid, "alert_") then [] else [Done(sid, "")])
    else if fault.FailsAt? then [Failed(sid, fault.message)]
    else [Done(sid, text)]
  }

  /** The agent reply a job stores, if any. */
  function JobReply(chunks: seq<Chunk>, fault: Fault): (r: Option<string>)
    ensures r.Some? ==> fault.NoFault? && ErrorFree(chunks) && r.value == StreamText(chunks) && r.value != ""
    ensures fault.NoFault? && ErrorFree(chunks) && StreamText(chunks) != "" ==> r.Some?
  {
    if fault.FailsAt? || !ErrorFree(chunks) || StreamText(chunks) == "" then None
    else Some(StreamText(chunks))
  }

  /** An error chunk emits one error event with its message, as the job's last
      event; no reply is stored and no `agent_done` is emitted. */
  lemma ErrorChunkEndsJob(sid: string, chunks: seq<Chunk>, fault: Fault)
    requires Completes(fault, LoadHistory) && !ErrorFree(chunks)
    ensures JobReply(chunks, fault) == None
    ensures var evs := JobEvents(sid, chunks, fault);
      |evs| > 0 && evs[|evs| - 1] == Failed(sid, FirstErrorMessage(chunks)) &&
      forall e :: e in evs ==> !e.Done?
  {
    StreamEventsShape(sid, chunks);
  }

  /** An empty text stores nothing; an `alert_` session then emits no
      completion at all, any other session an empty `agent_done`. */
  lemma EmptyTextJob(sid: string, chunks: seq<Chunk>, fault: Fault)
    requires Completes(fault, LoadHistory) && ErrorFree(chunks) && StreamText(chunks) == ""
    ensures JobReply(chunks, fault) == None
    ensures StartsWith(sid, "alert_") ==> forall e :: e in JobEvents(sid, chunks, fault) ==> !Terminal(e)
    ensures !StartsWith(sid, "alert_") ==>
      var evs := JobEvents(sid, chunks, fault);
      |evs| > 0 && evs[|evs| - 1] == Done(sid, "")
  {
    StreamEventsShape(sid, chunks);
  }

  /** A stored reply is the stream's non-empty text, and the job then ends
      with one `agent_done` carrying that same text. */
  lemma ReplyThenDone(sid: string, chunks: seq<Chunk>, fault: Fault)
    requires JobReply(chunks, fault).Some?
    ensures var t := JobReply(chunks, fault).value;
      var evs := JobEvents(sid, chunks, fault);
      t != "" && t == DeltaText(StreamEvents(sid, chunks)) &&
      |evs| > 0 && evs[|evs| - 1] == Done(sid, t) &&
      forall i :: 0 <= i < |evs| - 1 ==> !Terminal(evs[i])
  {
    AccumulatedTextIsDeltas(sid, chunks);
    StreamEventsShape(sid, chunks);
  }

  /** A job emits at most one completion or error event, and it is the last. */
  lemma AtMostOneTerminal(sid: string, chunks: seq<Chunk>, fault: Fault)
    ensures var evs := JobEvents(sid, chunks, fault);
      forall i :: 0 <= i < |evs| - 1 ==> !Terminal(evs[i])
  {
    StreamEventsShape(sid, chunks);
    var evs := StreamEvents(sid, chunks);
    if ErrorFree(chunks) {
      forall i | 0 <= i < |evs| ensures !Terminal(evs[i]) {
        assert evs[i] in evs;
      }
    }
  }

  /** A failing statement is reported with the job's session and the
      failure's message, and no reply is stored. */
  lemma FailureReported(sid: string, chunks: seq<Chunk>, fault: Fault)
    requires fault.FailsAt?
    requires !Completes(fault, LoadHistory) || (ErrorFree(chunks) && StreamText(chunks) != "")
    ensures JobReply(chunks, fault) == None
    ensures var evs := JobEvents(sid, chunks, fault);
      |evs| > 0 && evs[|evs| - 1] == Failed(sid, fault.message)
  {
  }

  // ---------------------------------------------------------------------------
  // Transcript rows and the history handed to the model
  // ---------------------------------------------------------------------------

  datatype MessageRow = MessageRow(id: nat, sessionId: string, role: Role, content: string)

  datatype ModelRole = UserTurn | AssistantTurn
  datatype ModelMessage = ModelMessage(role: ModelRole, content: string)

  /** A stored row as the model sees it: `user` stays the user, anything else
      is the assistant. */
  function ToModel(row: MessageRow): ModelMessage {
    ModelMessage(if row.role == User then UserTurn else AssistantTurn, row.content)
  }

  /** The session's rows, in table order, as model messages. */
  function History(rows: seq<MessageRow>, sid: string): (r: seq<ModelMessage>)
    ensures |r| <= |rows|
  {
    if rows == [] then []
    else (if rows[0].sessionId == sid then [ToModel(rows[0])] else []) + History(rows[1..], sid)
  }

  /** Appending a row of the session appends its model message to the
      history; a row of another session leaves the history as it was. */
  lemma {:induction false} HistoryAppend(rows: seq<MessageRow>, sid: string, row: MessageRow)
    ensures History(rows + [row], sid) ==
      History(rows, sid) + (if row.sessionId == sid then [ToModel(row)] else [])
  {
    var tail := if row.sessionId == sid then [ToModel(row)] else [];
    if rows == [] {
      assert rows + [row] == [row];
      assert History([row], sid) == tail + History([], sid);
    } else {
      var head := if rows[0].sessionId == sid then [ToModel(rows[0])] else [];
      assert (rows + [row])[0] == rows[0];
      assert (rows + [row])[1..] == rows[1..] + [row];
      HistoryAppend(rows[1..], sid, row);
      calc {
        History(rows + [row], sid);
        head + History(rows[1..] + [row], sid);
        head + (History(rows[1..], sid) + tail);
        (head + History(rows[1..], sid)) + tail;
      }
    }
  }

  predicate MessageIdsAscending(rows: seq<MessageRow>) {
    forall i, j :: 0 <= i < j < |rows| ==> rows[i].id < rows[j].id
  }

  /** The stored rows: ids ascending and below the next id to hand out, and
      every row in a known session. */
  predicate RowsFit(rows: seq<MessageRow>, nextId: nat, sessions: set<string>) {
    && MessageIdsAscending(rows)
    && (forall i :: 0 <= i < |rows| ==> rows[i].id < nextId)
    && (forall i :: 0 <= i < |rows| ==> rows[i].sessionId in sessions)
  }

  /** Storing a row under the next id, in a known session, keeps the rows
      fitting once the id counter moves past it. */
  lemma RowsFitAppend(rows: seq<MessageRow>, nextId: nat, sessions: set<string>, row: MessageRow)
    requires RowsFit(rows, nextId, sessions)
    requires row.id == nextId && row.sessionId in sessions
    ensures RowsFit(rows + [row], nextId + 1, sessions)
  {
  }

  predicate UniqueListeners(ls: seq<Listener>) {
    forall i, j :: 0 <= i < j < |ls| ==> ls[i] != ls[j]
  }

  /** `ls` without `l`. */
  function Without(ls: seq<Listener>, l: Listener): (r: seq<Listener>)
    ensures l !in r
    ensures forall i :: 0 <= i < |r| ==> r[i] in ls
    ensures forall i :: 0 <= i < |ls| && ls[i] != l ==> ls[i] in r
    ensures l !in ls ==> r == ls
  {
    if ls == [] then []
    else
      var rest := Without(ls[1..], l);
      assert ls == [ls[0]] + ls[1..];
      if ls[0] == l then rest else [ls[0]] + rest
  }

  /** Detaching keeps the listeners distinct. */
  lemma {:induction false} WithoutUnique(ls: seq<Listener>, l: Listener)
    requires UniqueListeners(ls)
    ensures UniqueListeners(Without(ls, l))
  {
    if ls != [] {
      assert UniqueListeners(ls[1..]);
      WithoutUnique(ls[1..], l);
      var rest := Without(ls[1..], l);
      if ls[0] != l {
        assert ls[0] !in ls[1..];
        var r := [ls[0]] + rest;
        forall i, j | 0 <= i < j < |r| ensures r[i] != r[j] {
          assert r[j] == rest[j - 1];
          if i > 0 {
            assert r[i] == rest[i - 1];
          }
        }
      }
    }
  }

  // ---------------------------------------------------------------------------
  // The runner
  // ---------------------------------------------------------------------------

  class Runner {
    var queue: seq<Job>
    var running: bool
    /** The job whose promise has not settled yet. */
    var inFlight: Option<Job>
    /** Every job ever queued, and every job ever started, in order. */
    ghost var submitted: seq<Job>
    ghost var started: seq<Job>
    var listeners: seq<Listener>
    /** Every event emitted, in order. */
    ghost var emitted: seq<Event>
    var sessions: set<string>
    var messages: seq<MessageRow>
    var nextMessageId: nat

    ghost predicate Coherent()
      reads this
    {
      && (running <==> inFlight.Some?)
      && submitted == started + queue
      && (inFlight.Some? ==> |started| > 0 && started[|started| - 1] == inFlight.value)
      && RowsFit(messages, nextMessageId, sessions)
      && UniqueListeners(listeners)
    }

    /** Single flight: a job waits only while another one runs. */
    ghost predicate Valid()
      reads this
    {
      Coherent() && (!running ==> queue == [])
    }

    ghost function Subscribers(): set<Socket>
      reads this`listeners
    {
      set l | l in listeners :: l.conn
    }

    ghost function ChannelsOf(s: Socket): set<Channel>
      reads this`listeners
    {
      set l | l in listeners && l.conn == s :: l.channel
    }

    constructor ()
      ensures Valid()
      ensures queue == [] && !running && submitted == [] && started == []
      ensures listeners == [] && emitted == [] && sessions == {} && messages == []
    {
      queue, running, inFlight := [], false, None;
      submitted, started := [], [];
      listeners, emitted := [], [];
      sessions, messages, nextMessageId := {}, [], 1;
    }

    /** `on(event, listener)`. A listener is attached at most once. */
    method On(l: Listener)
      requires Valid() && l !in listeners
      modifies this`listeners
      ensures Valid()
      ensures listeners == old(listeners) + [l]
    {
      listeners := listeners + [l];
    }

    /** `off(event, listener)`: detaching an absent listener changes nothing. */
    method Off(l: Listener)
      requires Valid()
      modifies this`listeners
      ensures Valid()
      ensures listeners == Without(old(listeners), l)
      ensures l !in listeners
    {
      WithoutUnique(listeners, l);
      listeners := Without(listeners, l);
    }

    /** `emit(event, ...)`: every listener attached to the event's channel
        sends the forwarded envelope to its socket, which keeps it only if
        open. */
    method Emit(ev: Event)
      requires UniqueListeners(listeners)
      modifies this`emitted, Subscribers()
      ensures emitted == old(emitted) + [ev]
      ensures forall s :: s in Subscribers() ==> s.readyState == old(s.readyState) && s.closeCode == old(s.closeCode)
      ensures forall s :: s in Subscribers() ==>
        s.sent == if s.readyState == Open then old(s.sent) + Deliveries(ChannelsOf(s), [ev]) else old(s.sent)
    {
      var i := 0;
      while i < |listeners|
        invariant 0 <= i <= |listeners|
        invariant emitted == old(emitted)
        invariant forall s :: s in Subscribers() ==> s.readyState == old(s.readyState) && s.closeCode == old(s.closeCode)
        invariant forall s :: s in Subscribers() ==>
          s.sent == if s.readyState == Open && Listener(ChannelOf(ev), s) in listeners[..i]
                    then old(s.sent) + [Forward(ev)] else old(s.sent)
      {
        var l := listeners[i];
        assert listeners[..i + 1] == listeners[..i] + [l];
        assert l in listeners;
        if l.channel == ChannelOf(ev) {
          assert l !in listeners[..i];
          Send(l.conn, Forward(ev));
        }
        i := i + 1;
      }
      assert listeners[..i] == listeners;
      emitted := emitted + [ev];
      forall s | s in Subscribers()
        ensures Listener(ChannelOf(ev), s) in listeners <==> ChannelOf(ev) in ChannelsOf(s)
      {
        if ChannelOf(ev) in ChannelsOf(s) {
          var l :| l in listeners && l.conn == s && l.channel == ChannelOf(ev);
          assert l == Listener(ChannelOf(ev), s);
        }
      }
    }

    /** Emits `evs` one after the other. */
    method EmitAll(evs: seq<Event>)
      requires UniqueListeners(listeners)
      modifies this`emitted, Subscribers()
      ensures emitted == old(emitted) + evs
      ensures forall s :: s in Subscribers() ==> s.readyState == old(s.readyState) && s.closeCode == old(s.closeCode)
      ensures forall s :: s in Subscribers() ==>
        s.sent == if s.readyState == Open then old(s.sent) + Deliveries(ChannelsOf(s), evs) else old(s.sent)
    {
      var k := 0;
      while k < |evs|
        invariant 0 <= k <= |evs|
        invariant emitted == old(emitted) + evs[..k]
        invariant forall s :: s in Subscribers() ==> s.readyState == old(s.readyState) && s.closeCode == old(s.closeCode)
        invariant forall s :: s in Subscribers() ==>
          s.sent == if s.readyState == Open then old(s.sent) + Deliveries(ChannelsOf(s), evs[..k]) else old(s.sent)
      {
        Emit(evs[k]);
        assert evs[..k + 1] == evs[..k] + [evs[k]];
        forall s | s in Subscribers() {
          DeliveriesAppend(ChannelsOf(s), evs[..k], [evs[k]]);
        }
        k := k + 1;
      }
      assert evs[..k] == evs;
    }

    /** `drain`: starts the head job when none is in flight. */
    method Drain()
      requires Coherent()
      modifies this`queue, this`running, this`inFlight, this`started
      ensures Valid()
      ensures submitted == old(submitted)
      ensures old(running) || old(queue) == [] ==>
        queue == old(queue) && running == old(running) && inFlight == old(inFlight) && started == old(started)
      ensures !old(running) && old(queue) != [] ==>
        queue == old(queue)[1..] && running && inFlight == Some(old(queue)[0]) && started == old(started) + [old(queue)[0]]
    {
      if running || queue == [] {
        return;
      }
      var job := queue[0];
      queue := queue[1..];
      running := true;
      inFlight := Some(job);
      started := started + [job];
    }

    /** `enqueue`: the job joins the tail of the queue under the given session
        id, or the fresh one when none is given, and starts at once when
        nothing is in flight. */
    method Enqueue(prompt: string, sessionId: Option<string>, freshId: string) returns (sid: string)
      requires Valid()
      modifies this`queue, this`running, this`inFlight, this`submitted, this`started
      ensures Valid()
      ensures sid == sessionId.GetOr(freshId)
      ensures submitted == old(submitted) + [Job(sid, prompt)]
      ensures old(running) ==>
        queue == old(queue) + [Job(sid, prompt)] && inFlight == old(inFlight) && started == old(started)
      ensures !old(running) ==>
        queue == [] && inFlight == Some(Job(sid, prompt)) && started == old(started) + [Job(sid, prompt)]
    {
      sid := sessionId.GetOr(freshId);
      queue := queue + [Job(sid, prompt)];
      submitted := submitted + [Job(sid, prompt)];
      Drain();
    }

    /** The in-flight job's promise settles: its statements run in order
        (ensure the session, store the prompt, read the history), its stream
        is folded and its events emitted, its reply stored and its completion
        emitted; then `running` is cleared and the next job drained. The
        result is the history handed to the model (empty when it was never
        read). */
    method Complete(chunks: seq<Chunk>, fault: Fault) returns (context: seq<ModelMessage>)
      requires Valid() && running
      modifies this, Subscribers()
      ensures Valid()
      ensures listeners == old(listeners) && submitted == old(submitted)
      ensures emitted == old(emitted) + JobEvents(old(inFlight.value.sessionId), chunks, fault)
      ensures forall s :: s in Subscribers() ==> s.readyState == old(s.readyState) && s.closeCode == old(s.closeCode)
      ensures forall s :: s in Subscribers() ==>
        s.sent == if s.readyState == Open
                  then old(s.sent) + Deliveries(ChannelsOf(s), JobEvents(old(inFlight.value.sessionId), chunks, fault))
                  else old(s.sent)
      ensures sessions == old(sessions) + (if Completes(fault, EnsureSession) then {old(inFlight.value.sessionId)} else {})
      ensures messages == old(messages) + PersistedRows(old(inFlight.value), chunks, fault, old(nextMessageId))
      ensures nextMessageId == old(nextMessageId) + |PersistedRows(old(inFlight.value), chunks, fault, old(nextMessageId))|
      ensures Completes(fault, LoadHistory) ==>
        context == History(old(messages), old(inFlight.value.sessionId)) + [ModelMessage(UserTurn, old(inFlight.value.prompt))]
      ensures !Completes(fault, LoadHistory) ==> context == []
      ensures old(queue) == [] ==> !running && queue == [] && started == old(started)
      ensures old(queue) != [] ==>
        running && inFlight == Some(old(queue)[0]) && queue == old(queue)[1..] && started == old(started) + [old(queue)[0]]
    {
      var job := inFlight.value;
      context := RunJob(job, chunks, fault);
      running, inFlight := false, None;
      Drain();
    }

    /** `run`: the job's statements, stream and emissions, in order. */
    method RunJob(job: Job, chunks: seq<Chunk>, fault: Fault) returns (context: seq<ModelMessage>)
      requires Coherent()
      modifies this`sessions, this`messages, this`nextMessageId, this`emitted, Subscribers()
      ensures Coherent()
      ensures emitted == old(emitted) + JobEvents(job.sessionId, chunks, fault)
      ensures forall s :: s in Subscribers() ==> s.readyState == old(s.readyState) && s.closeCode == old(s.closeCode)
      ensures forall s :: s in Subscribers() ==>
        s.sent == if s.readyState == Open
                  then old(s.sent) + Deliveries(ChannelsOf(s), JobEvents(job.sessionId, chunks, fault))
                  else old(s.sent)
      ensures sessions == old(sessions) + (if Completes(fault, EnsureSession) then {job.sessionId} else {})
      ensures messages == old(messages) + PersistedRows(job, chunks, fault, old(nextMessageId))
      ensures nextMessageId == old(nextMessageId) + |PersistedRows(job, chunks, fault, old(nextMessageId))|
      ensures Completes(fault, LoadHistory) ==>
        context == History(old(messages), job.sessionId) + [ModelMessage(UserTurn, job.prompt)]
      ensures !Completes(fault, LoadHistory) ==> context == []
    {
      context := Prepare(job, fault);
      if !Completes(fault, LoadHistory) {
        EmitAll([Failed(job.sessionId, fault.message)]);
      } else {
        Converse(job.sessionId, chunks, fault);
      }
    }

    /** The part of `run` after the history is read: the stream loop and its
        emissions, then the closing statement and event. */
    method Converse(sid: string, chunks: seq<Chunk>, fault: Fault)
      requires Coherent() && sid in sessions && Completes(fault, LoadHistory)
      modifies this`messages, this`nextMessageId, this`emitted, Subscribers()
      ensures Coherent()
      ensures emitted == old(emitted) + JobEvents(sid, chunks, fault)
      ensures forall s :: s in Subscribers() ==> s.readyState == old(s.readyState) && s.closeCode == old(s.closeCode)
      ensures forall s :: s in Subscribers() ==>
        s.sent == if s.readyState == Open
                  then old(s.sent) + Deliveries(ChannelsOf(s), JobEvents(sid, chunks, fault))
                  else old(s.sent)
      ensures messages == old(messages) +
        (match JobReply(chunks, fault)
         case Some(t) => [MessageRow(old(nextMessageId), sid, Agent, t)]
         case None => [])
      ensures nextMessageId == old(nextMessageId) + (if JobReply(chunks, fault).Some? then 1 else 0)
    {
      var streamed, fullText, aborted := FoldStream(sid, chunks);
      var tail: seq<Event> := [];
      if !aborted {
        tail := Finish(sid, fullText, fault);
      }
      assert JobEvents(sid, chunks, fault) == streamed + tail;
      EmitInTurn(streamed, tail);
    }

    /** The stream's events, then the closing ones. The closing statement
        writes no field an emission touches, so the emissions are gathered
        here after it. */
    method EmitInTurn(streamed: seq<Event>, tail: seq<Event>)
      requires UniqueListeners(listeners)
      modifies this`emitted, Subscribers()
      ensures emitted == old(emitted) + (streamed + tail)
      ensures forall s :: s in Subscribers() ==> s.readyState == old(s.readyState) && s.closeCode == old(s.closeCode)
      ensures forall s :: s in Subscribers() ==>
        s.sent == if s.readyState == Open then old(s.sent) + Deliveries(ChannelsOf(s), streamed + tail) else old(s.sent)
    {
      EmitAll(streamed);
      EmitAll(tail);
      forall s | s in Subscribers() {
        DeliveriesAppend(ChannelsOf(s), streamed, tail);
      }
    }

    /** The statements before the stream: ensure the session row, store the
        prompt, read the session's history; each runs only if the previous
        one succeeded. */
    method Prepare(job: Job, fault: Fault) returns (context: seq<ModelMessage>)
      requires Coherent()
      modifies this`sessions, this`messages, this`nextMessageId
      ensures Coherent()
      ensures sessions == old(sessions) + (if Completes(fault, EnsureSession) then {job.sessionId} else {})
      ensures messages == old(messages) +
        (if Completes(fault, InsertPrompt) then [MessageRow(old(nextMessageId), job.sessionId, User, job.prompt)] else [])
      ensures nextMessageId == old(nextMessageId) + (if Completes(fault, InsertPrompt) then 1 else 0)
      ensures Completes(fault, LoadHistory) ==>
        context == History(old(messages), job.sessionId) + [ModelMessage(UserTurn, job.prompt)]
      ensures !Completes(fault, LoadHistory) ==> context == []
    {
      context := [];
      if !Completes(fault, EnsureSession) {
        return;
      }
      sessions := sessions + {job.sessionId};
      if !Completes(fault, InsertPrompt) {
        return;
      }
      var promptRow := MessageRow(nextMessageId, job.sessionId, User, job.prompt);
      HistoryAppend(messages, job.sessionId, promptRow);
      RowsFitAppend(messages, nextMessageId, sessions, promptRow);
      messages := messages + [promptRow];
      nextMessageId := nextMessageId + 1;
      if Completes(fault, LoadHistory) {
        context := History(messages, job.sessionId);
      }
    }

    /** After an error-free stream: an empty text stores nothing and closes
        silently for an `alert_` session, with an empty `agent_done` for any
        other; a non-empty text is stored as one `agent` row and closed with
        `agent_done`, unless storing it fails. Returns the closing events. */
    method Finish(sid: string, fullText: string, fault: Fault) returns (tail: seq<Event>)
      requires Coherent() && sid in sessions
      modifies this`messages, this`nextMessageId
      ensures Coherent()
      ensures tail == ClosingEvents(sid, fullText, fault)
      ensures fullText == "" || fault.FailsAt? ==> messages == old(messages) && nextMessageId == old(nextMessageId)
      ensures fullText != "" && fault.NoFault? ==>
        messages == old(messages) + [MessageRow(old(nextMessageId), sid, Agent, fullText)] &&
        nextMessageId == old(nextMessageId) + 1
    {
      if fullText == "" {
        tail := if StartsWith(sid, "alert_") then [] else [Done(sid, "")];
      } else if fault.FailsAt? {
        tail := [Failed(sid, fault.message)];
      } else {
        RowsFitAppend(messages, nextMessageId, sessions, MessageRow(nextMessageId, sid, Agent, fullText));
        messages := messages + [MessageRow(nextMessageId, sid, Agent, fullText)];
        nextMessageId := nextMessageId + 1;
        tail := [Done(sid, fullText)];
      }
    }
  }

  /** The rows a job stores: the prompt, unless its statement or the one
      before failed, then the reply if there is one. */
  function PersistedRows(job: Job, chunks: seq<Chunk>, fault: Fault, firstId: nat): (r: seq<MessageRow>)
    ensures |r| <= 2
    ensures forall i :: 0 <= i < |r| ==> r[i].id == firstId + i && r[i].sessionId == job.sessionId
    ensures r != [] <==> Completes(fault, InsertPrompt)
    ensures r != [] ==> r[0].role == User && r[0].content == job.prompt
    ensures |r| == 2 <==> Completes(fault, InsertPrompt) && JobReply(chunks, fault).Some?
    ensures |r| == 2 ==> r[1].role == Agent && Some(r[1].content) == JobReply(chunks, fault)
  {
    if !Completes(fault, InsertPrompt) then []
    else
      [MessageRow(firstId, job.sessionId, User, job.prompt)] +
      (match JobReply(chunks, fault)
       case Some(t) => [MessageRow(firstId + 1, job.sessionId, Agent, t)]
       case None => [])
  }
}
