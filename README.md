# agentX trade-signalling core, in Dafny

agentX pairs an always-on agent server with a mobile wallet app. The server
has several parts:

- a single-flight prompt queue (`AgentRunner`), which streams a language
  model's reply to every connected client;
- a price monitor, which fires stored price alerts into signing requests;
- the agent's four Solana tools;
- a swap builder's token table;
- the PostgreSQL-backed store of alerts, pending transactions and devices.

The mobile client keeps a transcript, reacts to the server's envelopes,
approves or rejects signing requests, and reconnects with a capped
exponential backoff.

This project models those parts as Dafny modules, one per source file.

- `Schemas`: the wire protocol, with the zod validation of inbound envelopes
  over a parsed JSON value.
- `AlertsDb`: the store, a `Store` class whose three tables are sequences of
  rows. Reads are functions of a table.
- `ClientRegistry`: the registry of sockets. `Sockets` holds the socket
  itself.
- `AgentRunner`: the runner, with its queue, flag, listeners and emitted
  events.
- `AgentEvents`: the event fan-out.
- `WsRouter`: the per-connection handler.
- `PriceMonitor`: the monitor's specification. The functions `FiredAlerts`,
  `AlertTxs`, `AlertRequests` and `CheckJournal` state what a check does,
  and the per-alert steps of `checkAlerts` are proved against them.
- `MonitorJob`: the monitor itself, a `Monitor` class over its price table,
  whose check loop is proved against `PriceMonitor`.
- `SolanaTools`: the four tools.
- `BuildTx`: the token table and the checks the swap builder makes before
  its network calls.
- `AgentProvider`: the mobile client. Its reducers are functions, and its
  connection state is an `AgentClient` class.

The helper modules are `Wrappers` (Option, Result), `Seqs`, and `Strings`:
ASCII `toUpperCase`, `trim` and `String(n)`.

Where the design description and the code disagree, the model follows the
code:

- The connection handler neither registers the socket with the registry nor
  replays pending requests on connect. This is recorded under Findings.
- `tx_signed` and `tx_rejected` frames are accepted and ignored. Nothing
  finalizes the transaction.
- The price monitor does not enqueue an autonomous prompt. It builds the
  pending transaction and broadcasts the signing request itself.
- `markAlertTriggered` is an unconditional update, not a conditional
  `active → triggered` one.
- Agent events reach a socket through the five listeners its handler
  attaches to the runner, not through the registry.

## Model

| member | source | states |
|---|---|---|
| Strings.Upper | server/src/agent/tools/solana.ts:22 | upper-casing keeps the length (ASCII `toUpperCase`) |
| Strings.UpperIdempotent | server/src/jobs/priceMonitor.ts:92 | upper-casing twice is upper-casing once |
| Strings.UpperHasNoLowercase | server/src/agent/tools/solana.ts:22 | an upper-cased string holds no lower-case ASCII letter |
| Strings.Trim | mobile/components/agent/agent-provider.tsx:239 | the result is the piece of the input left once the leading and trailing white space is dropped; it is empty iff the input is blank, and otherwise starts and ends with a non-space |
| Strings.TrimBlank | mobile/components/agent/agent-provider.tsx:239-240 | a blank string trims to the empty string |
| Strings.NatToString | mobile/components/agent/agent-provider.tsx:101 | `String(n)` has at least one digit, and exactly one iff n < 10 |
| Strings.NatToStringInjective | mobile/components/agent/agent-provider.tsx:101 | distinct ids render to distinct strings |
| Sockets.Socket.constructor | server/src/ws/clientRegistry.ts:4-8 | a socket starts in the given ready state with nothing sent |
| Sockets.Socket.Transmit | server/src/ws/clientRegistry.ts:7 | `send` appends exactly the envelope |
| Sockets.Socket.Close | server/src/routes/wsRouter.ts:22 | `close(code)` moves the socket to closing with that code |
| Sockets.Send | server/src/routes/wsRouter.ts:8-13 | the router's `send` writes iff the socket is open, and otherwise changes nothing |
| ClientRegistry.Registry.constructor | server/src/ws/clientRegistry.ts:16 | the registry starts empty |
| ClientRegistry.Registry.Register | server/src/ws/clientRegistry.ts:18-20 | the socket is added; registering a present socket leaves one entry, and the size grows by one only for a new socket |
| ClientRegistry.Registry.Unregister | server/src/ws/clientRegistry.ts:22-24 | the socket is removed; removing an absent one changes nothing |
| ClientRegistry.Registry.Size | server/src/ws/clientRegistry.ts:35-37 | the count of distinct registered sockets, zero iff none |
| ClientRegistry.Registry.Broadcast | server/src/ws/clientRegistry.ts:26-33 | every registered open socket receives the envelope exactly once, others receive nothing, and no ready state or close code changes |
| Schemas.ParsePromptPayload | server/src/protocol/schemas.ts:7-10 | an accepted payload is a prompt of length at least one |
| Schemas.ParseInbound | server/src/protocol/schemas.ts:39-44 | an accepted frame is valid and its `type` field is the tag of the envelope it parsed to |
| Schemas.InboundRoundTrip | server/src/protocol/schemas.ts:7-44 | every valid inbound envelope, encoded as a client builds it, parses back to itself |
| Schemas.InboundToJson | mobile/components/agent/agent-provider.tsx:206-244 | every frame the client builds is an object whose `type` is its envelope's tag, with a `payload` for every envelope but `ping` |
| Schemas.ParsePromptExactly | server/src/protocol/schemas.ts:7-15 | a frame parses to a given prompt iff it is tagged `prompt` with that non-empty `prompt` string and that optional `session_id` |
| Schemas.ParseTxAcksExactly | server/src/protocol/schemas.ts:22-37 | `tx_signed` parses iff both `tx_id` and `signature` are strings; `tx_rejected` iff `tx_id` is, with `reason` optional |
| Schemas.InboundTagsExactly | server/src/protocol/schemas.ts:39-44 | only the four inbound tags are ever accepted |
| Schemas.OutboundTagDiscriminates | server/src/protocol/schemas.ts:116-124 | two outbound envelopes share a tag iff they have the same shape |
| Schemas.OutboundTagsExactly | server/src/protocol/schemas.ts:116-124 | there are exactly seven outbound tags, every envelope has one, and each is used |
| Schemas.ParseRole | server/src/protocol/schemas.ts:138 | a REST role is `user` or `agent`, both ways |
| Schemas.ParseRestMessage | server/src/protocol/schemas.ts:135-141 | an object is accepted iff `id` is a number, `session_id`, `content` and `created_at` are strings and `role` is `user` or `agent`; the parsed row holds those values |
| Schemas.PromptRequestShape | server/src/protocol/schemas.ts:130-133 | the REST prompt request is accepted iff `prompt` is a non-empty string and `session_id` is absent or a string |
| AgentEvents.Forward | server/src/routes/wsRouter.ts:29-43 | a forwarded envelope carries the tag of the event's channel |
| AgentEvents.ForwardInjective | server/src/routes/wsRouter.ts:29-43 | two events forward to the same envelope iff they are equal, and the envelope names the event's session |
| AgentEvents.Deliveries | server/src/routes/wsRouter.ts:45-49 | a subscriber is sent at most one envelope per event |
| AgentEvents.DeliveriesSound | server/src/routes/wsRouter.ts:45-49 | every envelope a subscriber is sent forwards an event on one of its channels |
| AgentEvents.DeliveriesAppend | server/src/agent/AgentRunner.ts:150-167 | the deliveries of consecutive emissions are the deliveries of each, in turn |
| AgentEvents.DeliveriesAll | server/src/routes/wsRouter.ts:45-49 | a subscriber to all five channels is sent every event, forwarded, in order |
| AgentRunner.StreamAppend | server/src/agent/AgentRunner.ts:150-168 | the events and text of an error-free stream prefix compose with those of what follows |
| AgentRunner.AccumulatedTextIsDeltas | server/src/agent/AgentRunner.ts:149-153 | the accumulated text is the concatenation of the emitted deltas |
| AgentRunner.StreamEventsShape | server/src/agent/AgentRunner.ts:150-167 | stream events carry the job's session and no `agent_done`; only an error chunk yields an error event, and it is the last |
| AgentRunner.FoldStream | server/src/agent/AgentRunner.ts:149-168 | the loop emits exactly the stream's events, accumulates exactly its text, and stops iff an error chunk occurs |
| AgentRunner.StreamEvents | server/src/agent/AgentRunner.ts:150-168 | at most one event per chunk (`StreamEventsShape` adds that each carries the job's session) |
| AgentRunner.NoDeltasNoText | server/src/agent/AgentRunner.ts:149-153 | `StreamText`: a stream without text deltas accumulates no text |
| AgentRunner.ClosingEvents | server/src/agent/AgentRunner.ts:170-192 | at most one closing event, terminal and of the job's session; none exactly for an empty text in an `alert_` session |
| AgentRunner.JobReply | server/src/agent/AgentRunner.ts:170-189 | a reply is stored only when no statement failed and the stream was error-free, and then it is the whole non-empty text; such a stream always stores one |
| AgentRunner.JobEvents | server/src/agent/AgentRunner.ts:105-197 | every event carries the job's session, and a job emits at least one event unless it is an `alert_` session whose history was read |
| AgentRunner.PersistedRows | server/src/agent/AgentRunner.ts:114-118 | at most two rows under consecutive ids from the counter, all in the job's session: the prompt iff its insert ran, then the agent reply iff one is stored |
| AgentRunner.ErrorChunkEndsJob | server/src/agent/AgentRunner.ts:162-167 | an error chunk ends the job with one error event carrying its message; no reply is stored and no `agent_done` is emitted |
| AgentRunner.EmptyTextJob | server/src/agent/AgentRunner.ts:170-183 | an empty text stores nothing; an `alert_` session emits no completion, any other session ends with `agent_done(sid, "")` |
| AgentRunner.ReplyThenDone | server/src/agent/AgentRunner.ts:185-192 | a stored reply is the non-empty concatenation of the deltas, and the job ends with one `agent_done` carrying it |
| AgentRunner.AtMostOneTerminal | server/src/agent/AgentRunner.ts:150-197 | a job emits at most one `agent_done`/`error` event, as its last event |
| AgentRunner.FailureReported | server/src/agent/AgentRunner.ts:193-197 | a failing statement ends the job with an error event carrying its message, and no reply is stored |
| AgentRunner.History | server/src/agent/AgentRunner.ts:121-131 | the history has at most one model message per stored row |
| AgentRunner.HistoryAppend | server/src/agent/AgentRunner.ts:121-131 | history keeps table order: a new row of the session appends its message (`user` stays user, anything else is the assistant), a row of another session changes nothing |
| AgentRunner.Without | server/src/routes/wsRouter.ts:84-91 | `off` removes the listener and keeps every other one |
| AgentRunner.WithoutUnique | server/src/routes/wsRouter.ts:84-91 | detaching keeps the listeners distinct |
| AgentRunner.Runner.constructor | server/src/agent/AgentRunner.ts:84-86 | the runner starts with an empty queue, not running, with no listeners |
| AgentRunner.Runner.On | server/src/routes/wsRouter.ts:45-49 | `on` attaches exactly that listener at the end |
| AgentRunner.Runner.Off | server/src/routes/wsRouter.ts:85-89 | `off` detaches that listener, and only it |
| AgentRunner.Runner.Emit | server/src/agent/AgentRunner.ts:76-82 | `emit` sends the forwarded envelope to each open socket listening on the event's channel, and to no other |
| AgentRunner.Runner.EmitAll | server/src/agent/AgentRunner.ts:150-167 | emitting a run of events delivers them to each open subscriber in order |
| AgentRunner.Runner.Drain | server/src/agent/AgentRunner.ts:95-98 | nothing happens while a job runs or the queue is empty; otherwise exactly the head is started and removed |
| AgentRunner.Runner.Enqueue | server/src/agent/AgentRunner.ts:88-92 | one job joins the tail under the given session id or a fresh one, it starts at once when nothing runs, and single flight is kept |
| AgentRunner.Runner.Complete | server/src/agent/AgentRunner.ts:99-102 | the settled job's events, rows and history are those of its specification, the message-id counter advances by the number of rows stored, then `running` is cleared and the next job starts in FIFO order |
| AgentRunner.Runner.RunJob | server/src/agent/AgentRunner.ts:105-197 | one job emits exactly `JobEvents` to each open subscriber, stores exactly `PersistedRows` and advances the message-id counter by their number, and hands the model its session history ending with the prompt |
| AgentRunner.Runner.Converse | server/src/agent/AgentRunner.ts:148-192 | after the history is read, the stream's events and closing events are emitted; the reply, if any, is stored under the next message id, which the counter then passes |
| AgentRunner.Runner.EmitInTurn | server/src/agent/AgentRunner.ts:150-192 | the stream's events and then the closing events reach each open subscriber in that order |
| AgentRunner.Runner.Prepare | server/src/agent/AgentRunner.ts:106-131 | the session row is ensured and the prompt stored before the history is read, so the history ends with the prompt; a failing statement stops the rest |
| AgentRunner.Runner.Finish | server/src/agent/AgentRunner.ts:170-192 | an empty text stores nothing; a non-empty text is stored as one agent row before `agent_done` |
| AlertsDb.TxIdOfInjective | server/src/db/alertsDb.ts:94 | distinct draws of the id source give distinct transaction ids |
| AlertsDb.TxIdOf | server/src/db/alertsDb.ts:94 | every transaction id is a non-empty string with the `tx-` prefix |
| AlertsDb.WithStatus | server/src/db/alertsDb.ts:58-61 | `WHERE status = s` keeps exactly the rows whose status text is s |
| AlertsDb.WithStatusAscending | server/src/db/alertsDb.ts:58-61 | filtering keeps ascending id order |
| AlertsDb.ActiveAlerts | server/src/db/alertsDb.ts:65-67 | exactly the active alerts, in ascending id order |
| AlertsDb.Reverse | server/src/db/alertsDb.ts:60 | reversal maps position i to position n-1-i |
| AlertsDb.ReverseOrder | server/src/db/alertsDb.ts:58-63 | reversal keeps the members and turns ascending ids into descending |
| AlertsDb.GetAlerts | server/src/db/alertsDb.ts:58-63 | descending id order; a missing or empty status selects every alert, any other selects exactly the rows with that status text |
| AlertsDb.AwaitingTxs | server/src/db/alertsDb.ts:120-126 | exactly the rows awaiting a signature and expiring after now |
| AlertsDb.InsertByCreation | server/src/db/alertsDb.ts:124 | inserting keeps creation order and adds exactly that row |
| AlertsDb.SortByCreation | server/src/db/alertsDb.ts:124 | `ORDER BY created_at`: ascending creation time, and a permutation of the rows |
| AlertsDb.PendingTxs | server/src/db/alertsDb.ts:120-126 | exactly the rows with status `pending_signature` and expiry after now, oldest first, each once |
| AlertsDb.TxById | server/src/db/alertsDb.ts:128-133 | a row with that id if the table holds one, and nothing otherwise |
| AlertsDb.DevicePushTokens | server/src/db/alertsDb.ts:177-180 | the push tokens, one per device, in table order |
| AlertsDb.CountWithStatus | server/src/db/alertsDb.ts:153-158 | the count of rows with a status, zero iff none has it |
| AlertsDb.Store.TxIdsUnique | server/src/db/database.ts:52 | the transaction table's primary keys are distinct |
| AlertsDb.Store.NextTxIdFresh | server/src/db/alertsDb.ts:94 | the next transaction id is not yet in the table |
| AlertsDb.Store.constructor | server/src/db/database.ts:33-73 | the tables start empty and the id serial starts at 1 |
| AlertsDb.Store.CreateAlert | server/src/db/alertsDb.ts:38-56 | one new active row with the next serial id and the given values; ids stay ascending |
| AlertsDb.Store.MarkAlertTriggered | server/src/db/alertsDb.ts:69-71 | the row with that id becomes triggered whatever its status, and no other row changes |
| AlertsDb.Store.CancelAlert | server/src/db/alertsDb.ts:73-80 | only an active row with that id is cancelled; the result is true iff such a row existed, iff the table changed |
| AlertsDb.Store.ResetTriggeredAlerts | server/src/db/alertsDb.ts:153-158 | every triggered row becomes active, others stay, and the result is how many changed |
| AlertsDb.Store.CreatePendingTx | server/src/db/alertsDb.ts:86-105 | one new `pending_signature` row under a fresh id with the given alert id or none; an alert id naming no alert fails the foreign key and changes nothing |
| AlertsDb.Store.UpdateTxStatus | server/src/db/alertsDb.ts:107-117 | only the row with that id takes the final status and signature (none when omitted); a second call overwrites |
| AlertsDb.Store.RefreshTx | server/src/db/alertsDb.ts:136-146 | that row takes the new payload and expiry and returns to `pending_signature` from any status; an unknown id changes nothing |
| AlertsDb.Store.ClearPendingTxs | server/src/db/alertsDb.ts:161-163 | the transaction table becomes empty |
| AlertsDb.Store.RegisterDevice | server/src/db/alertsDb.ts:169-175 | the token is registered, and registering a present token changes no token list |
| AlertsDb.SameIdsSameAlertIds | server/src/db/alertsDb.ts:69-80 | an update in place keeps the id set and the id order |
| PriceMonitor.Drift | server/src/jobs/priceMonitor.ts:24-27 | a drifted price is never negative |
| PriceMonitor.DriftBounded | server/src/jobs/priceMonitor.ts:24-27 | one drift step moves a price by at most 0.3% either way |
| PriceMonitor.CrossedAtTarget | server/src/jobs/priceMonitor.ts:98-101 | at the target both directions fire; elsewhere exactly one does |
| PriceMonitor.Crossed | server/src/jobs/priceMonitor.ts:98-101 | at the target an alert fires whatever its direction; elsewhere exactly when the price is on the side its direction names |
| PriceMonitor.Fires | server/src/jobs/priceMonitor.ts:92-101 | only an alert whose upper-cased token has a price fires, and a price exactly at the target always fires |
| PriceMonitor.FiredAmong | server/src/jobs/priceMonitor.ts:91-103 | the alerts kept from a prefix all fire, at most one per row |
| PriceMonitor.FiredAmongExactly | server/src/jobs/priceMonitor.ts:91-103 | an alert is kept from a prefix iff it is in it and fires |
| PriceMonitor.FiredAlerts | server/src/jobs/priceMonitor.ts:91-103 | the fired alerts all fire, at most one per row |
| PriceMonitor.FiredAlertsExactly | server/src/jobs/priceMonitor.ts:91-103 | an alert fires in the check iff it is in the snapshot, its upper-cased token has a price, and that price crosses its target |
| PriceMonitor.RequestsMatchTxs | server/src/jobs/priceMonitor.ts:118-147 | each fired alert gets one transaction and one request, and the request carries that transaction's id, tokens, amount and payload |
| PriceMonitor.AlertTxsAt | server/src/jobs/priceMonitor.ts:118-125 | the k-th fired alert's transaction takes the k-th fresh id, the alert's id, tokens and amount, and expires five minutes after now |
| PriceMonitor.AlertTx | server/src/jobs/priceMonitor.ts:112-125 | the transaction is tied to the alert, carries its tokens, amount and the payload, is pending without a signature, and expires five minutes after it is created |
| PriceMonitor.AlertRequest | server/src/jobs/priceMonitor.ts:127-144 | the request carries its transaction's id, tokens, amount, payload and expiry, no reason, and a trigger with the alert id, raw token, target, observed price and direction |
| PriceMonitor.AlertRequestsAt | server/src/jobs/priceMonitor.ts:127-144 | the k-th request carries the k-th id, and its trigger holds the alert id, token, target, observed price and direction |
| PriceMonitor.MarksExactlyFiring | server/src/jobs/priceMonitor.ts:88-110 | the check marks exactly the active alerts that fire |
| PriceMonitor.NothingFiredNothingChanged | server/src/jobs/priceMonitor.ts:88-103 | when nothing fires, nothing is marked, inserted, journalled or sent |
| PriceMonitor.RecordFiring | server/src/jobs/priceMonitor.ts:110-125 | the alert is marked before its transaction is inserted under the next id |
| PriceMonitor.FiringStep | server/src/jobs/priceMonitor.ts:110-125 | one more firing extends the marked ids, inserted rows and journal by that alert's entries |
| PriceMonitor.Announce | server/src/jobs/priceMonitor.ts:147 | one broadcast extends what each open socket has been sent by that request; ready states and close codes are kept |
| PriceMonitor.FireAlert | server/src/jobs/priceMonitor.ts:105-147 | a firing alert is marked, its transaction inserted, and its request broadcast to every open socket; no socket's state or close code changes |
| PriceMonitor.VisitAlert | server/src/jobs/priceMonitor.ts:91-147 | an alert without a price, or not crossed, changes nothing; a firing one is recorded and announced; close codes are kept |
| PriceMonitor.CheckNext | server/src/jobs/priceMonitor.ts:91-154 | one turn of the loop keeps the check in step with its specification and keeps every close code |
| MonitorJob.RunChecks | server/src/jobs/priceMonitor.ts:91-154 | after the loop, the tables and sockets hold exactly the effects of the fired alerts, in snapshot order; ready states and close codes are as before |
| MonitorJob.Monitor.constructor | server/src/jobs/priceMonitor.ts:17-22 | the feed starts at the mock prices |
| MonitorJob.Monitor.TickPrices | server/src/jobs/priceMonitor.ts:29-35 | the symbols stay, USDC is unchanged, every other price takes one drift step and stays non-negative |
| MonitorJob.Monitor.CheckAlerts | server/src/jobs/priceMonitor.ts:87-155 | exactly the active alerts that fire are marked, each gets one pending transaction under successive fresh ids, and every open registered socket receives their requests in order; no socket's ready state or close code changes |
| MonitorJob.Monitor.TriggerAtPrice | server/src/jobs/priceMonitor.ts:161-164 | the price of the upper-cased symbol is set, then the check runs against the new table with the effects `CheckAlerts` states, close codes included |
| SolanaTools.GetSolanaPrice | server/src/agent/tools/solana.ts:21-29 | the upper-cased symbol's price in USD when the table has it, and otherwise no price with `Unknown token: SYMBOL` |
| SolanaTools.QuoteIgnoresCase | server/src/agent/tools/solana.ts:22 | the lookup gives the same quote for any case of the symbol |
| SolanaTools.QuoteDecidesFiring | server/src/agent/tools/solana.ts:21-29 | the tool and the monitor read the same table: an alert fires iff the tool's quote for its token crosses its target |
| SolanaTools.CreatePriceAlert | server/src/agent/tools/solana.ts:51-74 | one active alert without a session and with upper-cased tokens is stored, and the report echoes it with its new id |
| SolanaTools.CreatedAlertAwaitsCrossing | server/src/agent/tools/solana.ts:51-59 | a created alert whose price has not crossed is active and does not fire yet |
| SolanaTools.AgentRequest | server/src/agent/tools/solana.ts:110-128 | the request carries the id, upper-cased tokens, the reason, alert id 0 and the from-token as trigger token |
| SolanaTools.QueuedMessage | server/src/agent/tools/solana.ts:145 | the message quotes the reason |
| SolanaTools.QueueSigningRequest | server/src/agent/tools/solana.ts:98-146 | one pending transaction without alert and with upper-cased tokens, expiring in five minutes, is stored under a fresh id; its request reaches every open registered socket, whose ready state and close code are kept; the report has that id, `pushed_to_mobile` and the registered count |
| SolanaTools.GetPendingSigningRequests | server/src/agent/tools/solana.ts:159-171 | `count` is the list's length, and the list summarises the pending transactions one for one in store order |
| SolanaTools.ListingExactly | server/src/agent/tools/solana.ts:159-171 | the listing names exactly the awaiting, unexpired transactions |
| SolanaTools.QueuedRequestListed | server/src/agent/tools/solana.ts:98-108 | a queued request is listed until it expires or is settled |
| BuildTx.MintForToken | server/src/solana/buildTx.ts:10-16 | SOL and USDC, in any case, map to their mints; any other token fails with `Unsupported token` naming it |
| BuildTx.Decimals | server/src/solana/buildTx.ts:18-20 | the decimals of the upper-cased token, or `Unknown token` naming it |
| BuildTx.ToSmallestUnit | server/src/solana/buildTx.ts:18-22 | the amount times ten to the decimals, rounded to nearest with halves up; an unknown token fails |
| BuildTx.WholeAmountsExact | server/src/solana/buildTx.ts:21 | a whole amount converts without rounding |
| BuildTx.TablesAgree | server/src/solana/buildTx.ts:5-16 | a token has a mint iff it has decimals; SOL has 9 and USDC 6 |
| BuildTx.MintIgnoresCase | server/src/solana/buildTx.ts:10-13 | a token and its upper-cased form resolve the same way |
| BuildTx.MintsDistinct | server/src/solana/buildTx.ts:2-3 | distinct supported tokens have distinct mints |
| BuildTx.PrepareSwap | server/src/solana/buildTx.ts:39-48 | the input mint is checked first, then the output mint, then the amount, before any request; success carries both mints, the converted amount and 50 bps slippage |
| AgentProvider.ApplyDelta | mobile/components/agent/agent-provider.tsx:134-141 | a streaming last message grows by the text with the length unchanged; otherwise one streaming agent message is appended |
| AgentProvider.ApplyDone | mobile/components/agent/agent-provider.tsx:143-149 | a streaming last message takes the text and stops streaming; otherwise the list is unchanged |
| AgentProvider.DeltasExtendStreaming | mobile/components/agent/agent-provider.tsx:134-141 | deltas on a streaming message all land in it, in order |
| AgentProvider.StreamedReply | mobile/components/agent/agent-provider.tsx:134-141 | a reply streamed onto a settled transcript becomes one new streaming message holding the concatenated deltas |
| AgentProvider.DoneSettlesReply | mobile/components/agent/agent-provider.tsx:134-149 | `agent_done` with the full text settles that message with the same content |
| AgentProvider.FilterHistory | mobile/components/agent/agent-provider.tsx:99-102 | history messages are never streaming, at most one per row |
| AgentProvider.FilterHistoryExactly | mobile/components/agent/agent-provider.tsx:99-102 | the history holds exactly the rows of the stored session |
| AgentProvider.FilterHistoryAppend | mobile/components/agent/agent-provider.tsx:99-102 | filtering keeps the server's order |
| AgentProvider.NextDelay | mobile/components/agent/agent-provider.tsx:186 | the next delay never exceeds thirty seconds and never falls below a delay within the bounds |
| AgentProvider.DelayAfter | mobile/components/agent/agent-provider.tsx:112-188 | every delay lies between one and thirty seconds |
| AgentProvider.DelayAfterClosedForm | mobile/components/agent/agent-provider.tsx:186 | after n failed reconnection attempts the delay is min(1000·2ⁿ, 30000) |
| AgentProvider.DelayCapped | mobile/components/agent/agent-provider.tsx:185-188 | after five failed reconnection attempts in a row the delay is thirty seconds, since each retry doubles the delay when its timer fires |
| AgentProvider.ApprovalFrame | mobile/components/agent/agent-provider.tsx:205-224 | an expired request is rejected as `expired`; otherwise the signature is sent, or `sign_failed` when the wallet threw |
| AgentProvider.IsExpired | mobile/components/agent/agent-provider.tsx:67-69 | a request can still be signed up to and including its expiry instant |
| AgentProvider.AgentClient.constructor | mobile/components/agent/agent-provider.tsx:74-81 | empty transcript, disconnected, nothing pending, delay one second |
| AgentProvider.AgentClient.Send | mobile/components/agent/agent-provider.tsx:244 | a frame is sent only while a socket is held |
| AgentProvider.AgentClient.LoadHistory | mobile/components/agent/agent-provider.tsx:90-106 | the session id is kept, and a successful response replaces the transcript with that session's history |
| AgentProvider.AgentClient.Connect | mobile/components/agent/agent-provider.tsx:114-123 | nothing once torn down; otherwise connecting with a held socket |
| AgentProvider.AgentClient.OnOpen | mobile/components/agent/agent-provider.tsx:125-128 | connected, with the delay reset to one second |
| AgentProvider.AgentClient.OnClose | mobile/components/agent/agent-provider.tsx:181-190 | disconnected with no socket; unless torn down, a retry is due after the current delay, which is within bounds |
| AgentProvider.AgentClient.Retry | mobile/components/agent/agent-provider.tsx:185-188 | the delay doubles up to its cap and the client reconnects |
| AgentProvider.AgentClient.Destroy | mobile/components/agent/agent-provider.tsx:194-198 | torn down, with no socket |
| AgentProvider.AgentClient.OnMessage | mobile/components/agent/agent-provider.tsx:130-179 | deltas and done reduce the transcript; done and error clear thinking; tool call sets the activity, and done, tool result and error clear it; an expired request is rejected as `expired`, a live one becomes pending |
| AgentProvider.AgentClient.ApproveTx | mobile/components/agent/agent-provider.tsx:201-227 | nothing without a pending request; otherwise its decision frame is sent and the request cleared |
| AgentProvider.AgentClient.RejectTx | mobile/components/agent/agent-provider.tsx:229-236 | nothing without a pending request; otherwise `tx_rejected` with the reason (default `user_declined`) is sent and the request cleared |
| AgentProvider.AgentClient.SendPrompt | mobile/components/agent/agent-provider.tsx:238-245 | blank text changes nothing; otherwise one settled user message with the trimmed text, thinking set, and the prompt sent under the stored or a fresh session |
| AgentProvider.SentFramesAccepted | mobile/components/agent/agent-provider.tsx:244 | every frame the client sends is parsed by the server's inbound schema back to itself |
| WsRouter.ConnectionListeners | server/src/routes/wsRouter.ts:29-49 | a connection attaches five distinct listeners, one per channel, all writing to it |
| WsRouter.Dispatch | server/src/routes/wsRouter.ts:51-81 | a reply is a `pong` or an error with an empty session; a prompt is started iff the frame parses to a prompt, and it is non-empty |
| WsRouter.DispatchExactly | server/src/routes/wsRouter.ts:51-81 | non-JSON replies `Invalid JSON`, a schema failure replies `Unknown or malformed message type`, `ping` replies `pong`, a prompt is enqueued with its text and session, and both acknowledgements are ignored, each both ways |
| WsRouter.PromptFrameEnqueued | server/src/routes/wsRouter.ts:77-80 | a prompt frame built by a client is enqueued exactly as written |
| WsRouter.OnConnect | server/src/routes/wsRouter.ts:19-49 | a wrong key closes with 1008 and attaches nothing; the right key attaches the five listeners, which cover every channel |
| WsRouter.ApiKey | server/src/routes/wsRouter.ts:6 | the configured key when the environment sets one, `change_me` otherwise |
| WsRouter.OnMessage | server/src/routes/wsRouter.ts:51-82 | a reply goes to this socket only if open and nothing else changes; a prompt is submitted once, starting at once when the runner is idle and joining the queue tail otherwise; an acknowledgement changes nothing |
| WsRouter.OnClose | server/src/routes/wsRouter.ts:84-91 | the connection's listeners are all detached, and every other one stays |
| WsRouter.ConnectedClientMissesBroadcast | server/src/routes/wsRouter.ts:19-49 | as written, an authorised open connection receives nothing from a registry broadcast |
| WsRouter.OnConnectRegistering | server/src/routes/wsRouter.ts:19-49 | connect as intended: an accepted socket is also registered |
| WsRouter.OnCloseUnregistering | server/src/routes/wsRouter.ts:84-91 | close as intended: the socket is also unregistered |
| WsRouter.ConnectedClientReceivesBroadcast | server/src/routes/wsRouter.ts:19-49 | with registration, an authorised open connection receives a broadcast exactly once |

## Left out

- Timestamps are integer milliseconds. ISO 8601 formatting and parsing of `expires_at` and `created_at` is not modelled.
- Alert ids are naturals from a serial counter.
- Transaction ids come from an injective id source `TxIdOf(n)`, which stands for `randomUUID`.
- Prices and amounts are exact reals. Floating-point rounding in `drift`, in `toSmallestUnit` and in the price comparisons is not modelled.
- `Math.random` in `drift` is a parameter `roll` in [0, 1).
- `toUpperCase` is modelled for ASCII letters only.
- JSON text parsing and serialisation are not modelled. The router takes the value `JSON.parse` returns, or none when it throws; a socket records the envelope it was sent.
- Exceptions thrown by `mintForToken` and `toSmallestUnit` are `Err` results.
- A failing database statement in an agent job is an input naming the statement and its message. The monitor job has no such input (see `MonitorJob.Monitor.CheckAlerts` below).
- The model call (`streamText`, the system prompt, the tool wiring) is an input: the chunk sequence the stream yields.
- The Jupiter quote and swap requests are not modelled. `PrepareSwap` stops where the first request would be sent.
- `buildTestTransferTx` and `buildTxPayload` are not part of this model. Their result is the `payload` parameter.
- Push notifications are not modelled. This covers `sendExpoPush` in the price monitor, `sendPushToDevices` in `queueSigningRequest`, and server/src/notifications/expoPush.ts.
- HTTP routes, `startPriceMonitor`'s `setInterval`, and all async interleaving are not modelled. The model is sequential: one check runs at a time, and one job settles at a time through `Complete`.
- Because `markAlertTriggered` is unconditional, exactly-once firing under overlapping checks is not claimed.
- MonitorJob.Monitor.CheckAlerts: it takes one `now` and one `payload` for the whole check. The source reads the clock and builds a payload per firing alert.
- MonitorJob.Monitor.CheckAlerts: the abort path is not modelled, and every step of a firing succeeds. In the source, `markAlertTriggered` runs first (priceMonitor.ts:110). A throw afterwards from `buildTxPayload`, `createPendingTx` or `sendExpoPush` (116-153) ends the whole loop, and `startPriceMonitor` only logs it (174-179). Such an alert stays `triggered` with no pending transaction and no signing request, and the firing alerts after it in the snapshot are skipped until a later tick. The same gap holds for `MonitorJob.RunChecks`, `MonitorJob.Monitor.TriggerAtPrice` and the per-alert steps in `PriceMonitor`.
- SolanaTools.GetSolanaPrice: it reads the monitor's price table. `currentPrices`, which solana.ts imports, is not exported by the price monitor shown, so the model uses `mockPrices`.
- AgentRunner.Runner.Emit: Node's `EventEmitter` throws when `error` is emitted with no listener. The model delivers to the listeners present and does not model that throw.
- AgentRunner.Runner.On: it requires that the listener is not already attached. `EventEmitter` would accept the same function twice, but the router never does that.
- AgentRunner.Runner.EmitInTurn: the closing statement's emission is gathered with the stream's emissions after that statement runs. The statement writes nothing a socket sees, so the order each socket sees is unchanged.
- The mobile client's React hooks, AsyncStorage and `getOrCreateSessionId` are not modelled. The session id is a parameter of `LoadHistory`.
- The WebSocket transport and its headers are not modelled. `attached` stands for `wsRef.current` being set, and a frame sent while a socket is held counts as sent.
- The mobile wallet's `signAndSendTransaction` and base64 deserialisation are not modelled. Their outcome is a signature parameter, or none when it threw.
- `crypto.randomUUID` in the client is a fresh-id parameter.
- The `reason` field of an agent-queued signing request is not in the outbound schema. The model's request carries it as an optional field.

## Findings

| source | as written | input that shows it | evidently intended | confidence | as-written member | corrected member |
|---|---|---|---|---|---|---|
| server/src/routes/wsRouter.ts:19-49 | an accepted connection attaches its runner listeners but is never passed to `clientRegistry.register`, so every `clientRegistry.broadcast` (signing requests from the price monitor and from `queueSigningRequest`) reaches no client | a client connects with the right key and its socket is open; the price monitor then fires an alert and broadcasts the signing request | register the socket on connect and unregister it on close, so open clients receive signing requests | not executed | WsRouter.ConnectedClientMissesBroadcast | WsRouter.ConnectedClientReceivesBroadcast |
