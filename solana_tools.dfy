/** The four tools the agent may call: a price lookup over the monitor's price
    table, alert creation, a signing request pushed to the mobile clients, and
    the listing of requests still awaiting a signature. Each is layered on the
    store, the registry and the monitor's prices. */
module SolanaTools {
  import opened Wrappers
  import opened Strings
  import opened Schemas
  import opened Sockets
  import opened ClientRegistry
  import opened AlertsDb
  import opened PriceMonitor

  // ---------------------------------------------------------------------------
  // getSolanaPrice
  // ---------------------------------------------------------------------------

  /** The lookup's result: a price in USD from the mock source, or no price
      and an error. */
  datatype PriceQuote = PriceQuote(
    symbol: string, price: Option<real>, currency: Option<string>, source: Option<string>, error: Option<string>)

  /** The price under the upper-cased symbol; an unknown symbol has none and
      says so. */
  function GetSolanaPrice(prices: map<string, real>, tokenSymbol: string): (r: PriceQuote)
    ensures r.symbol == Upper(tokenSymbol)
    ensures r.price.Some? <==> Upper(tokenSymbol) in prices
    ensures r.price.Some? ==>
      r.price.value == prices[Upper(tokenSymbol)] && r.currency == Some("USD") && r.error == None
    ensures r.price.None? ==> r.error == Some("Unknown token: " + Upper(tokenSymbol)) && r.currency == None
  {
    var symbol := Upper(tokenSymbol);
    if symbol !in prices then PriceQuote(symbol, None, None, None, Some("Unknown token: " + symbol))
    else PriceQuote(symbol, Some(prices[symbol]), Some("USD"), Some("mock"), None)
  }

  /** The lookup ignores the case of the symbol it is given. */
  lemma QuoteIgnoresCase(prices: map<string, real>, tokenSymbol: string)
    ensures GetSolanaPrice(prices, Upper(tokenSymbol)) == GetSolanaPrice(prices, tokenSymbol)
  {
    UpperIdempotent(tokenSymbol);
  }

  /** The tool and the price check read the same table: when the tool quotes
      a price for an alert's token, the alert fires exactly when that quote
      has crossed the alert's target. */
  lemma QuoteDecidesFiring(prices: map<string, real>, a: AlertRow)
    ensures GetSolanaPrice(prices, a.token).price.None? ==> !Fires(prices, a)
    ensures GetSolanaPrice(prices, a.token).price.Some? ==>
      (Fires(prices, a) <==> Crossed(a.direction, GetSolanaPrice(prices, a.token).price.value, a.targetPrice))
  {
  }

  // ---------------------------------------------------------------------------
  // createPriceAlert
  // ---------------------------------------------------------------------------

  /** What `createPriceAlert` reports back to the agent. */
  datatype AlertCreated = AlertCreated(
    success: bool, alertId: nat, token: string, targetPrice: real, direction: Direction,
    fromToken: string, toToken: string, amount: real)

  /** The report for a stored alert row. */
  function CreatedReport(row: AlertRow): AlertCreated {
    AlertCreated(true, row.id, row.token, row.targetPrice, row.direction, row.fromToken, row.toToken, row.amount)
  }

  /** Stores one active alert, without a session, with its three tokens
      upper-cased, and reports the stored values and the new id. The
      parameter schema admits only a positive target and amount. */
  method CreatePriceAlert(db: Store, token: string, targetPrice: real, direction: Direction,
                          fromToken: string, toToken: string, amount: real, now: int)
    returns (r: AlertCreated)
    requires db.Valid()
    requires targetPrice > 0.0 && amount > 0.0
    modifies db`alerts, db`nextAlertId, db`journal
    ensures db.Valid()
    ensures db.alerts == old(db.alerts) +
      [AlertRow(old(db.nextAlertId), None, Upper(token), targetPrice, direction, Upper(fromToken), Upper(toToken),
                amount, Active, now)]
    ensures r == CreatedReport(db.alerts[|db.alerts| - 1])
    ensures r.alertId !in AlertIds(old(db.alerts))
  {
    var row := db.CreateAlert(NewAlert(None, Upper(token), targetPrice, direction, Upper(fromToken), Upper(toToken), amount), now);
    r := CreatedReport(row);
  }

  /** A created alert is active and, with its token's price on the wrong side
      of the target, does not fire; the check picks it up on a later tick. */
  lemma CreatedAlertAwaitsCrossing(prices: map<string, real>, a: AlertRow)
    requires a.status == Active && Upper(a.token) in prices
    requires !Crossed(a.direction, prices[Upper(a.token)], a.targetPrice)
    ensures a in ActiveAlerts([a]) && FiredAlerts(prices, ActiveAlerts([a])) == []
  {
    FiredAlertsExactly(prices, ActiveAlerts([a]));
  }

  // ---------------------------------------------------------------------------
  // queueSigningRequest
  // ---------------------------------------------------------------------------

  /** What `queueSigningRequest` reports back to the agent. */
  datatype QueueReport = QueueReport(txId: string, status: string, connectedClients: nat, message: string)

  /** The envelope pushed for a request the agent queued: no alert, a zero
      target and observed price, direction `below`, and the agent's reason. */
  function AgentRequest(txId: string, fromToken: string, toToken: string, amount: real, payload: string,
                        reason: string, expiresAt: int): (m: Outbound)
    ensures m.TxSigningRequest? && m.request.txId == txId && m.request.reason == Some(reason)
    ensures m.request.trigger.alertId == 0 && m.request.trigger.token == Upper(fromToken)
    ensures m.request.fromToken == Upper(fromToken) && m.request.toToken == Upper(toToken)
  {
    TxSigningRequest(SigningRequest(txId, Upper(fromToken), Upper(toToken), amount, payload,
      Trigger(0, Upper(fromToken), 0.0, 0.0, Below), expiresAt, Some(reason)))
  }

  /** The message shown to the agent, which quotes the reason. */
  function QueuedMessage(reason: string): (s: string)
    ensures |s| == |reason| + 43 && s[42..|s| - 1] == reason
  {
    "Signing request sent. The user will see: \"" + reason + "\""
  }

  /** Inserts one pending transaction without an alert, with upper-cased
      tokens and an expiry five minutes after `now`; pushes its signing
      request to every open registered socket; and reports the row's id, the
      status `pushed_to_mobile` and the number of registered sockets.
      `payload` stands for the serialized test transfer. */
  method QueueSigningRequest(db: Store, registry: Registry, fromToken: string, toToken: string, amount: real,
                             reason: string, payload: string, now: int)
    returns (r: QueueReport)
    requires db.Valid()
    requires amount > 0.0
    modifies db`txs, db`txSeq, db`txDraws, db`journal, registry.clients
    ensures db.Valid()
    ensures db.txs == old(db.txs) +
      [PendingTxRow(TxIdOf(old(db.txSeq)), None, Upper(fromToken), Upper(toToken), amount, payload,
                    PendingSignature, None, now + SigningWindowMs, now)]
    ensures r.txId == TxIdOf(old(db.txSeq)) && r.txId !in TxIds(old(db.txs))
    ensures r.status == "pushed_to_mobile" && r.connectedClients == |registry.clients|
    ensures r.message == QueuedMessage(reason)
    ensures forall ws :: ws in registry.clients ==>
      ws.readyState == old(ws.readyState) && ws.closeCode == old(ws.closeCode) &&
      ws.sent == OfferedTo(old(ws.sent), old(ws.readyState),
                           AgentRequest(r.txId, fromToken, toToken, amount, payload, reason, now + SigningWindowMs))
  {
    var expiresAt := now + SigningWindowMs;
    var created := db.CreatePendingTx(NewTx(None, Upper(fromToken), Upper(toToken), amount, payload, expiresAt), now);
    assert created.Ok?;
    var tx := created.value;
    registry.Broadcast(AgentRequest(tx.txId, fromToken, toToken, amount, payload, reason, expiresAt));
    r := QueueReport(tx.txId, "pushed_to_mobile", registry.Size(), QueuedMessage(reason));
  }

  // ---------------------------------------------------------------------------
  // getPendingSigningRequests
  // ---------------------------------------------------------------------------

  /** One listed request. */
  datatype PendingSummary = PendingSummary(txId: string, fromToken: string, toToken: string, amount: real, expiresAt: int)

  datatype PendingListing = PendingListing(count: nat, pending: seq<PendingSummary>)

  function Summary(tx: PendingTxRow): PendingSummary {
    PendingSummary(tx.txId, tx.fromToken, tx.toToken, tx.amount, tx.expiresAt)
  }

  /** The store's awaiting transactions, summarised one for one in the
      store's order, with their number. */
  function GetPendingSigningRequests(txs: seq<PendingTxRow>, now: int): (r: PendingListing)
    ensures r.count == |r.pending| == |PendingTxs(txs, now)|
    ensures forall i :: 0 <= i < |r.pending| ==> r.pending[i] == Summary(PendingTxs(txs, now)[i])
  {
    var rows := PendingTxs(txs, now);
    PendingListing(|rows|, seq(|rows|, i requires 0 <= i < |rows| => Summary(rows[i])))
  }

  /** The listing names exactly the stored transactions still awaiting a
      signature and not yet expired, and lists them oldest first. */
  lemma ListingExactly(txs: seq<PendingTxRow>, now: int)
    ensures forall i :: 0 <= i < |GetPendingSigningRequests(txs, now).pending| ==>
      exists t :: t in txs && Awaiting(t, now) && GetPendingSigningRequests(txs, now).pending[i] == Summary(t)
    ensures forall t :: t in txs && Awaiting(t, now) ==> Summary(t) in GetPendingSigningRequests(txs, now).pending
    ensures forall i :: 0 <= i < |GetPendingSigningRequests(txs, now).pending| ==>
      GetPendingSigningRequests(txs, now).pending[i].expiresAt > now
  {
    var rows := PendingTxs(txs, now);
    var listing := GetPendingSigningRequests(txs, now);
    forall i | 0 <= i < |listing.pending|
      ensures exists t :: t in txs && Awaiting(t, now) && listing.pending[i] == Summary(t)
    {
      assert rows[i] in rows;
    }
    forall t | t in txs && Awaiting(t, now) ensures Summary(t) in listing.pending {
      var i :| 0 <= i < |rows| && rows[i] == t;
      assert listing.pending[i] == Summary(t);
    }
    forall i | 0 <= i < |listing.pending| ensures listing.pending[i].expiresAt > now {
      assert rows[i] in rows;
    }
  }

  /** A request the agent queued is listed until it expires or is settled. */
  lemma QueuedRequestListed(txs: seq<PendingTxRow>, tx: PendingTxRow, now: int)
    requires tx.status == PendingSignature && now < tx.expiresAt
    ensures Summary(tx) in GetPendingSigningRequests(txs + [tx], now).pending
  {
    ListingExactly(txs + [tx], now);
    assert tx in txs + [tx];
  }
}
