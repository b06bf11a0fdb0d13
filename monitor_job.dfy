/** The monitor job: the mock price table the feed ticks, and the alert
    check that walks a snapshot of the active alerts, proved turn by turn
    against the specification functions of `PriceMonitor`. */
module MonitorJob {
  import opened Strings
  import opened Sockets
  import opened ClientRegistry
  import opened AlertsDb
  import opened PriceMonitor

  /** The check's loop over a snapshot of the active alerts. */
  method RunChecks(prices: map<string, real>, db: Store, registry: Registry, active: seq<AlertRow>, now: int, payload: string)
    requires db.Valid()
    requires forall k :: 0 <= k < |active| ==> active[k].id in AlertIds(db.alerts)
    modifies db`alerts, db`txs, db`txSeq, db`txDraws, db`journal, registry.clients
    ensures Progress(db, old(db.alerts), old(db.txs), old(db.journal), old(db.txSeq), FiredAlerts(prices, active), now, payload)
    ensures forall ws :: ws in registry.clients ==>
      ws.readyState == old(ws.readyState) &&
      ws.sent == old(ws.sent) +
        (if old(ws.readyState) == Open then AlertRequests(prices, FiredAlerts(prices, active), old(db.txSeq), now, payload) else [])
    ensures forall ws :: ws in registry.clients ==> ws.closeCode == old(ws.closeCode)
  {
    ghost var sent0 := map ws | ws in registry.clients :: ws.sent;
    ghost var state0 := map ws | ws in registry.clients :: ws.readyState;
    assert Checked(prices, db, registry, active, 0, now, payload, db.alerts, db.txs, db.journal, db.txSeq, sent0, state0);
    for k := 0 to |active|
      invariant Checked(prices, db, registry, active, k, now, payload,
                        old(db.alerts), old(db.txs), old(db.journal), old(db.txSeq), sent0, state0)
      invariant forall ws :: ws in registry.clients ==> ws.closeCode == old(ws.closeCode)
    {
      CheckNext(prices, db, registry, active, k, now, payload,
                old(db.alerts), old(db.txs), old(db.journal), old(db.txSeq), sent0, state0);
    }
  }

  class Monitor {
    /** The mock price table, keyed by upper-case symbol. */
    var prices: map<string, real>

    constructor ()
      ensures prices == MockPrices
    {
      prices := MockPrices;
    }

    /** `tickPrices`: every price but USDC's takes one drift step, drawn from
        its own roll; the set of symbols stays as it was. */
    method TickPrices(rolls: map<string, real>)
      requires forall t :: t in prices ==> t in rolls && 0.0 <= rolls[t] < 1.0
      modifies this`prices
      ensures prices.Keys == old(prices).Keys
      ensures forall t :: t in prices ==>
        prices[t] == if t == "USDC" then old(prices)[t] else Drift(old(prices)[t], rolls[t])
      ensures forall t :: t in prices && t != "USDC" ==> prices[t] >= 0.0
    {
      var todo := prices.Keys;
      while todo != {}
        invariant todo <= prices.Keys && prices.Keys == old(prices).Keys
        invariant forall t :: t in prices ==>
          prices[t] == if t in todo || t == "USDC" then old(prices)[t] else Drift(old(prices)[t], rolls[t])
        decreases |todo|
      {
        var t :| t in todo;
        if t != "USDC" {
          prices := prices[t := Drift(prices[t], rolls[t])];
        }
        todo := todo - {t};
      }
    }

    /** `checkAlerts`: runs through the active alerts as read at the start; an
        alert whose token has no price is skipped, one that does not fire is
        skipped, and one that fires is marked triggered, gets a pending
        transaction tied to it, and is broadcast as a signing request
        carrying that transaction's id. `payload` is the serialised
        transaction the builder returns. */
    method CheckAlerts(db: Store, registry: Registry, now: int, payload: string)
      requires db.Valid()
      modifies db`alerts, db`txs, db`txSeq, db`txDraws, db`journal, registry.clients
      ensures db.Valid()
      ensures var fired := FiredAlerts(prices, ActiveAlerts(old(db.alerts)));
        && db.alerts == Marked(old(db.alerts), AlertIds(fired))
        && db.txs == old(db.txs) + AlertTxs(fired, old(db.txSeq), now, payload)
        && db.txSeq == old(db.txSeq) + |fired|
        && db.journal == old(db.journal) + CheckJournal(fired, old(db.txSeq))
        && forall ws :: ws in registry.clients ==>
             ws.readyState == old(ws.readyState) && ws.closeCode == old(ws.closeCode) &&
             ws.sent == old(ws.sent) +
               (if old(ws.readyState) == Open then AlertRequests(prices, fired, old(db.txSeq), now, payload) else [])
    {
      var active := ActiveAlerts(db.alerts);
      forall k | 0 <= k < |active| ensures active[k].id in AlertIds(db.alerts) {
        assert active[k] in db.alerts;
      }
      RunChecks(prices, db, registry, active, now, payload);
    }

    /** `triggerAtPrice`: the price of the upper-cased symbol is set, and the
        check runs against the new table. */
    method TriggerAtPrice(token: string, price: real, db: Store, registry: Registry, now: int, payload: string)
      requires db.Valid()
      modifies this`prices, db`alerts, db`txs, db`txSeq, db`txDraws, db`journal, registry.clients
      ensures prices == old(prices)[Upper(token) := price]
      ensures db.Valid()
      ensures var fired := FiredAlerts(prices, ActiveAlerts(old(db.alerts)));
        && db.alerts == Marked(old(db.alerts), AlertIds(fired))
        && db.txs == old(db.txs) + AlertTxs(fired, old(db.txSeq), now, payload)
        && db.txSeq == old(db.txSeq) + |fired|
        && db.journal == old(db.journal) + CheckJournal(fired, old(db.txSeq))
        && forall ws :: ws in registry.clients ==>
             ws.readyState == old(ws.readyState) && ws.closeCode == old(ws.closeCode) &&
             ws.sent == old(ws.sent) +
               (if old(ws.readyState) == Open then AlertRequests(prices, fired, old(db.txSeq), now, payload) else [])
    {
      prices := prices[Upper(token) := price];
      CheckAlerts(db, registry, now, payload);
    }
  }
}
