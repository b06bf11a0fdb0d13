/** What the price feed and the alert check do, and the check's per-alert
    steps: every active alert whose token's price has crossed its target is
    marked triggered, gets a pending transaction that expires five minutes
    later, and is announced to every connected client as a signing request.
    The loop over a snapshot and the feed's state are in `MonitorJob`. */
module PriceMonitor {
  import opened Wrappers
  import opened Strings
  import opened Schemas
  import opened Sockets
  import opened ClientRegistry
  import opened AlertsDb
  import opened Seqs

  /** The prices the feed starts from, in USD. */
  const MockPrices: map<string, real> :=
    map["SOL" := 185.42, "USDC" := 1.0, "JUP" := 1.23, "BONK" := 0.000038]

  /** The largest relative move of one drift step (0.3%). */
  const MaxDrift: real := 0.003

  /** How long a signing request can be signed: five minutes, in milliseconds. */
  const SigningWindowMs: int := 300000

  /** `drift`: the price scaled by a factor drawn from `roll`, the uniform
      sample in [0, 1) the random source returned, and clamped at 0. */
  function Drift(price: real, roll: real): (r: real)
    ensures r >= 0.0
  {
    var factor := 1.0 + (roll - 0.5) * 2.0 * MaxDrift;
    if price * factor > 0.0 then price * factor else 0.0
  }

  /** One drift step moves a non-negative price by at most 0.3% either way. */
  lemma DriftBounded(price: real, roll: real)
    requires price >= 0.0 && 0.0 <= roll < 1.0
    ensures (1.0 - MaxDrift) * price <= Drift(price, roll) <= (1.0 + MaxDrift) * price
  {
    var factor := 1.0 + (roll - 0.5) * 2.0 * MaxDrift;
    assert 1.0 - MaxDrift <= factor <= 1.0 + MaxDrift;
    assert price * (1.0 - MaxDrift) <= price * factor by {
      assert price * (factor - (1.0 - MaxDrift)) >= 0.0;
    }
    var slack := (1.0 + MaxDrift) - factor;
    assert slack >= 0.0;
    assert price * factor <= price * (1.0 + MaxDrift) by {
      assert price * slack >= 0.0;
    }
  }

  /** The trigger predicate: at the target an alert fires whatever its
      direction; elsewhere it fires exactly when the price lies on the side
      of the target that its direction names. */
  predicate Crossed(direction: Direction, price: real, target: real)
    ensures price == target ==> Crossed(direction, price, target)
    ensures price != target ==> (Crossed(direction, price, target) <==> (direction == Above <==> price > target))
  {
    (direction == Above && price >= target) || (direction == Below && price <= target)
  }

  /** At the target itself an alert fires whichever its direction; away from
      it exactly one of the two directions fires. */
  lemma CrossedAtTarget(price: real, target: real)
    ensures price == target ==> Crossed(Above, price, target) && Crossed(Below, price, target)
    ensures price != target ==> (Crossed(Above, price, target) <==> !Crossed(Below, price, target))
  {
  }

  /** An alert fires when its upper-cased token has a price and that price
      has crossed the alert's target in the alert's direction. */
  predicate Fires(prices: map<string, real>, a: AlertRow)
    ensures Fires(prices, a) ==> Upper(a.token) in prices
    ensures Upper(a.token) in prices && prices[Upper(a.token)] == a.targetPrice ==> Fires(prices, a)
  {
    Upper(a.token) in prices && Crossed(a.direction, prices[Upper(a.token)], a.targetPrice)
  }

  /** The alerts among the first `n` of `rows` that fire, in their order. */
  function FiredAmong(prices: map<string, real>, rows: seq<AlertRow>, n: nat): (r: seq<AlertRow>)
    requires n <= |rows|
    ensures |r| <= n
    ensures forall k :: 0 <= k < |r| ==> Fires(prices, r[k])
  {
    if n == 0 then []
    else FiredAmong(prices, rows, n - 1) + (if Fires(prices, rows[n - 1]) then [rows[n - 1]] else [])
  }

  lemma FiredAmongStep(prices: map<string, real>, rows: seq<AlertRow>, n: nat)
    requires n < |rows|
    ensures FiredAmong(prices, rows, n + 1) == FiredAmong(prices, rows, n) + (if Fires(prices, rows[n]) then [rows[n]] else [])
  {
  }

  /** The alerts of `rows` that fire, in their order. */
  function FiredAlerts(prices: map<string, real>, rows: seq<AlertRow>): (r: seq<AlertRow>)
    ensures |r| <= |rows|
    ensures forall k :: 0 <= k < |r| ==> Fires(prices, r[k])
  {
    FiredAmong(prices, rows, |rows|)
  }

  lemma {:induction false} FiredAmongExactly(prices: map<string, real>, rows: seq<AlertRow>, n: nat)
    requires n <= |rows|
    ensures forall a :: a in FiredAmong(prices, rows, n) <==> a in rows[..n] && Fires(prices, a)
  {
    if n > 0 {
      FiredAmongExactly(prices, rows, n - 1);
      assert rows[..n] == rows[..n - 1] + [rows[n - 1]];
    }
  }

  /** An alert is among the fired ones exactly when it is in the table and
      fires. */
  lemma FiredAlertsExactly(prices: map<string, real>, rows: seq<AlertRow>)
    ensures forall a :: a in FiredAlerts(prices, rows) <==> a in rows && Fires(prices, a)
  {
    FiredAmongExactly(prices, rows, |rows|);
    assert rows[..|rows|] == rows;
  }

  /** The pending transaction created for a fired alert. */
  function AlertTx(a: AlertRow, txId: string, now: int, payload: string): (t: PendingTxRow)
    ensures t.txId == txId && t.alertId == Some(a.id) && t.createdAt == now
    ensures t.fromToken == a.fromToken && t.toToken == a.toToken && t.amount == a.amount && t.payload == payload
    ensures t.status == PendingSignature && t.signature == None && t.expiresAt == t.createdAt + SigningWindowMs
  {
    PendingTxRow(txId, Some(a.id), a.fromToken, a.toToken, a.amount, payload,
                 PendingSignature, None, now + SigningWindowMs, now)
  }

  /** The signing request broadcast for a fired alert seen at `price`. */
  function AlertRequest(a: AlertRow, price: real, txId: string, now: int, payload: string): (m: Outbound)
    ensures m.TxSigningRequest? && m.request.reason == None
    ensures var t := AlertTx(a, txId, now, payload);
      && m.request.txId == t.txId && m.request.fromToken == t.fromToken && m.request.toToken == t.toToken
      && m.request.amount == t.amount && m.request.serializedTx == t.payload && m.request.expiresAt == t.expiresAt
    ensures m.request.trigger == Trigger(a.id, a.token, a.targetPrice, price, a.direction)
  {
    TxSigningRequest(SigningRequest(txId, a.fromToken, a.toToken, a.amount, payload,
      Trigger(a.id, a.token, a.targetPrice, price, a.direction), now + SigningWindowMs, None))
  }

  /** The rows the check inserts for `fired`, the k-th under the id of draw
      `firstDraw + k`. */
  function AlertTxs(fired: seq<AlertRow>, firstDraw: nat, now: int, payload: string): seq<PendingTxRow> {
    if fired == [] then []
    else
      var n := |fired| - 1;
      AlertTxs(fired[..n], firstDraw, now, payload) + [AlertTx(fired[n], TxIdOf(firstDraw + n), now, payload)]
  }

  /** The envelopes the check broadcasts for `fired`, in order. */
  function AlertRequests(prices: map<string, real>, fired: seq<AlertRow>, firstDraw: nat, now: int, payload: string): seq<Outbound>
    requires forall k :: 0 <= k < |fired| ==> Fires(prices, fired[k])
  {
    if fired == [] then []
    else
      var n := |fired| - 1;
      assert Fires(prices, fired[n]);
      AlertRequests(prices, fired[..n], firstDraw, now, payload) +
        [AlertRequest(fired[n], prices[Upper(fired[n].token)], TxIdOf(firstDraw + n), now, payload)]
  }

  /** The statements the check runs for `fired`: per alert, the mark and then
      the insert. */
  function CheckJournal(fired: seq<AlertRow>, firstDraw: nat): seq<Statement> {
    if fired == [] then []
    else
      var n := |fired| - 1;
      CheckJournal(fired[..n], firstDraw) + [MarkTriggered(fired[n].id), InsertTx(TxIdOf(firstDraw + n))]
  }

  /** The alert table after every row whose id is in `ids` is marked. */
  function Marked(rows: seq<AlertRow>, ids: set<nat>): seq<AlertRow> {
    seq(|rows|, i requires 0 <= i < |rows| => if rows[i].id in ids then rows[i].(status := Triggered) else rows[i])
  }

  /** Each fired alert gets exactly one transaction and one request, and the
      request carries the created row's id, tokens, amount, payload and
      expiry, and a trigger block with the alert id, target, observed price
      and direction. */
  lemma {:induction false} RequestsMatchTxs(prices: map<string, real>, fired: seq<AlertRow>, firstDraw: nat, now: int, payload: string)
    requires forall k :: 0 <= k < |fired| ==> Fires(prices, fired[k])
    ensures |AlertTxs(fired, firstDraw, now, payload)| == |fired|
    ensures |AlertRequests(prices, fired, firstDraw, now, payload)| == |fired|
    ensures forall k :: 0 <= k < |fired| ==>
      AlertTxs(fired, firstDraw, now, payload)[k] ==
        PendingTxRow(TxIdOf(firstDraw + k), Some(fired[k].id), fired[k].fromToken, fired[k].toToken,
                     fired[k].amount, payload, PendingSignature, None, now + SigningWindowMs, now)
    ensures forall k :: 0 <= k < |fired| ==>
      AlertRequests(prices, fired, firstDraw, now, payload)[k] ==
        TxSigningRequest(SigningRequest(
          AlertTxs(fired, firstDraw, now, payload)[k].txId, fired[k].fromToken, fired[k].toToken,
          fired[k].amount, payload,
          Trigger(fired[k].id, fired[k].token, fired[k].targetPrice, prices[Upper(fired[k].token)], fired[k].direction),
          AlertTxs(fired, firstDraw, now, payload)[k].expiresAt, None))
  {
    AlertTxsAt(fired, firstDraw, now, payload);
    AlertRequestsAt(prices, fired, firstDraw, now, payload);
  }

  lemma {:induction false} AlertTxsAt(fired: seq<AlertRow>, firstDraw: nat, now: int, payload: string)
    ensures |AlertTxs(fired, firstDraw, now, payload)| == |fired|
    ensures forall k :: 0 <= k < |fired| ==>
      AlertTxs(fired, firstDraw, now, payload)[k] == AlertTx(fired[k], TxIdOf(firstDraw + k), now, payload)
  {
    if fired != [] {
      var n := |fired| - 1;
      AlertTxsAt(fired[..n], firstDraw, now, payload);
      var r := AlertTxs(fired, firstDraw, now, payload);
      forall k | 0 <= k < n ensures r[k] == AlertTx(fired[k], TxIdOf(firstDraw + k), now, payload) {
        assert r[k] == AlertTxs(fired[..n], firstDraw, now, payload)[k];
        assert fired[..n][k] == fired[k];
      }
    }
  }

  lemma {:induction false} AlertRequestsAt(prices: map<string, real>, fired: seq<AlertRow>, firstDraw: nat, now: int, payload: string)
    requires forall k :: 0 <= k < |fired| ==> Fires(prices, fired[k])
    ensures |AlertRequests(prices, fired, firstDraw, now, payload)| == |fired|
    ensures forall k :: 0 <= k < |fired| ==>
      AlertRequests(prices, fired, firstDraw, now, payload)[k] ==
        AlertRequest(fired[k], prices[Upper(fired[k].token)], TxIdOf(firstDraw + k), now, payload)
  {
    if fired != [] {
      var n := |fired| - 1;
      var prefix := fired[..n];
      assert forall k :: 0 <= k < n ==> prefix[k] == fired[k];
      AlertRequestsAt(prices, prefix, firstDraw, now, payload);
      var r := AlertRequests(prices, fired, firstDraw, now, payload);
      var front := AlertRequests(prices, prefix, firstDraw, now, payload);
      assert r == front + [AlertRequest(fired[n], prices[Upper(fired[n].token)], TxIdOf(firstDraw + n), now, payload)];
      forall k | 0 <= k < |fired|
        ensures r[k] == AlertRequest(fired[k], prices[Upper(fired[k].token)], TxIdOf(firstDraw + k), now, payload)
      {
        if k < n {
          assert r[k] == front[k];
        }
      }
    }
  }

  /** With unique alert ids, the marked rows are exactly the active rows that
      fire; every other row, of any status, is left as it was. */
  lemma MarksExactlyFiring(prices: map<string, real>, rows: seq<AlertRow>)
    requires IdsAscending(rows)
    ensures forall i :: 0 <= i < |rows| ==>
      Marked(rows, AlertIds(FiredAlerts(prices, ActiveAlerts(rows))))[i] ==
        if rows[i].status == Active && Fires(prices, rows[i]) then rows[i].(status := Triggered) else rows[i]
  {
    var fired := FiredAlerts(prices, ActiveAlerts(rows));
    FiredAlertsExactly(prices, ActiveAlerts(rows));
    forall i | 0 <= i < |rows|
      ensures rows[i].id in AlertIds(fired) <==> rows[i].status == Active && Fires(prices, rows[i])
    {
      if rows[i].id in AlertIds(fired) {
        var f :| f in fired && f.id == rows[i].id;
        var j :| 0 <= j < |rows| && rows[j] == f;
        assert j == i;
      }
      if rows[i].status == Active && Fires(prices, rows[i]) {
        assert rows[i] in fired;
      }
    }
  }

  /** When nothing fires, the check writes nothing and sends nothing. */
  lemma NothingFiredNothingChanged(rows: seq<AlertRow>, firstDraw: nat, now: int, payload: string)
    ensures Marked(rows, AlertIds([])) == rows
    ensures AlertTxs([], firstDraw, now, payload) == [] && CheckJournal([], firstDraw) == []
    ensures forall prices :: AlertRequests(prices, [], firstDraw, now, payload) == []
  {
    assert AlertIds([]) == {};
  }

  /** The tables as the check has left them once `fired` have fired,
      starting from `base`, `baseTxs` and `baseJournal` with the id source at
      `firstDraw`. */
  ghost predicate Progress(db: Store, base: seq<AlertRow>, baseTxs: seq<PendingTxRow>, baseJournal: seq<Statement>,
                           firstDraw: nat, fired: seq<AlertRow>, now: int, payload: string)
    reads db
  {
    && db.Valid()
    && AlertIds(db.alerts) == AlertIds(base)
    && db.alerts == Marked(base, AlertIds(fired))
    && db.txs == baseTxs + AlertTxs(fired, firstDraw, now, payload)
    && db.txSeq == firstDraw + |fired|
    && db.journal == baseJournal + CheckJournal(fired, firstDraw)
  }

  /** The store's side of one firing alert: the alert is marked triggered
      and a pending transaction tied to it is inserted under the next id,
      which is returned. */
  method RecordFiring(db: Store, alert: AlertRow, now: int, payload: string,
                      ghost base: seq<AlertRow>, ghost baseTxs: seq<PendingTxRow>, ghost baseJournal: seq<Statement>,
                      ghost firstDraw: nat, ghost fired: seq<AlertRow>)
    returns (txId: string)
    requires Progress(db, base, baseTxs, baseJournal, firstDraw, fired, now, payload)
    requires alert.id in AlertIds(base)
    modifies db`alerts, db`txs, db`txSeq, db`txDraws, db`journal
    ensures Progress(db, base, baseTxs, baseJournal, firstDraw, fired + [alert], now, payload)
    ensures txId == TxIdOf(firstDraw + |fired|)
  {
    db.MarkAlertTriggered(alert.id);
    var r := db.CreatePendingTx(NewTx(Some(alert.id), alert.fromToken, alert.toToken, alert.amount,
                                      payload, now + SigningWindowMs), now);
    assert r.Ok?;
    txId := r.value.txId;
    FiringStep(alert, now, payload, base, baseTxs, baseJournal, firstDraw, fired);
  }

  /** The bookkeeping of one firing: appending to `fired` extends the marked
      ids, the inserted rows and the statement log by that alert's share. */
  lemma FiringStep(alert: AlertRow, now: int, payload: string, base: seq<AlertRow>, baseTxs: seq<PendingTxRow>,
                   baseJournal: seq<Statement>, firstDraw: nat, fired: seq<AlertRow>)
    ensures AlertIds(fired + [alert]) == AlertIds(fired) + {alert.id}
    ensures baseTxs + AlertTxs(fired + [alert], firstDraw, now, payload) ==
      (baseTxs + AlertTxs(fired, firstDraw, now, payload)) + [AlertTx(alert, TxIdOf(firstDraw + |fired|), now, payload)]
    ensures baseJournal + CheckJournal(fired + [alert], firstDraw) ==
      (baseJournal + CheckJournal(fired, firstDraw)) + [MarkTriggered(alert.id), InsertTx(TxIdOf(firstDraw + |fired|))]
  {
    ghost var next := fired + [alert];
    assert next[..|next| - 1] == fired;
    AppendAssoc(baseTxs, AlertTxs(fired, firstDraw, now, payload), [AlertTx(alert, TxIdOf(firstDraw + |fired|), now, payload)]);
    AppendAssoc(baseJournal, CheckJournal(fired, firstDraw), [MarkTriggered(alert.id), InsertTx(TxIdOf(firstDraw + |fired|))]);
  }

  /** Every registered socket holds what it held in the snapshot `sent0`,
      followed by `announced` if it was open in the snapshot `state0`, and
      its ready state is the one in the snapshot. */
  ghost predicate Delivered(registry: Registry, sent0: map<Socket, seq<Outbound>>, state0: map<Socket, ReadyState>,
                            announced: seq<Outbound>)
    reads registry, registry.clients
  {
    forall ws :: ws in registry.clients ==>
      && ws in sent0 && ws in state0
      && ws.readyState == state0[ws]
      && ws.sent == sent0[ws] + (if state0[ws] == Open then announced else [])
  }

  /** A broadcast extends what every open socket of the snapshot has been
      announced by one request. */
  method Announce(registry: Registry, msg: Outbound, ghost sent0: map<Socket, seq<Outbound>>,
                  ghost state0: map<Socket, ReadyState>, ghost announced: seq<Outbound>)
    requires Delivered(registry, sent0, state0, announced)
    modifies registry.clients
    ensures Delivered(registry, sent0, state0, announced + [msg])
    ensures forall ws :: ws in registry.clients ==> ws.closeCode == old(ws.closeCode)
  {
    registry.Broadcast(msg);
    forall ws | ws in registry.clients
      ensures ws.sent == sent0[ws] + (if state0[ws] == Open then announced + [msg] else [])
    {
      if state0[ws] == Open {
        AppendAssoc(sent0[ws], announced, [msg]);
      }
    }
  }

  /** One firing alert: the store is updated and the signing request
      carrying the new transaction's id is broadcast; the request is
      returned. */
  method FireAlert(prices: map<string, real>, db: Store, registry: Registry, alert: AlertRow, now: int, payload: string,
                   ghost base: seq<AlertRow>, ghost baseTxs: seq<PendingTxRow>, ghost baseJournal: seq<Statement>,
                   ghost firstDraw: nat, ghost fired: seq<AlertRow>,
                   ghost sent0: map<Socket, seq<Outbound>>, ghost state0: map<Socket, ReadyState>, ghost announced: seq<Outbound>)
    returns (msg: Outbound)
    requires Progress(db, base, baseTxs, baseJournal, firstDraw, fired, now, payload)
    requires alert.id in AlertIds(base) && Fires(prices, alert)
    requires forall k :: 0 <= k < |fired| ==> Fires(prices, fired[k])
    requires announced == AlertRequests(prices, fired, firstDraw, now, payload)
    requires Delivered(registry, sent0, state0, announced)
    modifies db`alerts, db`txs, db`txSeq, db`txDraws, db`journal, registry.clients
    ensures Progress(db, base, baseTxs, baseJournal, firstDraw, fired + [alert], now, payload)
    ensures announced + [msg] == AlertRequests(prices, fired + [alert], firstDraw, now, payload)
    ensures Delivered(registry, sent0, state0, announced + [msg])
    ensures forall ws :: ws in registry.clients ==> ws.closeCode == old(ws.closeCode)
  {
    var txId := RecordFiring(db, alert, now, payload, base, baseTxs, baseJournal, firstDraw, fired);
    msg := AlertRequest(alert, prices[Upper(alert.token)], txId, now, payload);
    Announce(registry, msg, sent0, state0, announced);
    ghost var next := fired + [alert];
    assert next[..|next| - 1] == fired;
  }

  /** One alert of the snapshot: skipped when its token has no price or the
      price has not crossed its target, fired otherwise. */
  method VisitAlert(prices: map<string, real>, db: Store, registry: Registry, alert: AlertRow, now: int, payload: string,
                    ghost base: seq<AlertRow>, ghost baseTxs: seq<PendingTxRow>, ghost baseJournal: seq<Statement>,
                    ghost firstDraw: nat, ghost fired: seq<AlertRow>,
                    ghost sent0: map<Socket, seq<Outbound>>, ghost state0: map<Socket, ReadyState>, ghost announced: seq<Outbound>)
    returns (ghost fired': seq<AlertRow>, ghost announced': seq<Outbound>)
    requires Progress(db, base, baseTxs, baseJournal, firstDraw, fired, now, payload)
    requires alert.id in AlertIds(base)
    requires forall k :: 0 <= k < |fired| ==> Fires(prices, fired[k])
    requires announced == AlertRequests(prices, fired, firstDraw, now, payload)
    requires Delivered(registry, sent0, state0, announced)
    modifies db`alerts, db`txs, db`txSeq, db`txDraws, db`journal, registry.clients
    ensures fired' == fired + (if Fires(prices, alert) then [alert] else [])
    ensures forall k :: 0 <= k < |fired'| ==> Fires(prices, fired'[k])
    ensures Progress(db, base, baseTxs, baseJournal, firstDraw, fired', now, payload)
    ensures announced' == AlertRequests(prices, fired', firstDraw, now, payload)
    ensures Delivered(registry, sent0, state0, announced')
    ensures forall ws :: ws in registry.clients ==> ws.closeCode == old(ws.closeCode)
  {
    fired', announced' := fired, announced;
    var symbol := Upper(alert.token);
    if symbol in prices {
      var price := prices[symbol];
      var triggered := (alert.direction == Above && price >= alert.targetPrice) ||
                       (alert.direction == Below && price <= alert.targetPrice);
      if triggered {
        var msg := FireAlert(prices, db, registry, alert, now, payload, base, baseTxs, baseJournal, firstDraw, fired,
                             sent0, state0, announced);
        fired', announced' := fired + [alert], announced + [msg];
      }
    }
  }

  /** The check after visiting the first `k` alerts of the snapshot
      `active`: the store and the sockets reflect exactly the alerts among
      them that fired. */
  ghost predicate Checked(prices: map<string, real>, db: Store, registry: Registry, active: seq<AlertRow>, k: nat,
                          now: int, payload: string,
                          base: seq<AlertRow>, baseTxs: seq<PendingTxRow>, baseJournal: seq<Statement>, firstDraw: nat,
                          sent0: map<Socket, seq<Outbound>>, state0: map<Socket, ReadyState>)
    requires k <= |active|
    reads db, registry, registry.clients
  {
    && Progress(db, base, baseTxs, baseJournal, firstDraw, FiredAmong(prices, active, k), now, payload)
    && Delivered(registry, sent0, state0, AlertRequests(prices, FiredAmong(prices, active, k), firstDraw, now, payload))
  }

  /** One turn of the check's loop. */
  method CheckNext(prices: map<string, real>, db: Store, registry: Registry, active: seq<AlertRow>, k: nat,
                   now: int, payload: string,
                   ghost base: seq<AlertRow>, ghost baseTxs: seq<PendingTxRow>, ghost baseJournal: seq<Statement>,
                   ghost firstDraw: nat, ghost sent0: map<Socket, seq<Outbound>>, ghost state0: map<Socket, ReadyState>)
    requires k < |active| && active[k].id in AlertIds(base)
    requires Checked(prices, db, registry, active, k, now, payload, base, baseTxs, baseJournal, firstDraw, sent0, state0)
    modifies db`alerts, db`txs, db`txSeq, db`txDraws, db`journal, registry.clients
    ensures Checked(prices, db, registry, active, k + 1, now, payload, base, baseTxs, baseJournal, firstDraw, sent0, state0)
    ensures forall ws :: ws in registry.clients ==> ws.closeCode == old(ws.closeCode)
  {
    ghost var fired := FiredAmong(prices, active, k);
    ghost var fired', announced' := VisitAlert(prices, db, registry, active[k], now, payload,
                                               base, baseTxs, baseJournal, firstDraw, fired,
                                               sent0, state0, AlertRequests(prices, fired, firstDraw, now, payload));
    FiredAmongStep(prices, active, k);
  }
}
