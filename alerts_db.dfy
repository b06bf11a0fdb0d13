/** The alert, pending-transaction and device tables and the statements the
    server runs on them. The tables are sequences of rows held by a `Store`;
    each write method performs one SQL statement, and each read is a pure
    function of a table. Row defaults and value domains follow the table
    definitions: an alert starts `active`, a pending transaction starts
    `pending_signature` with no signature, and both take `now` as creation
    time. */
module AlertsDb {
  import opened Wrappers
  import opened Strings
  import opened Schemas

  datatype AlertStatus = Active | Triggered | Cancelled

  /** The text stored in the `status` column. */
  function AlertStatusName(s: AlertStatus): string {
    match s
    case Active => "active"
    case Triggered => "triggered"
    case Cancelled => "cancelled"
  }

  datatype TxStatus = PendingSignature | Signed | Rejected | Expired

  /** The statuses `updateTxStatus` accepts. */
  type FinalTxStatus = s: TxStatus | s != PendingSignature witness Signed

  datatype AlertRow = AlertRow(
    id: nat, sessionId: Option<string>, token: string, targetPrice: real,
    direction: Direction, fromToken: string, toToken: string, amount: real,
    status: AlertStatus, createdAt: int)

  /** The values `createAlert` inserts. */
  datatype NewAlert = NewAlert(
    sessionId: Option<string>, token: string, targetPrice: real, direction: Direction,
    fromToken: string, toToken: string, amount: real)

  datatype PendingTxRow = PendingTxRow(
    txId: string, alertId: Option<nat>, fromToken: string, toToken: string,
    amount: real, payload: string, status: TxStatus, signature: Option<string>,
    expiresAt: int, createdAt: int)

  /** The values `createPendingTx` inserts. */
  datatype NewTx = NewTx(
    alertId: Option<nat>, fromToken: string, toToken: string, amount: real,
    payload: string, expiresAt: int)

  datatype DeviceRow = DeviceRow(id: nat, pushToken: string)

  /** The write statements, in the order the store executed them. */
  datatype Statement =
    | InsertAlert(alertId: nat)
    | MarkTriggered(alertId: nat)
    | CancelIfActive(alertId: nat)
    | RearmTriggered
    | InsertTx(txId: string)
    | FinalizeTx(txId: string)
    | RefreshTxRow(txId: string)
    | DeleteAllTxs
    | InsertDevice(pushToken: string)

  // ---------------------------------------------------------------------------
  // Fresh transaction identifiers
  // ---------------------------------------------------------------------------

  /** The identifier handed out by the n-th draw of the id source. */
  function TxIdOf(n: nat): (id: string)
    ensures |id| > 3 && id[..3] == "tx-"
  {
    "tx-" + NatToString(n)
  }

  /** Different draws give different identifiers. */
  lemma TxIdOfInjective(a: nat, b: nat)
    requires TxIdOf(a) == TxIdOf(b)
    ensures a == b
  {
    assert NatToString(a) == TxIdOf(a)[3..];
    assert NatToString(b) == TxIdOf(b)[3..];
    NatToStringInjective(a, b);
  }

  // ---------------------------------------------------------------------------
  // Reads
  // ---------------------------------------------------------------------------

  function AlertIds(rows: seq<AlertRow>): set<nat> {
    set r | r in rows :: r.id
  }

  function TxIds(rows: seq<PendingTxRow>): set<string> {
    set t | t in rows :: t.txId
  }

  predicate IdsAscending(rows: seq<AlertRow>) {
    forall i, j :: 0 <= i < j < |rows| ==> rows[i].id < rows[j].id
  }

  predicate IdsDescending(rows: seq<AlertRow>) {
    forall i, j :: 0 <= i < j < |rows| ==> rows[i].id > rows[j].id
  }

  /** `WHERE status = name`, in table order. */
  function WithStatus(rows: seq<AlertRow>, name: string): (r: seq<AlertRow>)
    ensures forall a :: a in r <==> a in rows && AlertStatusName(a.status) == name
  {
    if rows == [] then []
    else
      var rest := WithStatus(rows[1..], name);
      assert rows == [rows[0]] + rows[1..];
      if AlertStatusName(rows[0].status) == name then [rows[0]] + rest else rest
  }

  lemma HeadBelowRest(rows: seq<AlertRow>)
    requires IdsAscending(rows) && rows != []
    ensures forall a :: a in rows[1..] ==> rows[0].id < a.id
  {
    forall a | a in rows[1..] ensures rows[0].id < a.id {
      var m :| 0 <= m < |rows[1..]| && rows[1..][m] == a;
      assert rows[m + 1] == a;
    }
  }

  lemma AscendingCons(x: AlertRow, rest: seq<AlertRow>)
    requires IdsAscending(rest)
    requires forall a :: a in rest ==> x.id < a.id
    ensures IdsAscending([x] + rest)
  {
    var r := [x] + rest;
    forall i, j | 0 <= i < j < |r| ensures r[i].id < r[j].id {
      assert r[j] == rest[j - 1];
      if i > 0 {
        assert r[i] == rest[i - 1];
      } else {
        assert rest[j - 1] in rest;
      }
    }
  }

  /** Filtering keeps the table's id order. */
  lemma {:induction false} WithStatusAscending(rows: seq<AlertRow>, name: string)
    requires IdsAscending(rows)
    ensures IdsAscending(WithStatus(rows, name))
  {
    if rows != [] {
      assert IdsAscending(rows[1..]);
      WithStatusAscending(rows[1..], name);
      if AlertStatusName(rows[0].status) == name {
        HeadBelowRest(rows);
        AscendingCons(rows[0], WithStatus(rows[1..], name));
      }
    }
  }

  /** `getActiveAlerts`: the active alerts, in ascending id order. */
  function ActiveAlerts(rows: seq<AlertRow>): (r: seq<AlertRow>)
    ensures forall a :: a in r <==> a in rows && a.status == Active
    ensures IdsAscending(rows) ==> IdsAscending(r)
  {
    var r := WithStatus(rows, "active");
    assert IdsAscending(rows) ==> IdsAscending(r) by {
      if IdsAscending(rows) {
        WithStatusAscending(rows, "active");
      }
    }
    r
  }

  function Reverse<T>(s: seq<T>): (r: seq<T>)
    ensures |r| == |s|
    ensures forall i :: 0 <= i < |s| ==> r[i] == s[|s| - 1 - i]
  {
    if s == [] then [] else Reverse(s[1..]) + [s[0]]
  }

  /** Reversal keeps the members and turns ascending ids into descending. */
  lemma ReverseOrder(s: seq<AlertRow>)
    ensures forall a :: a in Reverse(s) <==> a in s
    ensures IdsAscending(s) ==> IdsDescending(Reverse(s))
  {
    var r := Reverse(s);
    forall a ensures a in r <==> a in s {
      if a in r {
        var i :| 0 <= i < |r| && r[i] == a;
        assert s[|s| - 1 - i] == a;
      }
      if a in s {
        var i :| 0 <= i < |s| && s[i] == a;
        assert r[|s| - 1 - i] == a;
      }
    }
    if IdsAscending(s) {
      forall i, j | 0 <= i < j < |r| ensures r[i].id > r[j].id {
        assert r[i] == s[|s| - 1 - i] && r[j] == s[|s| - 1 - j];
      }
    }
  }

  /** `getAlerts(status)`: descending id order; a missing or empty status
      (falsy in JavaScript) selects every alert, any other text selects the
      alerts whose status column holds exactly that text. */
  function GetAlerts(rows: seq<AlertRow>, status: Option<string>): (r: seq<AlertRow>)
    ensures IdsAscending(rows) ==> IdsDescending(r)
    ensures forall a :: a in r <==>
      a in rows && (status.None? || status.value == "" || AlertStatusName(a.status) == status.value)
  {
    var filtered := status.Some? && status.value != "";
    var selected := if filtered then WithStatus(rows, status.value) else rows;
    ReverseOrder(selected);
    assert IdsAscending(rows) ==> IdsAscending(selected) by {
      if IdsAscending(rows) && filtered {
        WithStatusAscending(rows, status.value);
      }
    }
    Reverse(selected)
  }

  /** A transaction the client may still sign. */
  predicate Awaiting(tx: PendingTxRow, now: int) {
    tx.status == PendingSignature && tx.expiresAt > now
  }

  function AwaitingTxs(rows: seq<PendingTxRow>, now: int): (r: seq<PendingTxRow>)
    ensures forall t :: t in r <==> t in rows && Awaiting(t, now)
    ensures multiset(r) <= multiset(rows)
  {
    if rows == [] then []
    else
      var rest := AwaitingTxs(rows[1..], now);
      assert rows == [rows[0]] + rows[1..];
      if Awaiting(rows[0], now) then [rows[0]] + rest else rest
  }

  predicate CreatedAscending(s: seq<PendingTxRow>) {
    forall i, j :: 0 <= i < j < |s| ==> s[i].createdAt <= s[j].createdAt
  }

  lemma CreatedCons(x: PendingTxRow, rest: seq<PendingTxRow>)
    requires CreatedAscending(rest)
    requires rest != [] ==> x.createdAt <= rest[0].createdAt
    ensures CreatedAscending([x] + rest)
  {
    var r := [x] + rest;
    forall i, j | 0 <= i < j < |r| ensures r[i].createdAt <= r[j].createdAt {
      assert r[j] == rest[j - 1];
      if i > 0 {
        assert r[i] == rest[i - 1];
      }
    }
  }

  function InsertByCreation(x: PendingTxRow, s: seq<PendingTxRow>): (r: seq<PendingTxRow>)
    requires CreatedAscending(s)
    ensures |r| == |s| + 1
    ensures CreatedAscending(r)
    ensures multiset(r) == multiset(s) + multiset{x}
    ensures r[0] == x || (s != [] && r[0] == s[0])
  {
    if s == [] then [x]
    else if x.createdAt <= s[0].createdAt then
      CreatedCons(x, s);
      [x] + s
    else
      assert CreatedAscending(s[1..]);
      var rest := InsertByCreation(x, s[1..]);
      CreatedCons(s[0], rest);
      assert multiset([s[0]] + rest) == multiset{s[0]} + multiset(rest);
      assert multiset(s) == multiset{s[0]} + multiset(s[1..]) by {
        assert s == [s[0]] + s[1..];
      }
      [s[0]] + rest
  }

  /** `ORDER BY created_at ASC`. Rows created at the same instant keep their
      table order here; the database leaves that order open. */
  function SortByCreation(s: seq<PendingTxRow>): (r: seq<PendingTxRow>)
    ensures CreatedAscending(r)
    ensures multiset(r) == multiset(s)
  {
    if s == [] then []
    else
      assert s == [s[0]] + s[1..];
      InsertByCreation(s[0], SortByCreation(s[1..]))
  }

  /** `getPendingTxs(now)`: exactly the rows still awaiting a signature whose
      expiry lies after `now`, oldest first. */
  function PendingTxs(rows: seq<PendingTxRow>, now: int): (r: seq<PendingTxRow>)
    ensures CreatedAscending(r)
    ensures multiset(r) == multiset(AwaitingTxs(rows, now))
    ensures forall t :: t in r <==> t in rows && Awaiting(t, now)
  {
    var r := SortByCreation(AwaitingTxs(rows, now));
    assert forall t :: t in r <==> t in multiset(r);
    r
  }

  /** `getTxById`: the row with that identifier, or nothing. */
  function TxById(rows: seq<PendingTxRow>, txId: string): (r: Option<PendingTxRow>)
    ensures r.Some? <==> txId in TxIds(rows)
    ensures r.Some? ==> r.value in rows && r.value.txId == txId
  {
    if rows == [] then None
    else if rows[0].txId == txId then Some(rows[0])
    else
      assert rows == [rows[0]] + rows[1..];
      TxById(rows[1..], txId)
  }

  /** `getDevicePushTokens`: the registered push tokens, in table order. */
  function DevicePushTokens(devices: seq<DeviceRow>): (r: seq<string>)
    ensures |r| == |devices|
    ensures forall i :: 0 <= i < |devices| ==> r[i] == devices[i].pushToken
  {
    if devices == [] then [] else [devices[0].pushToken] + DevicePushTokens(devices[1..])
  }

  function CountWithStatus(rows: seq<AlertRow>, s: AlertStatus): (n: nat)
    ensures n <= |rows|
    ensures n == 0 <==> forall a :: a in rows ==> a.status != s
  {
    if rows == [] then 0
    else
      assert rows == [rows[0]] + rows[1..];
      (if rows[0].status == s then 1 else 0) + CountWithStatus(rows[1..], s)
  }

  predicate DistinctPushTokens(devices: seq<DeviceRow>) {
    forall i, j :: 0 <= i < j < |devices| ==> devices[i].pushToken != devices[j].pushToken
  }

  // ---------------------------------------------------------------------------
  // The store
  // ---------------------------------------------------------------------------

  class Store {
    var alerts: seq<AlertRow>
    var nextAlertId: nat
    var txs: seq<PendingTxRow>
    /** How many identifiers the id source has handed out. */
    var txSeq: nat
    /** For each row of `txs`, the draw that produced its identifier. */
    ghost var txDraws: seq<nat>
    var devices: seq<DeviceRow>
    var nextDeviceId: nat
    ghost var journal: seq<Statement>

    ghost predicate Valid()
      reads this
    {
      && IdsAscending(alerts)
      && (forall i :: 0 <= i < |alerts| ==> alerts[i].id < nextAlertId)
      && |txDraws| == |txs|
      && (forall i :: 0 <= i < |txs| ==> txs[i].txId == TxIdOf(txDraws[i]) && txDraws[i] < txSeq)
      && (forall i, j :: 0 <= i < j < |txs| ==> txDraws[i] < txDraws[j])
      && (forall i :: 0 <= i < |txs| && txs[i].alertId.Some? ==> txs[i].alertId.value in AlertIds(alerts))
      && DistinctPushTokens(devices)
    }

    /** The primary keys of the transaction table are distinct. */
    lemma TxIdsUnique()
      requires Valid()
      ensures forall i, j :: 0 <= i < |txs| && 0 <= j < |txs| && i != j ==> txs[i].txId != txs[j].txId
    {
      forall i, j | 0 <= i < |txs| && 0 <= j < |txs| && i != j
        ensures txs[i].txId != txs[j].txId
      {
        if txs[i].txId == txs[j].txId {
          TxIdOfInjective(txDraws[i], txDraws[j]);
        }
      }
    }

    /** The next identifier the source hands out is not yet in the table. */
    lemma NextTxIdFresh()
      requires Valid()
      ensures TxIdOf(txSeq) !in TxIds(txs)
    {
      if TxIdOf(txSeq) in TxIds(txs) {
        var i :| 0 <= i < |txs| && txs[i].txId == TxIdOf(txSeq);
        TxIdOfInjective(txDraws[i], txSeq);
      }
    }

    constructor ()
      ensures Valid()
      ensures alerts == [] && txs == [] && devices == [] && journal == []
      ensures nextAlertId == 1 && txSeq == 0
    {
      alerts, nextAlertId := [], 1;
      txs, txSeq, txDraws := [], 0, [];
      devices, nextDeviceId := [], 1;
      journal := [];
    }

    /** `createAlert`: one new active row with the next serial id. */
    method CreateAlert(p: NewAlert, now: int) returns (row: AlertRow)
      requires Valid()
      modifies this`alerts, this`nextAlertId, this`journal
      ensures Valid()
      ensures row == AlertRow(old(nextAlertId), p.sessionId, p.token, p.targetPrice, p.direction,
                              p.fromToken, p.toToken, p.amount, Active, now)
      ensures alerts == old(alerts) + [row]
      ensures nextAlertId == old(nextAlertId) + 1
      ensures journal == old(journal) + [InsertAlert(row.id)]
    {
      row := AlertRow(nextAlertId, p.sessionId, p.token, p.targetPrice, p.direction,
                      p.fromToken, p.toToken, p.amount, Active, now);
      alerts := alerts + [row];
      nextAlertId := nextAlertId + 1;
      journal := journal + [InsertAlert(row.id)];
      assert AlertIds(old(alerts)) <= AlertIds(alerts);
    }

    /** `markAlertTriggered`: an unconditional update; whatever its status, the
        row with that id becomes `triggered` and no other row changes. */
    method MarkAlertTriggered(id: nat)
      requires Valid()
      modifies this`alerts, this`journal
      ensures Valid()
      ensures |alerts| == |old(alerts)|
      ensures forall i :: 0 <= i < |alerts| ==>
        alerts[i] == if old(alerts)[i].id == id then old(alerts)[i].(status := Triggered) else old(alerts)[i]
      ensures AlertIds(alerts) == AlertIds(old(alerts))
      ensures journal == old(journal) + [MarkTriggered(id)]
    {
      var before := alerts;
      alerts := seq(|before|, i requires 0 <= i < |before| =>
        if before[i].id == id then before[i].(status := Triggered) else before[i]);
      journal := journal + [MarkTriggered(id)];
      SameIdsSameAlertIds(before, alerts);
    }

    /** `cancelAlert`: only an active row with that id becomes `cancelled`;
        the result says whether a row changed. */
    method CancelAlert(id: nat) returns (cancelled: bool)
      requires Valid()
      modifies this`alerts, this`journal
      ensures Valid()
      ensures |alerts| == |old(alerts)|
      ensures forall i :: 0 <= i < |alerts| ==>
        alerts[i] == if old(alerts)[i].id == id && old(alerts)[i].status == Active
                     then old(alerts)[i].(status := Cancelled) else old(alerts)[i]
      ensures cancelled <==> exists a :: a in old(alerts) && a.id == id && a.status == Active
      ensures cancelled <==> alerts != old(alerts)
      ensures journal == old(journal) + [CancelIfActive(id)]
    {
      var before := alerts;
      alerts := seq(|before|, i requires 0 <= i < |before| =>
        if before[i].id == id && before[i].status == Active then before[i].(status := Cancelled) else before[i]);
      cancelled := exists a :: a in before && a.id == id && a.status == Active;
      if cancelled {
        var a :| a in before && a.id == id && a.status == Active;
        var i :| 0 <= i < |before| && before[i] == a;
        assert alerts[i] != before[i];
      }
      journal := journal + [CancelIfActive(id)];
      SameIdsSameAlertIds(before, alerts);
    }

    /** `resetTriggeredAlerts`: every triggered row becomes active again,
        cancelled rows stay cancelled; returns how many rows changed. */
    method ResetTriggeredAlerts() returns (count: nat)
      requires Valid()
      modifies this`alerts, this`journal
      ensures Valid()
      ensures count == CountWithStatus(old(alerts), Triggered)
      ensures |alerts| == |old(alerts)|
      ensures forall i :: 0 <= i < |alerts| ==>
        alerts[i] == if old(alerts)[i].status == Triggered then old(alerts)[i].(status := Active) else old(alerts)[i]
      ensures journal == old(journal) + [RearmTriggered]
    {
      count := CountWithStatus(alerts, Triggered);
      var before := alerts;
      alerts := seq(|before|, i requires 0 <= i < |before| =>
        if before[i].status == Triggered then before[i].(status := Active) else before[i]);
      journal := journal + [RearmTriggered];
      SameIdsSameAlertIds(before, alerts);
    }

    /** `createPendingTx`: one new row under a fresh identifier, awaiting a
        signature, with the given alert id or none. An alert id naming no
        alert violates the foreign key: the insert fails and nothing changes. */
    method CreatePendingTx(p: NewTx, now: int) returns (r: Result<PendingTxRow, string>)
      requires Valid()
      modifies this`txs, this`txSeq, this`txDraws, this`journal
      ensures Valid()
      ensures r.Err? <==> p.alertId.Some? && p.alertId.value !in AlertIds(alerts)
      ensures r.Err? ==> txs == old(txs) && txSeq == old(txSeq) && journal == old(journal)
      ensures r.Ok? ==> r.value == PendingTxRow(TxIdOf(old(txSeq)), p.alertId, p.fromToken, p.toToken, p.amount,
                                                p.payload, PendingSignature, None, p.expiresAt, now)
      ensures r.Ok? ==> r.value.txId !in TxIds(old(txs))
      ensures r.Ok? ==> txs == old(txs) + [r.value] && txSeq == old(txSeq) + 1
      ensures r.Ok? ==> journal == old(journal) + [InsertTx(r.value.txId)]
    {
      if p.alertId.Some? && p.alertId.value !in AlertIds(alerts) {
        return Err("foreign key violation: alert_id");
      }
      NextTxIdFresh();
      var row := PendingTxRow(TxIdOf(txSeq), p.alertId, p.fromToken, p.toToken, p.amount,
                              p.payload, PendingSignature, None, p.expiresAt, now);
      txs := txs + [row];
      txDraws := txDraws + [txSeq];
      txSeq := txSeq + 1;
      journal := journal + [InsertTx(row.txId)];
      r := Ok(row);
    }

    /** `updateTxStatus`: an unconditional update of the row with that id to a
        final status and the given signature (none when omitted); a second
        call simply overwrites the first. */
    method UpdateTxStatus(txId: string, status: FinalTxStatus, signature: Option<string>)
      requires Valid()
      modifies this`txs, this`journal
      ensures Valid()
      ensures |txs| == |old(txs)|
      ensures forall i :: 0 <= i < |txs| ==>
        txs[i] == if old(txs)[i].txId == txId then old(txs)[i].(status := status, signature := signature) else old(txs)[i]
      ensures journal == old(journal) + [FinalizeTx(txId)]
    {
      var before := txs;
      txs := seq(|before|, i requires 0 <= i < |before| =>
        if before[i].txId == txId then before[i].(status := status, signature := signature) else before[i]);
      journal := journal + [FinalizeTx(txId)];
    }

    /** `refreshTx`: a new payload and expiry for the row with that id, whose
        status goes back to `pending_signature` whatever it was; an unknown id
        changes nothing. */
    method RefreshTx(txId: string, payload: string, expiresAt: int)
      requires Valid()
      modifies this`txs, this`journal
      ensures Valid()
      ensures |txs| == |old(txs)|
      ensures forall i :: 0 <= i < |txs| ==>
        txs[i] == if old(txs)[i].txId == txId
                  then old(txs)[i].(payload := payload, expiresAt := expiresAt, status := PendingSignature)
                  else old(txs)[i]
      ensures txId !in TxIds(old(txs)) ==> txs == old(txs)
      ensures journal == old(journal) + [RefreshTxRow(txId)]
    {
      var before := txs;
      txs := seq(|before|, i requires 0 <= i < |before| =>
        if before[i].txId == txId then before[i].(payload := payload, expiresAt := expiresAt, status := PendingSignature)
        else before[i]);
      journal := journal + [RefreshTxRow(txId)];
      if txId !in TxIds(before) {
        forall i | 0 <= i < |before| ensures before[i].txId != txId {
          assert before[i] in before;
        }
        assert txs == before;
      }
    }

    /** `clearPendingTxs`: the transaction table becomes empty. */
    method ClearPendingTxs()
      requires Valid()
      modifies this`txs, this`txDraws, this`journal
      ensures Valid()
      ensures txs == []
      ensures journal == old(journal) + [DeleteAllTxs]
    {
      txs, txDraws := [], [];
      journal := journal + [DeleteAllTxs];
    }

    /** `registerDevice`: inserts the push token unless it is already
        registered, so registering twice has the effect of registering once. */
    method RegisterDevice(pushToken: string)
      requires Valid()
      modifies this`devices, this`nextDeviceId, this`journal
      ensures Valid()
      ensures pushToken in DevicePushTokens(devices)
      ensures DevicePushTokens(devices) ==
        if pushToken in DevicePushTokens(old(devices)) then DevicePushTokens(old(devices))
        else DevicePushTokens(old(devices)) + [pushToken]
      ensures journal == old(journal) + [InsertDevice(pushToken)]
    {
      var tokens := DevicePushTokens(devices);
      if pushToken !in tokens {
        devices := devices + [DeviceRow(nextDeviceId, pushToken)];
        nextDeviceId := nextDeviceId + 1;
        assert DevicePushTokens(devices) == tokens + [pushToken];
      }
      journal := journal + [InsertDevice(pushToken)];
    }
  }

  lemma SameIdsSameAlertIds(a: seq<AlertRow>, b: seq<AlertRow>)
    requires |a| == |b|
    requires forall i :: 0 <= i < |a| ==> a[i].id == b[i].id
    ensures AlertIds(a) == AlertIds(b)
    ensures IdsAscending(a) ==> IdsAscending(b)
  {
    forall x | x in AlertIds(a) ensures x in AlertIds(b) {
      var r :| r in a && r.id == x;
      var i :| 0 <= i < |a| && a[i] == r;
      assert b[i] in b;
    }
    forall x | x in AlertIds(b) ensures x in AlertIds(a) {
      var r :| r in b && r.id == x;
      var i :| 0 <= i < |b| && b[i] == r;
      assert a[i] in a;
    }
  }
}
