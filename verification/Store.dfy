/**
 The dispatch tables and the SQL statements that touch them
 (internal/store/postgres, migrations/0001_initial_schema.up.sql).

 `Tables` is the committed content of the tables as a value, and each statement is a
 function on it; `Database` holds the same content in fields, and its methods, which
 run the statement or report a database error, are proved against those functions.
 Row ids are opaque and compared only for equality.
 */
module Store {
  import opened Prelude

  type Id = nat

  datatype Provider = Expo | Fcm | Apns | Hms

  datatype Status = Queued | Sending | Sent | Delivered | Failed

  datatype ErrorCode =
    | NoCredential
    | CredentialDecryptFailed
    | UnknownProvider
    | InvalidToken
    | TransientErrorExhausted

  datatype Recipient = Recipient(
    notification: Id, device: Id, provider: Provider,
    status: Status, messageId: Option<string>, error: Option<ErrorCode>, attempts: nat)

  datatype DeviceStatus = Active | Stale | Invalid

  datatype Device = Device(project: Id, token: string, provider: Provider, status: DeviceStatus)

  datatype NotificationStatus = Pending | FanningOut | Processing | Completed | Failed

  /** What target_spec asks for; Malformed stands for JSON that does not parse. */
  datatype TargetSpec = Malformed | Targets(deviceIds: seq<Id>, externalIds: seq<string>)

  datatype Notification = Notification(
    project: Id, key: Option<string>, spec: TargetSpec, status: NotificationStatus, total: nat)

  /** A device as GetDevicesByIDs returns it to the fanout loop. */
  datatype DeviceRow = DeviceRow(id: Id, provider: Provider, token: string)

  /**
   `keyIndex` is the partial unique index on (project_id, idempotency_key) and
   `pairIndex` the unique constraint on (notification_id, device_id).
   */
  datatype Tables = Tables(
    notifications: map<Id, Notification>, keyIndex: map<(Id, string), Id>,
    recipients: map<Id, Recipient>, pairIndex: map<(Id, Id), Id>,
    devices: map<Id, Device>)

  /** Statuses HandleSend must never act on again. */
  predicate Terminal(s: Status) {
    s == Sent || s == Delivered || s == Status.Failed
  }

  // ----- notifications -----

  predicate KeyTaken(t: Tables, project: Id, key: Option<string>) {
    key.Some? && (project, key.value) in t.keyIndex
  }

  /** insert ... on conflict (project_id, idempotency_key) do nothing; null keys never conflict. */
  function InsertNotification(t: Tables, id: Id, project: Id, key: Option<string>, spec: TargetSpec): Tables {
    if KeyTaken(t, project, key) then t
    else t.(
         notifications := t.notifications[id := Notification(project, key, spec, Pending, 0)],
         keyIndex := if key.Some? then t.keyIndex[(project, key.value) := id] else t.keyIndex)
  }

  function SetNotificationStatus(t: Tables, id: Id, s: NotificationStatus): Tables {
    if id in t.notifications
    then t.(notifications := t.notifications[id := t.notifications[id].(status := s)])
    else t
  }

  function SetNotificationTotals(t: Tables, id: Id, total: nat): Tables {
    if id in t.notifications
    then t.(notifications := t.notifications[id := t.notifications[id].(total := total)])
    else t
  }

  // ----- recipients -----

  /** insert ... on conflict (notification_id, device_id) do nothing. */
  function InsertRecipient(t: Tables, id: Id, notification: Id, device: Id, provider: Provider): Tables {
    if (notification, device) in t.pairIndex then t
    else t.(
         recipients := t.recipients[id := Recipient(notification, device, provider, Queued, None, None, 0)],
         pairIndex := t.pairIndex[(notification, device) := id])
  }

  function MarkRecipientSending(t: Tables, id: Id): Tables {
    if id in t.recipients
    then var r := t.recipients[id];
         t.(recipients := t.recipients[id := r.(status := Sending, attempts := r.attempts + 1)])
    else t
  }

  function MarkRecipientSent(t: Tables, id: Id, messageId: string): Tables {
    if id in t.recipients
    then t.(recipients := t.recipients[id := t.recipients[id].(status := Sent, messageId := Some(messageId))])
    else t
  }

  function MarkRecipientFailed(t: Tables, id: Id, code: ErrorCode): Tables {
    if id in t.recipients
    then t.(recipients := t.recipients[id := t.recipients[id].(status := Status.Failed, error := Some(code))])
    else t
  }

  function RowsWith(t: Tables, n: Id, s: Status): set<Id> {
    set r | r in t.recipients && t.recipients[r].notification == n && t.recipients[r].status == s
  }

  /** select status, count(*) ... group by status; an absent status counts 0. */
  function CountOf(t: Tables, n: Id, s: Status): nat {
    |RowsWith(t, n, s)|
  }

  /** The rows of that query: one per status present, with its count. */
  ghost predicate IsGrouping(t: Tables, n: Id, rows: seq<(Status, nat)>) {
    && (forall i, j :: 0 <= i < j < |rows| ==> rows[i].0 != rows[j].0)
    && (forall i :: 0 <= i < |rows| ==> rows[i].1 == CountOf(t, n, rows[i].0) > 0)
    && (forall s :: CountOf(t, n, s) > 0 ==> exists i :: 0 <= i < |rows| && rows[i].0 == s)
  }

  // ----- devices -----

  function MarkDeviceStatus(t: Tables, id: Id, s: DeviceStatus): Tables {
    if id in t.devices
    then t.(devices := t.devices[id := t.devices[id].(status := s)])
    else t
  }

  /** where project_id = $1 and id = any($2): foreign and unknown ids are dropped. */
  function DevicesByIds(t: Tables, project: Id, ids: set<Id>): set<Id> {
    set d | d in ids && d in t.devices && t.devices[d].project == project
  }

  /** `rows` lists the devices of DevicesByIds once each, in whatever order the database chose. */
  predicate IsFetchOf(t: Tables, project: Id, ids: set<Id>, rows: seq<DeviceRow>) {
    && ListsRows(t, DevicesByIds(t, project, ids), rows)
    && forall i :: 0 <= i < |rows| ==> rows[i].id in DevicesByIds(t, project, ids)
  }

  function RowIds(rows: seq<DeviceRow>): set<Id> {
    set i | 0 <= i < |rows| :: rows[i].id
  }

  lemma AppendRowId(rows: seq<DeviceRow>, row: DeviceRow)
    ensures RowIds(rows + [row]) == RowIds(rows) + {row.id}
    ensures forall i :: 0 <= i < |rows| ==> rows[i].id in RowIds(rows)
  {
    var more := rows + [row];
    assert more[|rows|] == row;
    forall id | id in RowIds(rows) ensures id in RowIds(more) {
      var i :| 0 <= i < |rows| && rows[i].id == id;
      assert more[i].id == id;
    }
  }

  /** `rows` lists the devices `ids`, once each. */
  predicate ListsRows(t: Tables, ids: set<Id>, rows: seq<DeviceRow>) {
    && (forall i, j :: 0 <= i < j < |rows| ==> rows[i].id != rows[j].id)
    && (forall i :: 0 <= i < |rows| ==>
          rows[i].id in t.devices
          && rows[i] == DeviceRow(rows[i].id, t.devices[rows[i].id].provider, t.devices[rows[i].id].token))
    && RowIds(rows) == ids
  }

  lemma ListsOneMore(t: Tables, ids: set<Id>, rows: seq<DeviceRow>, d: Id)
    requires ListsRows(t, ids, rows) && d !in ids && d in t.devices
    ensures ListsRows(t, ids + {d}, rows + [DeviceRow(d, t.devices[d].provider, t.devices[d].token)])
  {
    AppendRowId(rows, DeviceRow(d, t.devices[d].provider, t.devices[d].token));
  }

  /** The driver's loop over the result set, in whatever order the rows come. */
  method FetchRows(t: Tables, ids: set<Id>) returns (rows: seq<DeviceRow>)
    requires ids <= t.devices.Keys
    ensures ListsRows(t, ids, rows)
    ensures forall i :: 0 <= i < |rows| ==> rows[i].id in ids
  {
    var todo := ids;
    rows := [];
    while todo != {}
      invariant todo <= ids && ListsRows(t, ids - todo, rows)
      decreases |todo|
    {
      var d :| d in todo;
      ListsOneMore(t, ids - todo, rows, d);
      assert ids - (todo - {d}) == ids - todo + {d};
      rows := rows + [DeviceRow(d, t.devices[d].provider, t.devices[d].token)];
      todo := todo - {d};
    }
    RowsAmong(rows);
  }

  lemma RowsAmong(rows: seq<DeviceRow>)
    ensures forall i :: 0 <= i < |rows| ==> rows[i].id in RowIds(rows)
  {
    AppendRowId(rows, DeviceRow(0, Expo, ""));
  }

  /** The tables as the process sees them; `up` says whether the statement reaches the database. */
  class Database {
    var notifications: map<Id, Notification>
    var keyIndex: map<(Id, string), Id>
    var recipients: map<Id, Recipient>
    var pairIndex: map<(Id, Id), Id>
    var devices: map<Id, Device>

    function Snapshot(): Tables
      reads this
    {
      Tables(notifications, keyIndex, recipients, pairIndex, devices)
    }

    method QueryRecipient(id: Id, up: bool) returns (row: Option<Recipient>)
      ensures row.Some? <==> up && id in recipients
      ensures row.Some? ==> row.value == recipients[id]
    {
      row := if up && id in recipients then Some(recipients[id]) else None;
    }

    method QueryDevicesByIds(project: Id, ids: set<Id>) returns (rows: seq<DeviceRow>)
      ensures IsFetchOf(Snapshot(), project, ids, rows)
    {
      rows := FetchRows(Snapshot(), DevicesByIds(Snapshot(), project, ids));
    }

    method ExecMarkRecipientSending(id: Id, up: bool) returns (ok: bool)
      modifies this
      ensures ok <==> up && id in old(recipients)
      ensures Snapshot() == if ok then MarkRecipientSending(old(Snapshot()), id) else old(Snapshot())
    {
      ok := up && id in recipients;
      if ok {
        var r := recipients[id];
        recipients := recipients[id := r.(status := Sending, attempts := r.attempts + 1)];
      }
    }

    method ExecMarkRecipientSent(id: Id, messageId: string, up: bool) returns (ok: bool)
      modifies this
      ensures ok == up
      ensures Snapshot() == if up then MarkRecipientSent(old(Snapshot()), id, messageId) else old(Snapshot())
    {
      ok := up;
      if up && id in recipients {
        recipients := recipients[id := recipients[id].(status := Sent, messageId := Some(messageId))];
      }
    }

    method ExecMarkRecipientFailed(id: Id, code: ErrorCode, up: bool)
      modifies this
      ensures Snapshot() == if up then MarkRecipientFailed(old(Snapshot()), id, code) else old(Snapshot())
    {
      if up && id in recipients {
        recipients := recipients[id := recipients[id].(status := Status.Failed, error := Some(code))];
      }
    }

    method ExecMarkDeviceStatus(id: Id, s: DeviceStatus, up: bool)
      modifies this
      ensures Snapshot() == if up then MarkDeviceStatus(old(Snapshot()), id, s) else old(Snapshot())
    {
      if up && id in devices {
        devices := devices[id := devices[id].(status := s)];
      }
    }

    method ExecSetNotificationStatus(id: Id, s: NotificationStatus, up: bool) returns (ok: bool)
      modifies this
      ensures ok == up
      ensures Snapshot() == if up then SetNotificationStatus(old(Snapshot()), id, s) else old(Snapshot())
    {
      ok := up;
      if up && id in notifications {
        notifications := notifications[id := notifications[id].(status := s)];
      }
    }

    method ExecSetNotificationTotals(id: Id, total: nat, up: bool) returns (ok: bool)
      modifies this
      ensures ok == up
      ensures Snapshot() == if up then SetNotificationTotals(old(Snapshot()), id, total) else old(Snapshot())
    {
      ok := up;
      if up && id in notifications {
        notifications := notifications[id := notifications[id].(total := total)];
      }
    }

    /** `inserted` is false on a conflict, which the driver reports as ErrNoRows. */
    method ExecInsertRecipient(id: Id, notification: Id, device: Id, provider: Provider, up: bool)
      returns (ok: bool, inserted: bool)
      modifies this
      ensures ok == up
      ensures inserted <==> up && (notification, device) !in old(pairIndex)
      ensures Snapshot() == if up then InsertRecipient(old(Snapshot()), id, notification, device, provider)
                            else old(Snapshot())
    {
      ok := up;
      inserted := up && (notification, device) !in pairIndex;
      if inserted {
        recipients := recipients[id := Recipient(notification, device, provider, Queued, None, None, 0)];
        pairIndex := pairIndex[(notification, device) := id];
      }
    }

    method ExecInsertNotification(id: Id, project: Id, key: Option<string>, spec: TargetSpec)
      returns (inserted: bool)
      modifies this
      ensures inserted == !KeyTaken(old(Snapshot()), project, key)
      ensures Snapshot() == InsertNotification(old(Snapshot()), id, project, key, spec)
    {
      inserted := !(key.Some? && (project, key.value) in keyIndex);
      if inserted {
        notifications := notifications[id := Notification(project, key, spec, Pending, 0)];
        if key.Some? {
          keyIndex := keyIndex[(project, key.value) := id];
        }
      }
    }
  }
}
