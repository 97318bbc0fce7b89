/**
 Device registration run alone: the statements of internal/store/postgres/devices.sql.go and
 subscribers.sql.go, and registerDeviceSerialized / upsertDevice of
 internal/transport/http/devices.go built from them.

 `Register` is the specification of one registration; `Server` is the handler over mutable
 tables, proved to do exactly that or nothing.
 */
module DeviceTable {
  import opened Prelude
  import Store

  type Id = nat

  datatype Status = Active | Stale | Invalid

  datatype Value = Text(text: string) | Coordinates(lat: real, lon: real)

  /** devices.metadata; `metadata ->> 'device_uuid'` is UuidOf. */
  type Metadata = map<string, Value>

  datatype Device = Device(
    id: Id, subscriber: Option<Id>, status: Status, platform: string, provider: Store.Provider, metadata: Metadata)

  datatype Coords = Coords(lat: real, lon: real)

  datatype DeviceInfo = DeviceInfo(
    brand: string, osVersion: string, deviceUuid: string, language: string, coords: Option<Coords>)

  /** freshDevice and freshSubscriber are the ids the table defaults would generate. */
  datatype Request = Request(
    project: Id, token: string, provider: Store.Provider, platform: string, externalId: string,
    info: Option<DeviceInfo>, ip: string, freshDevice: Id, freshSubscriber: Id)

  /** Rows by (project, token) and subscriber ids by (project, external id). */
  datatype Db = Db(devices: map<(Id, string), Device>, subscribers: map<(Id, string), Id>)

  type Key = (Id, string)

  function KeyOf(r: Request): Key {
    (r.project, r.token)
  }

  function SubscriberKey(r: Request): (Id, string) {
    (r.project, r.externalId)
  }

  function Uuid(r: Request): string {
    if r.info.Some? then r.info.value.deviceUuid else ""
  }

  /** The registrations that go through the advisory lock. */
  predicate Serialized(r: Request) {
    r.externalId != "" && r.info.Some? && r.info.value.deviceUuid != ""
  }

  // ----- metadata -----

  /** Empty strings are left out. */
  function With(m: Metadata, name: string, text: string): Metadata {
    if text != "" then m[name := Text(text)] else m
  }

  function InfoMetadata(info: DeviceInfo): Metadata {
    var m := With(With(With(With(map[], "brand", info.brand), "os_version", info.osVersion),
                       "device_uuid", info.deviceUuid), "language", info.language);
    if info.coords.Some? then m["coords" := Coordinates(info.coords.value.lat, info.coords.value.lon)] else m
  }

  function MetadataOf(info: Option<DeviceInfo>, ip: string): Metadata {
    With(if info.Some? then InfoMetadata(info.value) else map[], "last_seen_ip", ip)
  }

  /** `metadata ->> 'device_uuid'`: null when absent. */
  function UuidOf(m: Metadata): Option<string> {
    if "device_uuid" in m && m["device_uuid"].Text? then Some(m["device_uuid"].text) else None
  }

  lemma MetadataKeepsUuid(info: Option<DeviceInfo>, ip: string)
    ensures UuidOf(MetadataOf(info, ip))
         == if info.Some? && info.value.deviceUuid != "" then Some(info.value.deviceUuid) else None
  {
  }

  /** buildDeviceMetadata */
  method BuildDeviceMetadata(info: Option<DeviceInfo>, ip: string) returns (m: Metadata)
    ensures m == MetadataOf(info, ip)
  {
    m := map[];
    if info.Some? {
      if info.value.brand != "" {
        m := m["brand" := Text(info.value.brand)];
      }
      if info.value.osVersion != "" {
        m := m["os_version" := Text(info.value.osVersion)];
      }
      if info.value.deviceUuid != "" {
        m := m["device_uuid" := Text(info.value.deviceUuid)];
      }
      if info.value.language != "" {
        m := m["language" := Text(info.value.language)];
      }
      if info.value.coords.Some? {
        m := m["coords" := Coordinates(info.value.coords.value.lat, info.value.coords.value.lon)];
      }
    }
    if ip != "" {
      m := m["last_seen_ip" := Text(ip)];
    }
  }

  // ----- statements -----

  /** insert ... on conflict (project_id, external_id) do update; the id of the row. */
  function SubscriberFor(subscribers: map<(Id, string), Id>, r: Request): Id {
    if SubscriberKey(r) in subscribers then subscribers[SubscriberKey(r)] else r.freshSubscriber
  }

  /** insert ... on conflict (project_id, token) do update; an omitted subscriber keeps its value. */
  function UpsertedRow(devices: map<Key, Device>, r: Request, subscriber: Option<Id>): Device {
    var m := MetadataOf(r.info, r.ip);
    if KeyOf(r) in devices
    then var was := devices[KeyOf(r)];
         Device(was.id, if subscriber.Some? then subscriber else was.subscriber, Active, r.platform, r.provider, m)
    else Device(r.freshDevice, subscriber, Active, r.platform, r.provider, m)
  }

  /** An active row of the (project, subscriber, device_uuid) group other than row `id`. */
  predicate Superseded(k: Key, row: Device, project: Id, subscriber: Id, id: Id, uuid: string) {
    && k.0 == project && row.subscriber == Some(subscriber) && row.id != id
    && row.status == Active && UuidOf(row.metadata) == Some(uuid)
  }

  function MarkStale(devices: map<Key, Device>, project: Id, subscriber: Id, id: Id, uuid: string): map<Key, Device> {
    map k | k in devices ::
      if Superseded(k, devices[k], project, subscriber, id, uuid) then devices[k].(status := Stale) else devices[k]
  }

  function MarkInvalid(devices: map<Key, Device>, id: Id): map<Key, Device> {
    map k | k in devices :: if devices[k].id == id then devices[k].(status := Invalid) else devices[k]
  }

  // ----- registration -----

  function UpsertSubscriber(db: Db, r: Request): Db {
    db.(subscribers := db.subscribers[SubscriberKey(r) := SubscriberFor(db.subscribers, r)])
  }

  function UpsertDevice(db: Db, r: Request, subscriber: Option<Id>): Db {
    db.(devices := db.devices[KeyOf(r) := UpsertedRow(db.devices, r, subscriber)])
  }

  /** registerDeviceSerialized, alone. */
  function RegisterSerialized(db: Db, r: Request): Db {
    var subscriber := SubscriberFor(db.subscribers, r);
    var row := UpsertedRow(db.devices, r, Some(subscriber));
    var db1 := UpsertDevice(UpsertSubscriber(db, r), r, Some(subscriber));
    db1.(devices := MarkStale(db1.devices, r.project, subscriber, row.id, Uuid(r)))
  }

  /** upsertDevice against the pool, alone. */
  function RegisterPlain(db: Db, r: Request): Db {
    if r.externalId != ""
    then UpsertDevice(UpsertSubscriber(db, r), r, Some(SubscriberFor(db.subscribers, r)))
    else UpsertDevice(db, r, None)
  }

  /** handleRegisterDevice's choice of path. */
  function Register(db: Db, r: Request): Db {
    if Serialized(r) then RegisterSerialized(db, r) else RegisterPlain(db, r)
  }

  // ----- what a registration stores -----

  /** Every field given is stored under its own name, and nothing else is. */
  lemma MetadataStores(info: Option<DeviceInfo>, ip: string)
    ensures var m := MetadataOf(info, ip);
      && ("brand" in m <==> info.Some? && info.value.brand != "")
      && ("brand" in m ==> m["brand"] == Text(info.value.brand))
      && ("os_version" in m <==> info.Some? && info.value.osVersion != "")
      && ("os_version" in m ==> m["os_version"] == Text(info.value.osVersion))
      && ("device_uuid" in m <==> info.Some? && info.value.deviceUuid != "")
      && ("device_uuid" in m ==> m["device_uuid"] == Text(info.value.deviceUuid))
      && ("language" in m <==> info.Some? && info.value.language != "")
      && ("language" in m ==> m["language"] == Text(info.value.language))
      && ("coords" in m <==> info.Some? && info.value.coords.Some?)
      && ("coords" in m ==> m["coords"] == Coordinates(info.value.coords.value.lat, info.value.coords.value.lon))
      && ("last_seen_ip" in m <==> ip != "")
      && ("last_seen_ip" in m ==> m["last_seen_ip"] == Text(ip))
      && m.Keys <= {"brand", "os_version", "device_uuid", "language", "coords", "last_seen_ip"}
  {
  }

  /** The user named is found by project and external id, and keeps the id it had. */
  lemma UserIsStored(db: Db, r: Request)
    ensures var db' := Register(db, r);
      && (r.externalId == "" ==> db'.subscribers == db.subscribers)
      && (r.externalId != "" && (r.project, r.externalId) in db.subscribers ==> db'.subscribers == db.subscribers)
      && (r.externalId != "" && (r.project, r.externalId) !in db.subscribers ==>
            db'.subscribers == db.subscribers[(r.project, r.externalId) := r.freshSubscriber])
  {
    if (r.project, r.externalId) in db.subscribers {
      assert db.subscribers[(r.project, r.externalId) := db.subscribers[(r.project, r.externalId)]] == db.subscribers;
    }
  }

  /** The row a serialized registration writes is not one it marks. */
  lemma OwnRowStays(db: Db, r: Request, subscriber: Id)
    ensures var row := UpsertedRow(db.devices, r, Some(subscriber));
      var marked := MarkStale(db.devices[KeyOf(r) := row], r.project, subscriber, row.id, Uuid(r));
      KeyOf(r) in marked && marked[KeyOf(r)] == row
  {
  }

  /**
   A known token's row keeps its id, and its user if none is named; a new one gets a fresh id. Either
   way the row is active, with the provider, platform and metadata the request gives.
   */
  lemma RowIsStored(db: Db, r: Request)
    ensures var db' := Register(db, r);
      var key := (r.project, r.token);
      && key in db'.devices
      && db'.devices[key].status == Active
      && db'.devices[key].provider == r.provider && db'.devices[key].platform == r.platform
      && db'.devices[key].metadata == MetadataOf(r.info, r.ip)
      && db'.devices[key].id == (if key in db.devices then db.devices[key].id else r.freshDevice)
      && (r.externalId != "" ==>
            (r.project, r.externalId) in db'.subscribers
            && db'.devices[key].subscriber == Some(db'.subscribers[(r.project, r.externalId)]))
      && (r.externalId == "" ==>
            db'.devices[key].subscriber == if key in db.devices then db.devices[key].subscriber else None)
  {
    OwnRowStays(db, r, SubscriberFor(db.subscribers, r));
  }

  /**
   Another row changes only if the registration names a user and a physical device, the row is an
   active one of both in the project, and has another id: then it goes stale.
   */
  lemma OtherRowsStay(db: Db, r: Request, k: Key)
    requires k != (r.project, r.token)
    ensures var db' := Register(db, r);
      && (k in db'.devices <==> k in db.devices)
      && (k in db.devices ==>
            var row := db.devices[k];
            var own := if (r.project, r.token) in db.devices then db.devices[(r.project, r.token)].id else r.freshDevice;
            var rotated :=
              && r.externalId != "" && r.info.Some? && r.info.value.deviceUuid != ""
              && k.0 == r.project && row.status == Active && row.id != own
              && row.subscriber == Some(db'.subscribers[(r.project, r.externalId)])
              && "device_uuid" in row.metadata && row.metadata["device_uuid"] == Text(r.info.value.deviceUuid);
            db'.devices[k] == if rotated then row.(status := Stale) else row)
  {
  }

  /** An invalidation changes the status of the row with that id, and nothing else. */
  lemma InvalidationMarks(devices: map<Key, Device>, id: Id, k: Key)
    ensures var after := MarkInvalid(devices, id);
      && (k in after <==> k in devices)
      && (k in devices && devices[k].id == id ==> after[k] == devices[k].(status := Invalid))
      && (k in devices && devices[k].id != id ==> after[k] == devices[k])
  {
  }

  /** Which statements reach the database. */
  datatype Faults = Faults(subscriberUp: bool, deviceUp: bool, staleUp: bool, commitUp: bool)

  class Server {
    var devices: map<Key, Device>
    var subscribers: map<(Id, string), Id>

    function State(): Db
      reads this
    {
      Db(devices, subscribers)
    }

    method ExecUpsertSubscriber(r: Request) returns (id: Id)
      modifies this
      ensures State() == UpsertSubscriber(old(State()), r) && id == SubscriberFor(old(subscribers), r)
    {
      id := if SubscriberKey(r) in subscribers then subscribers[SubscriberKey(r)] else r.freshSubscriber;
      subscribers := subscribers[SubscriberKey(r) := id];
    }

    method ExecUpsertDevice(r: Request, metadata: Metadata, subscriber: Option<Id>) returns (row: Device)
      requires metadata == MetadataOf(r.info, r.ip)
      modifies this
      ensures State() == UpsertDevice(old(State()), r, subscriber)
      ensures row == UpsertedRow(old(devices), r, subscriber)
    {
      if KeyOf(r) in devices {
        var was := devices[KeyOf(r)];
        row := was.(platform := r.platform, provider := r.provider, metadata := metadata, status := Active);
        if subscriber.Some? {
          row := row.(subscriber := subscriber);
        }
      } else {
        row := Device(r.freshDevice, subscriber, Active, r.platform, r.provider, metadata);
      }
      devices := devices[KeyOf(r) := row];
    }

    /** upsertDevice: two statements; None when one fails, with the first one's effect left behind. */
    method UpsertBoth(r: Request, metadata: Metadata, f: Faults) returns (row: Option<Device>)
      requires metadata == MetadataOf(r.info, r.ip)
      modifies this
      ensures row.Some? <==> (r.externalId == "" || f.subscriberUp) && f.deviceUp
      ensures State() == if row.Some? then RegisterPlain(old(State()), r)
                         else if r.externalId != "" && f.subscriberUp then UpsertSubscriber(old(State()), r)
                         else old(State())
      ensures row.Some? ==>
                row.value == UpsertedRow(old(devices), r,
                                         if r.externalId != "" then Some(SubscriberFor(old(subscribers), r)) else None)
    {
      var subscriber: Option<Id> := None;
      if r.externalId != "" {
        if !f.subscriberUp {
          return None;
        }
        var id := ExecUpsertSubscriber(r);
        subscriber := Some(id);
      }
      if !f.deviceUp {
        return None;
      }
      var device := ExecUpsertDevice(r, metadata, subscriber);
      return Some(device);
    }

    /** registerDeviceSerialized: a statement that fails rolls everything back. */
    method RegisterInTransaction(r: Request, metadata: Metadata, f: Faults) returns (row: Option<Device>)
      requires Serialized(r) && metadata == MetadataOf(r.info, r.ip)
      modifies this
      ensures row.Some? <==> f == Faults(true, true, true, true)
      ensures State() == if row.Some? then RegisterSerialized(old(State()), r) else old(State())
    {
      var devices0, subscribers0 := devices, subscribers;
      row := UpsertBoth(r, metadata, f);
      if row.Some? && f.staleUp {
        devices := MarkStale(devices, r.project, row.value.subscriber.value, row.value.id, r.info.value.deviceUuid);
      }
      if row.None? || !f.staleUp || !f.commitUp {
        devices, subscribers := devices0, subscribers0;
        row := None;
      }
    }

    method HandleRegisterDevice(r: Request, f: Faults) returns (ok: bool)
      modifies this
      ensures ok ==> State() == Register(old(State()), r)
      ensures ok ==>
                && (r.project, r.token) in devices
                && devices[(r.project, r.token)].status == Active
                && devices[(r.project, r.token)].provider == r.provider
                && devices[(r.project, r.token)].platform == r.platform
                && devices[(r.project, r.token)].metadata == MetadataOf(r.info, r.ip)
      ensures !ok ==> State() == old(State())
                      || (!Serialized(r) && r.externalId != "" && State() == UpsertSubscriber(old(State()), r))
      ensures f == Faults(true, true, true, true) ==> ok
    {
      var metadata := BuildDeviceMetadata(r.info, r.ip);
      var row;
      if r.externalId != "" && r.info.Some? && r.info.value.deviceUuid != "" {
        row := RegisterInTransaction(r, metadata, f);
      } else {
        row := UpsertBoth(r, metadata, f);
      }
      ok := row.Some?;
      RowIsStored(old(State()), r);
    }
  }
}
