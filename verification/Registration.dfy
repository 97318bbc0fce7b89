/**
 Overlapping registrations (internal/transport/http/devices.go:174-217): transactions that take
 an advisory lock, upsert the subscriber and the device, mark the superseded rows stale and
 commit, next to registrations outside any transaction and workers invalidating devices.

 Statements read committed rows plus the transaction's own writes, a written row stays locked
 until its transaction ends, and an UPDATE that finds a candidate row locked waits and then
 looks at the row again. A transaction may be rolled back at any point (a failed statement, a
 deadlock). A hash collision of two lock keys only makes more registrations wait, so locks are
 kept by the key itself.
 */
module Registration {
  import opened Prelude
  import opened DeviceTable

  datatype Pc =
    | Begun
    | Locked
    | Subscribed
    | Upserted
    | Staling(todo: set<Key>)
    | PlainBegun
    | PlainSubscribed

  /** `writes` are the transaction's uncommitted rows; `subscriber` is set from Subscribed on. */
  datatype Tx = Tx(req: Request, pc: Pc, subscriber: Id, writes: map<Key, Device>)

  /** What takes effect at one instant: a commit, or a statement outside any transaction. */
  datatype Action =
    | Registered(req: Request)
    | SubscriberSeen(req: Request)
    | DeviceSeen(req: Request, subscriber: Option<Id>)
    | Invalidated(id: Id)

  function Do(db: Db, a: Action): Db {
    match a
    case Registered(r) => RegisterSerialized(db, r)
    case SubscriberSeen(r) => UpsertSubscriber(db, r)
    case DeviceSeen(r, subscriber) => UpsertDevice(db, r, subscriber)
    case Invalidated(id) => db.(devices := MarkInvalid(db.devices, id))
  }

  function Replay(db: Db, log: seq<Action>): Db {
    if log == [] then db else Do(Replay(db, log[..|log| - 1]), log[|log| - 1])
  }

  /**
   `log` is the history of actions in the order they took effect, `used` every id handed out.
   `advisory` says whether the advisory lock is taken at all.
   */
  datatype State = State(db: Db, txs: map<Id, Tx>, log: seq<Action>, used: set<Id>, advisory: bool)

  datatype Step =
    | Begin(tx: Id, req: Request)
    | Lock(tx: Id)
    | Subscribe(tx: Id)
    | Upsert(tx: Id)
    | StartStale(tx: Id)
    | StaleRow(tx: Id, key: Key)
    | Commit(tx: Id)
    | Rollback(tx: Id)
    | Invalidate(id: Id)

  function Group(r: Request): (Id, string, string) {
    (r.project, r.externalId, Uuid(r))
  }

  predicate HoldsLock(t: Tx) {
    t.pc.Locked? || t.pc.Subscribed? || t.pc.Upserted? || t.pc.Staling?
  }

  predicate HoldsSubscriber(t: Tx) {
    t.pc.Subscribed? || t.pc.Upserted? || t.pc.Staling?
  }

  predicate FreeSubscriber(s: State, tx: Id, key: (Id, string)) {
    forall x :: x in s.txs && x != tx && HoldsSubscriber(s.txs[x]) ==> SubscriberKey(s.txs[x].req) != key
  }

  predicate FreeRow(s: State, tx: Id, key: Key) {
    forall x :: x in s.txs && x != tx ==> key !in s.txs[x].writes
  }

  predicate FreeGroup(s: State, tx: Id, group: (Id, string, string)) {
    forall x :: x in s.txs && x != tx && HoldsLock(s.txs[x]) ==> Group(s.txs[x].req) != group
  }

  /** The row is in this transaction's group and is not the row it registered. */
  predicate Rotated(t: Tx, k: Key, row: Device)
    requires KeyOf(t.req) in t.writes
  {
    Superseded(k, row, t.req.project, t.subscriber, t.writes[KeyOf(t.req)].id, Uuid(t.req))
  }

  predicate Enabled(s: State, step: Step) {
    match step
    case Begin(x, r) => x !in s.txs && r.freshDevice !in s.used && r.freshSubscriber !in s.used
    case Lock(x) =>
      x in s.txs && s.txs[x].pc.Begun? && (s.advisory ==> FreeGroup(s, x, Group(s.txs[x].req)))
    case Subscribe(x) =>
      && x in s.txs && FreeSubscriber(s, x, SubscriberKey(s.txs[x].req))
      && (s.txs[x].pc.Locked? || (s.txs[x].pc.PlainBegun? && s.txs[x].req.externalId != ""))
    case Upsert(x) =>
      && x in s.txs && FreeRow(s, x, KeyOf(s.txs[x].req))
      && (s.txs[x].pc.Subscribed? || s.txs[x].pc.PlainSubscribed?
          || (s.txs[x].pc.PlainBegun? && s.txs[x].req.externalId == ""))
    case StartStale(x) => x in s.txs && s.txs[x].pc.Upserted? && KeyOf(s.txs[x].req) in s.txs[x].writes
    case StaleRow(x, k) =>
      && x in s.txs && s.txs[x].pc.Staling? && KeyOf(s.txs[x].req) in s.txs[x].writes
      && k in s.txs[x].pc.todo && k in s.db.devices && FreeRow(s, x, k)
    case Commit(x) => x in s.txs && s.txs[x].pc == Staling({})
    case Rollback(x) => x in s.txs
    case Invalidate(id) =>
      forall x, k :: x in s.txs && k in s.txs[x].writes && k in s.db.devices ==> s.db.devices[k].id != id
  }

  function Put(s: State, x: Id, t: Tx): State {
    s.(txs := s.txs[x := t])
  }

  /** The committed tables once the transaction's writes are visible. */
  function Published(db: Db, t: Tx): Db {
    Db(db.devices + t.writes, db.subscribers[SubscriberKey(t.req) := t.subscriber])
  }

  /** An action takes effect. */
  function Commits(s: State, a: Action): State {
    s.(db := Do(s.db, a), log := s.log + [a])
  }

  function Apply(s: State, step: Step): State
    requires Enabled(s, step)
  {
    match step
    case Begin(x, r) =>
      Put(s, x, Tx(r, if Serialized(r) then Begun else PlainBegun, 0, map[]))
        .(used := s.used + {r.freshDevice, r.freshSubscriber})
    case Lock(x) => Put(s, x, s.txs[x].(pc := Locked))
    case Subscribe(x) =>
      var t := s.txs[x];
      var id := SubscriberFor(s.db.subscribers, t.req);
      if t.pc.Locked? then Put(s, x, t.(pc := Subscribed, subscriber := id))
      else Put(Commits(s, SubscriberSeen(t.req)), x, t.(pc := PlainSubscribed, subscriber := id))
    case Upsert(x) =>
      var t := s.txs[x];
      if t.pc.Subscribed?
      then Put(s, x, t.(pc := Upserted,
                        writes := map[KeyOf(t.req) := UpsertedRow(s.db.devices, t.req, Some(t.subscriber))]))
      else
        var s' := Commits(s, DeviceSeen(t.req, if t.pc.PlainSubscribed? then Some(t.subscriber) else None));
        s'.(txs := s'.txs - {x})
    case StartStale(x) =>
      var t := s.txs[x];
      Put(s, x, t.(pc := Staling(set k | k in s.db.devices && k !in t.writes && Rotated(t, k, s.db.devices[k]))))
    case StaleRow(x, k) =>
      var t := s.txs[x];
      var row := s.db.devices[k];
      Put(s, x, t.(pc := Staling(t.pc.todo - {k}),
                   writes := if Rotated(t, k, row) then t.writes[k := row.(status := Stale)] else t.writes))
    case Commit(x) =>
      var t := s.txs[x];
      s.(db := Published(s.db, t),
         txs := s.txs - {x}, log := s.log + [Registered(t.req)])
    case Rollback(x) => s.(txs := s.txs - {x})
    case Invalidate(id) => Commits(s, Invalidated(id))
  }

  /** A registration that names a physical device also names its user. */
  predicate Grouped(r: Request) {
    Uuid(r) != "" ==> r.externalId != ""
  }

  /** Every registration of the run that names a physical device also names its user. */
  predicate GroupedRun(steps: seq<Step>) {
    forall i :: 0 <= i < |steps| && steps[i].Begin? ==> Grouped(steps[i].req)
  }

  predicate Valid(s: State, steps: seq<Step>)
    decreases steps
  {
    steps == [] || (Enabled(s, steps[0]) && Valid(Apply(s, steps[0]), steps[1..]))
  }

  function Run(s: State, steps: seq<Step>): State
    requires Valid(s, steps)
    decreases steps
  {
    if steps == [] then s else Run(Apply(s, steps[0]), steps[1..])
  }

  /** Ids name one row each. */
  ghost predicate IdsUnique(db: Db) {
    && (forall k, l :: k in db.devices && l in db.devices && k != l ==> db.devices[k].id != db.devices[l].id)
    && (forall e, f :: e in db.subscribers && f in db.subscribers && e != f ==> db.subscribers[e] != db.subscribers[f])
  }

  function IdsOf(db: Db): set<Id> {
    (set k | k in db.devices :: db.devices[k].id) + (set e | e in db.subscribers :: db.subscribers[e])
  }

  function Start(db: Db, advisory: bool): State {
    State(db, map[], [], IdsOf(db), advisory)
  }
}
