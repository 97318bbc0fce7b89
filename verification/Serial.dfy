/**
 What open transactions may rely on in every run, and that in runs whose registrations all name
 their users the committed tables are a serial replay, in commit order.
 */
module Serial {
  import opened Prelude
  import opened DeviceTable
  import opened Registration

  // ----- ids -----

  predicate FreshDevice(db: Db, t: Tx) {
    forall k :: k in db.devices ==> db.devices[k].id != t.req.freshDevice
  }

  predicate FreshSubscriber(db: Db, t: Tx) {
    t.pc != PlainSubscribed ==> forall e :: e in db.subscribers ==> db.subscribers[e] != t.req.freshSubscriber
  }

  predicate FreshIn(db: Db, used: set<Id>, t: Tx) {
    && t.req.freshDevice in used && t.req.freshSubscriber in used
    && FreshDevice(db, t) && FreshSubscriber(db, t)
  }

  predicate IdsUsed(db: Db, used: set<Id>) {
    && (forall k :: k in db.devices ==> db.devices[k].id in used)
    && (forall e :: e in db.subscribers ==> db.subscribers[e] in used)
  }

  predicate OwnIds(a: Tx, b: Tx) {
    a.req.freshDevice != b.req.freshDevice && a.req.freshSubscriber != b.req.freshSubscriber
  }

  ghost predicate IdsOk(db: Db, txs: map<Id, Tx>, used: set<Id>) {
    && IdsUnique(db) && IdsUsed(db, used)
    && (forall x :: x in txs ==> FreshIn(db, used, txs[x]))
    && (forall x, y :: x in txs && y in txs && x != y ==> OwnIds(txs[x], txs[y]))
  }

  // ----- locks -----

  predicate Apart(a: Tx, b: Tx) {
    && a.writes.Keys !! b.writes.Keys
    && (HoldsSubscriber(a) && HoldsSubscriber(b) ==> SubscriberKey(a.req) != SubscriberKey(b.req))
  }

  ghost predicate Exclusive(txs: map<Id, Tx>) {
    forall x, y :: x in txs && y in txs && x != y ==> Apart(txs[x], txs[y])
  }

  // ----- one transaction, against the committed tables of this moment -----

  predicate InTransaction(t: Tx) {
    t.pc.Begun? || HoldsLock(t)
  }

  predicate SubscriberOk(db: Db, t: Tx) {
    && (HoldsSubscriber(t) ==> t.subscriber == SubscriberFor(db.subscribers, t.req))
    && (t.pc.PlainSubscribed? ==>
          SubscriberKey(t.req) in db.subscribers && t.subscriber == db.subscribers[SubscriberKey(t.req)])
  }

  predicate OwnRowOk(db: Db, t: Tx) {
    KeyOf(t.req) in t.writes && t.writes[KeyOf(t.req)] == UpsertedRow(db.devices, t.req, Some(t.subscriber))
  }

  /** What has been marked was to be marked. */
  predicate MarkedOk(db: Db, t: Tx)
    requires KeyOf(t.req) in t.writes
  {
    forall k :: k in t.writes && k != KeyOf(t.req) ==>
      k in db.devices && Rotated(t, k, db.devices[k]) && t.writes[k] == db.devices[k].(status := Stale)
  }

  predicate WritesOk(db: Db, t: Tx) {
    if t.pc.Upserted? || t.pc.Staling?
    then OwnRowOk(db, t) && MarkedOk(db, t)
         && (if t.pc.Upserted? then t.writes.Keys == {KeyOf(t.req)} else KeyOf(t.req) !in t.pc.todo)
    else t.writes == map[]
  }

  predicate TxOk(db: Db, t: Tx) {
    (InTransaction(t) <==> Serialized(t.req)) && SubscriberOk(db, t) && WritesOk(db, t)
  }

  ghost predicate TxsOk(db: Db, txs: map<Id, Tx>) {
    forall x :: x in txs ==> TxOk(db, txs[x])
  }

  /** Holds in every run. */
  ghost predicate Ok(s: State) {
    IdsOk(s.db, s.txs, s.used) && Exclusive(s.txs) && TxsOk(s.db, s.txs)
  }

  // ----- others' effects -----

  /** A change of the committed tables that leaves alone what transaction `t` has read. */
  ghost predicate Foreign(db: Db, db': Db, t: Tx) {
    && (forall k :: k in t.writes ==>
          (k in db.devices <==> k in db'.devices) && (k in db.devices ==> db'.devices[k] == db.devices[k]))
    && (HoldsSubscriber(t) ==>
          SubscriberFor(db'.subscribers, t.req) == SubscriberFor(db.subscribers, t.req))
    && (forall e :: e in db.subscribers ==> e in db'.subscribers && db'.subscribers[e] == db.subscribers[e])
  }

  lemma ForeignKeeps(db: Db, db': Db, t: Tx)
    requires TxOk(db, t) && Foreign(db, db', t)
    ensures TxOk(db', t)
  {
    if t.pc.Upserted? || t.pc.Staling? {
      assert KeyOf(t.req) in t.writes;
    }
  }

  /** A transaction's uncommitted rows are of its own project and subscriber. */
  lemma WritesAreOwn(db: Db, t: Tx, k: Key)
    requires TxOk(db, t) && k in t.writes
    ensures HoldsSubscriber(t) && k.0 == t.req.project && t.writes[k].subscriber == Some(t.subscriber)
  {
    assert KeyOf(t.req) in t.writes;
  }

  lemma CommitIsForeign(db: Db, t: Tx, u: Tx)
    requires TxOk(db, t) && TxOk(db, u) && t.pc == Staling({}) && Apart(t, u)
    ensures Foreign(db, Published(db, t), u)
  {
    var db' := Published(db, t);
    forall k | k in u.writes
      ensures (k in db.devices <==> k in db'.devices) && (k in db.devices ==> db'.devices[k] == db.devices[k])
    {
      assert k !in t.writes;
    }
  }

  lemma PlainUpsertIsForeign(db: Db, r: Request, subscriber: Option<Id>, u: Tx)
    requires KeyOf(r) !in u.writes
    ensures Foreign(db, UpsertDevice(db, r, subscriber), u)
  {
  }

  lemma PlainSubscribeIsForeign(db: Db, r: Request, u: Tx)
    requires HoldsSubscriber(u) ==> SubscriberKey(u.req) != SubscriberKey(r)
    ensures Foreign(db, UpsertSubscriber(db, r), u)
  {
  }

  lemma InvalidateIsForeign(db: Db, id: Id, u: Tx)
    requires forall k :: k in u.writes && k in db.devices ==> db.devices[k].id != id
    ensures Foreign(db, db.(devices := MarkInvalid(db.devices, id)), u)
  {
  }

  // ----- growth of the tables -----

  /** Rows and subscribers keep their ids, and a new one has an id of transaction `t`'s own. */
  ghost predicate GrowsBy(db: Db, db': Db, t: Tx) {
    && (forall k :: k in db.devices ==> k in db'.devices && db'.devices[k].id == db.devices[k].id)
    && (forall k :: k in db'.devices && k !in db.devices ==> k == KeyOf(t.req) && db'.devices[k].id == t.req.freshDevice)
    && (forall e :: e in db.subscribers ==> e in db'.subscribers && db'.subscribers[e] == db.subscribers[e])
    && (forall e :: e in db'.subscribers && e !in db.subscribers ==>
          t.pc != PlainSubscribed && e == SubscriberKey(t.req) && db'.subscribers[e] == t.req.freshSubscriber)
  }

  lemma GrownUnique(db: Db, db': Db, used: set<Id>, t: Tx)
    requires IdsUnique(db) && IdsUsed(db, used) && FreshIn(db, used, t) && GrowsBy(db, db', t)
    ensures IdsUnique(db') && IdsUsed(db', used)
  {
  }

  lemma StillFresh(db: Db, db': Db, used: set<Id>, t: Tx, u: Tx)
    requires FreshIn(db, used, u) && GrowsBy(db, db', t) && OwnIds(t, u)
    ensures FreshIn(db', used, u)
  {
  }

  lemma PublishedGrows(db: Db, t: Tx)
    requires TxOk(db, t) && t.pc == Staling({})
    ensures GrowsBy(db, Published(db, t), t)
  {
    assert KeyOf(t.req) in t.writes;
  }

  lemma PlainUpsertGrows(db: Db, t: Tx, subscriber: Option<Id>)
    ensures GrowsBy(db, UpsertDevice(db, t.req, subscriber), t)
  {
  }

  lemma SubscribeGrows(db: Db, t: Tx)
    requires t.pc != PlainSubscribed
    ensures GrowsBy(db, UpsertSubscriber(db, t.req), t)
  {
  }

  // ----- preservation, component by component -----

  /** Transaction `x` is over, and leaves the tables `db'`. */
  lemma LeaveOk(s: State, x: Id, db': Db)
    requires Ok(s) && x in s.txs && GrowsBy(s.db, db', s.txs[x])
    requires forall y :: y in s.txs && y != x ==> Foreign(s.db, db', s.txs[y])
    ensures IdsOk(db', s.txs - {x}, s.used) && Exclusive(s.txs - {x}) && TxsOk(db', s.txs - {x})
  {
    GrownUnique(s.db, db', s.used, s.txs[x]);
    var rest := s.txs - {x};
    forall y | y in rest ensures FreshIn(db', s.used, rest[y]) && TxOk(db', rest[y]) {
      StillFresh(s.db, db', s.used, s.txs[x], s.txs[y]);
      ForeignKeeps(s.db, db', s.txs[y]);
    }
  }

  lemma MoveIds(db: Db, txs: map<Id, Tx>, used: set<Id>, x: Id, t: Tx)
    requires IdsOk(db, txs, used) && x in txs && t.req == txs[x].req
    requires txs[x].pc == PlainSubscribed ==> t.pc == PlainSubscribed
    ensures IdsOk(db, txs[x := t], used)
  {
    assert FreshIn(db, used, txs[x]);
    var moved := txs[x := t];
    forall y | y in moved ensures FreshIn(db, used, moved[y]) {
      assert y != x ==> FreshIn(db, used, txs[y]);
    }
    forall y, z | y in moved && z in moved && y != z ensures OwnIds(moved[y], moved[z]) {
      assert OwnIds(txs[y], txs[z]);
    }
  }

  lemma MoveExclusive(txs: map<Id, Tx>, x: Id, t: Tx)
    requires Exclusive(txs) && x in txs && forall y :: y in txs && y != x ==> Apart(t, txs[y])
    ensures Exclusive(txs[x := t])
  {
  }

  /** One transaction moves on; the committed tables stay. */
  lemma PutOk(s: State, x: Id, t: Tx)
    requires Ok(s) && x in s.txs && t.req == s.txs[x].req && TxOk(s.db, t)
    requires s.txs[x].pc != PlainSubscribed
    requires forall y :: y in s.txs && y != x ==> Apart(t, s.txs[y])
    ensures Ok(Put(s, x, t))
  {
    MoveIds(s.db, s.txs, s.used, x, t);
    MoveExclusive(s.txs, x, t);
  }

  lemma BeginOk(s: State, x: Id, r: Request)
    requires Ok(s) && Enabled(s, Begin(x, r))
    ensures Ok(Apply(s, Begin(x, r)))
  {
    var s' := Apply(s, Begin(x, r));
    forall y | y in s'.txs ensures FreshIn(s'.db, s'.used, s'.txs[y]) {
      assert y != x ==> FreshIn(s.db, s.used, s.txs[y]);
    }
    forall y, z | y in s'.txs && z in s'.txs && y != z ensures OwnIds(s'.txs[y], s'.txs[z]) {
      if y == x { assert FreshIn(s.db, s.used, s.txs[z]); }
      if z == x { assert FreshIn(s.db, s.used, s.txs[y]); }
    }
    BeginExclusive(s.txs, x, s'.txs[x]);
  }

  lemma BeginExclusive(txs: map<Id, Tx>, x: Id, t: Tx)
    requires Exclusive(txs) && x !in txs && t.writes == map[] && !HoldsSubscriber(t)
    ensures Exclusive(txs[x := t])
  {
  }

  /** Taking nothing new keeps a transaction apart from the others. */
  lemma StillApart(s: State, x: Id, t: Tx)
    requires Ok(s) && x in s.txs && t.req == s.txs[x].req && t.writes == s.txs[x].writes
    requires HoldsSubscriber(t) ==> HoldsSubscriber(s.txs[x])
    ensures forall y :: y in s.txs && y != x ==> Apart(t, s.txs[y])
  {
    forall y | y in s.txs && y != x ensures Apart(t, s.txs[y]) { assert Apart(s.txs[x], s.txs[y]); }
  }

  lemma LockOk(s: State, x: Id)
    requires Ok(s) && x in s.txs && s.txs[x].pc.Begun?
    ensures Ok(Put(s, x, s.txs[x].(pc := Locked)))
  {
    StillApart(s, x, s.txs[x].(pc := Locked));
    PutOk(s, x, s.txs[x].(pc := Locked));
  }

  lemma SubscribeOk(s: State, x: Id)
    requires Ok(s) && x in s.txs && s.txs[x].pc.Locked? && FreeSubscriber(s, x, SubscriberKey(s.txs[x].req))
    ensures Ok(Put(s, x, s.txs[x].(pc := Subscribed, subscriber := SubscriberFor(s.db.subscribers, s.txs[x].req))))
  {
    var t := s.txs[x].(pc := Subscribed, subscriber := SubscriberFor(s.db.subscribers, s.txs[x].req));
    forall y | y in s.txs && y != x ensures Apart(t, s.txs[y]) { assert Apart(s.txs[x], s.txs[y]); }
    PutOk(s, x, t);
  }

  function WithOwnRow(db: Db, t: Tx): Tx {
    t.(pc := Upserted, writes := map[KeyOf(t.req) := UpsertedRow(db.devices, t.req, Some(t.subscriber))])
  }

  lemma UpsertOk(s: State, x: Id)
    requires Ok(s) && x in s.txs && s.txs[x].pc.Subscribed? && FreeRow(s, x, KeyOf(s.txs[x].req))
    ensures Ok(Put(s, x, WithOwnRow(s.db, s.txs[x])))
  {
    var t := WithOwnRow(s.db, s.txs[x]);
    forall y | y in s.txs && y != x ensures Apart(t, s.txs[y]) { assert Apart(s.txs[x], s.txs[y]); }
    PutOk(s, x, t);
  }

  function WithTodo(db: Db, t: Tx): Tx
    requires KeyOf(t.req) in t.writes
  {
    t.(pc := Staling(set k | k in db.devices && k !in t.writes && Rotated(t, k, db.devices[k])))
  }

  lemma StartStaleOk(s: State, x: Id)
    requires Ok(s) && x in s.txs && s.txs[x].pc.Upserted? && KeyOf(s.txs[x].req) in s.txs[x].writes
    ensures Ok(Put(s, x, WithTodo(s.db, s.txs[x])))
  {
    StillApart(s, x, WithTodo(s.db, s.txs[x]));
    PutOk(s, x, WithTodo(s.db, s.txs[x]));
  }

  function WithRow(db: Db, t: Tx, k: Key): Tx
    requires t.pc.Staling? && KeyOf(t.req) in t.writes && k in db.devices
  {
    t.(pc := Staling(t.pc.todo - {k}),
       writes := if Rotated(t, k, db.devices[k]) then t.writes[k := db.devices[k].(status := Stale)] else t.writes)
  }

  lemma WithRowOk(db: Db, t: Tx, k: Key)
    requires TxOk(db, t) && t.pc.Staling? && KeyOf(t.req) in t.writes && k in db.devices && k in t.pc.todo
    ensures TxOk(db, WithRow(db, t, k))
  {
    var t' := WithRow(db, t, k);
    assert t'.writes[KeyOf(t.req)] == t.writes[KeyOf(t.req)];
  }

  lemma StaleRowOk(s: State, x: Id, k: Key)
    requires Ok(s) && Enabled(s, StaleRow(x, k))
    ensures Ok(Put(s, x, WithRow(s.db, s.txs[x], k)))
  {
    var t := WithRow(s.db, s.txs[x], k);
    WithRowOk(s.db, s.txs[x], k);
    forall y | y in s.txs && y != x ensures Apart(t, s.txs[y]) { assert Apart(s.txs[x], s.txs[y]); }
    PutOk(s, x, t);
  }

  // ----- steps that change the committed tables -----

  lemma CommitOk(s: State, x: Id)
    requires Ok(s) && x in s.txs && s.txs[x].pc == Staling({})
    ensures Ok(s.(db := Published(s.db, s.txs[x]), txs := s.txs - {x}))
  {
    PublishedGrows(s.db, s.txs[x]);
    forall y | y in s.txs && y != x ensures Foreign(s.db, Published(s.db, s.txs[x]), s.txs[y]) {
      assert Apart(s.txs[x], s.txs[y]);
      CommitIsForeign(s.db, s.txs[x], s.txs[y]);
    }
    LeaveOk(s, x, Published(s.db, s.txs[x]));
  }

  lemma RollbackOk(s: State, x: Id)
    requires Ok(s) && x in s.txs
    ensures Ok(s.(txs := s.txs - {x}))
  {
  }

  lemma PlainUpsertOk(s: State, x: Id, subscriber: Option<Id>)
    requires Ok(s) && x in s.txs && FreeRow(s, x, KeyOf(s.txs[x].req))
    ensures Ok(s.(db := UpsertDevice(s.db, s.txs[x].req, subscriber), txs := s.txs - {x}))
  {
    var db' := UpsertDevice(s.db, s.txs[x].req, subscriber);
    PlainUpsertGrows(s.db, s.txs[x], subscriber);
    forall y | y in s.txs && y != x ensures Foreign(s.db, db', s.txs[y]) {
      PlainUpsertIsForeign(s.db, s.txs[x].req, subscriber, s.txs[y]);
    }
    LeaveOk(s, x, db');
  }

  function Joined(db: Db, t: Tx): Tx {
    t.(pc := PlainSubscribed, subscriber := SubscriberFor(db.subscribers, t.req))
  }

  lemma PlainSubscribeIds(s: State, x: Id)
    requires Ok(s) && x in s.txs && s.txs[x].pc.PlainBegun?
    ensures IdsOk(UpsertSubscriber(s.db, s.txs[x].req), s.txs[x := Joined(s.db, s.txs[x])], s.used)
  {
    var t, db' := s.txs[x], UpsertSubscriber(s.db, s.txs[x].req);
    var txs := s.txs[x := Joined(s.db, t)];
    SubscribeGrows(s.db, t);
    GrownUnique(s.db, db', s.used, t);
    forall y | y in txs ensures FreshIn(db', s.used, txs[y]) {
      if y != x { StillFresh(s.db, db', s.used, t, s.txs[y]); } else { assert FreshIn(s.db, s.used, t); }
    }
    forall y, z | y in txs && z in txs && y != z ensures OwnIds(txs[y], txs[z]) {
      assert OwnIds(s.txs[y], s.txs[z]);
    }
  }

  lemma PlainSubscribeOk(s: State, x: Id)
    requires Ok(s) && x in s.txs && s.txs[x].pc.PlainBegun? && FreeSubscriber(s, x, SubscriberKey(s.txs[x].req))
    ensures Ok(Put(s.(db := UpsertSubscriber(s.db, s.txs[x].req)), x, Joined(s.db, s.txs[x])))
  {
    var db' := UpsertSubscriber(s.db, s.txs[x].req);
    var txs := s.txs[x := Joined(s.db, s.txs[x])];
    PlainSubscribeIds(s, x);
    StillApart(s, x, Joined(s.db, s.txs[x]));
    MoveExclusive(s.txs, x, Joined(s.db, s.txs[x]));
    forall y | y in txs ensures TxOk(db', txs[y]) {
      if y != x {
        PlainSubscribeIsForeign(s.db, s.txs[x].req, s.txs[y]);
        ForeignKeeps(s.db, db', s.txs[y]);
      } else {
        assert TxOk(s.db, s.txs[x]);
      }
    }
  }

  lemma InvalidateOk(s: State, id: Id)
    requires Ok(s) && Enabled(s, Invalidate(id))
    ensures Ok(s.(db := s.db.(devices := MarkInvalid(s.db.devices, id))))
  {
    var db' := s.db.(devices := MarkInvalid(s.db.devices, id));
    forall y | y in s.txs ensures TxOk(db', s.txs[y]) && FreshIn(db', s.used, s.txs[y]) {
      InvalidateIsForeign(s.db, id, s.txs[y]);
      ForeignKeeps(s.db, db', s.txs[y]);
      assert FreshIn(s.db, s.used, s.txs[y]);
    }
  }

  // ----- every step of every run -----

  lemma LogIsIrrelevant(s: State, log: seq<Action>)
    requires Ok(s)
    ensures Ok(s.(log := log))
  {
  }

  function PlainSubscriber(t: Tx): Option<Id> {
    if t.pc.PlainSubscribed? then Some(t.subscriber) else None
  }

  lemma SubscribeStepOk(s: State, x: Id)
    requires Ok(s) && Enabled(s, Subscribe(x))
    ensures Ok(Apply(s, Subscribe(x)))
  {
    if s.txs[x].pc.Locked? {
      SubscribeOk(s, x);
    } else {
      PlainSubscribeOk(s, x);
      LogIsIrrelevant(Put(s.(db := UpsertSubscriber(s.db, s.txs[x].req)), x, Joined(s.db, s.txs[x])),
                      s.log + [SubscriberSeen(s.txs[x].req)]);
    }
  }

  lemma UpsertStepOk(s: State, x: Id)
    requires Ok(s) && Enabled(s, Upsert(x))
    ensures Ok(Apply(s, Upsert(x)))
  {
    var t := s.txs[x];
    if t.pc.Subscribed? {
      UpsertOk(s, x);
    } else {
      PlainUpsertOk(s, x, PlainSubscriber(t));
      LogIsIrrelevant(s.(db := UpsertDevice(s.db, t.req, PlainSubscriber(t)), txs := s.txs - {x}),
                      s.log + [DeviceSeen(t.req, PlainSubscriber(t))]);
    }
  }

  lemma StepOk(s: State, step: Step)
    requires Ok(s) && Enabled(s, step)
    ensures Ok(Apply(s, step))
  {
    match step
    case Begin(x, r) => BeginOk(s, x, r);
    case Lock(x) => LockOk(s, x);
    case Subscribe(x) => SubscribeStepOk(s, x);
    case Upsert(x) => UpsertStepOk(s, x);
    case StartStale(x) => StartStaleOk(s, x);
    case StaleRow(x, k) => StaleRowOk(s, x, k);
    case Commit(x) =>
      CommitOk(s, x);
      LogIsIrrelevant(s.(db := Published(s.db, s.txs[x]), txs := s.txs - {x}), s.log + [Registered(s.txs[x].req)]);
    case Rollback(x) => RollbackOk(s, x);
    case Invalidate(id) =>
      InvalidateOk(s, id);
      LogIsIrrelevant(s.(db := s.db.(devices := MarkInvalid(s.db.devices, id))), s.log + [Invalidated(id)]);
  }

  lemma StartOk(db: Db, advisory: bool)
    requires IdsUnique(db)
    ensures Ok(Start(db, advisory))
  {
  }

  lemma {:induction false} RunOk(s: State, steps: seq<Step>)
    requires Ok(s) && Valid(s, steps)
    ensures Ok(Run(s, steps))
    decreases |steps|
  {
    if steps != [] {
      StepOk(s, steps[0]);
      RunOk(Apply(s, steps[0]), steps[1..]);
    }
  }

  // ----- the advisory lock -----

  /** Two transactions past the lock are not about the same project, user and physical device. */
  ghost predicate LockExclusive(txs: map<Id, Tx>) {
    forall x, y :: x in txs && y in txs && x != y && HoldsLock(txs[x]) && HoldsLock(txs[y]) ==>
      Group(txs[x].req) != Group(txs[y].req)
  }

  lemma StepLockExclusive(s: State, step: Step)
    requires s.advisory && LockExclusive(s.txs) && Enabled(s, step)
    ensures Apply(s, step).advisory && LockExclusive(Apply(s, step).txs)
  {
  }

  lemma {:induction false} RunLockExclusive(s: State, steps: seq<Step>)
    requires s.advisory && LockExclusive(s.txs) && Valid(s, steps)
    ensures LockExclusive(Run(s, steps).txs)
    decreases |steps|
  {
    if steps != [] {
      StepLockExclusive(s, steps[0]);
      RunLockExclusive(Apply(s, steps[0]), steps[1..]);
    }
  }

  /**
   Where the advisory lock is taken, at most one registration of a project, user and physical device
   is past it at a time.
   */
  lemma LockAdmitsOne(db: Db, steps: seq<Step>, x: Id, y: Id)
    requires Valid(Start(db, true), steps)
    requires var txs := Run(Start(db, true), steps).txs;
      && x in txs && y in txs && !txs[x].pc.Begun? && !txs[y].pc.Begun?
      && !txs[x].pc.PlainBegun? && !txs[x].pc.PlainSubscribed? && !txs[y].pc.PlainBegun? && !txs[y].pc.PlainSubscribed?
      && txs[x].req.project == txs[y].req.project && txs[x].req.externalId == txs[y].req.externalId
      && txs[x].req.info.Some? && txs[y].req.info.Some?
      && txs[x].req.info.value.deviceUuid == txs[y].req.info.value.deviceUuid
    ensures x == y
  {
    RunLockExclusive(Start(db, true), steps);
    assert Group(Run(Start(db, true), steps).txs[x].req) == Group(Run(Start(db, true), steps).txs[y].req);
  }

  // ----- runs whose registrations name their users -----

  /** Whatever is to be marked is marked or on the list. */
  predicate Complete(db: Db, t: Tx) {
    t.pc.Staling? && KeyOf(t.req) in t.writes ==>
      forall k :: k in db.devices && k != KeyOf(t.req) && Rotated(t, k, db.devices[k]) ==> k in t.pc.todo || k in t.writes
  }

  /** No row has become one that transaction `t` would have had to mark. */
  predicate Unseen(db: Db, db': Db, t: Tx) {
    t.pc.Staling? && KeyOf(t.req) in t.writes ==>
      forall k :: k in db'.devices && k !in t.writes && Rotated(t, k, db'.devices[k]) ==>
        k in db.devices && Rotated(t, k, db.devices[k])
  }

  ghost predicate Whole(s: State) {
    forall x :: x in s.txs ==> Grouped(s.txs[x].req) && Complete(s.db, s.txs[x])
  }

  lemma UuidWritten(r: Request)
    ensures UuidOf(MetadataOf(r.info, r.ip)) == if Uuid(r) != "" then Some(Uuid(r)) else None
  {
    MetadataKeepsUuid(r.info, r.ip);
  }

  /** Two transactions holding different subscriber rows have different subscriber ids. */
  lemma DifferentSubscribers(s: State, x: Id, y: Id)
    requires Ok(s) && x in s.txs && y in s.txs && x != y
    requires HoldsSubscriber(s.txs[x]) && HoldsSubscriber(s.txs[y])
    ensures s.txs[x].subscriber != s.txs[y].subscriber
  {
    var t, u := s.txs[x], s.txs[y];
    assert Apart(t, u) && TxOk(s.db, t) && TxOk(s.db, u);
    assert FreshIn(s.db, s.used, t) && FreshIn(s.db, s.used, u) && OwnIds(t, u);
  }

  lemma CommitUnseen(s: State, x: Id, y: Id)
    requires Ok(s) && x in s.txs && y in s.txs && x != y && s.txs[x].pc == Staling({})
    ensures Unseen(s.db, Published(s.db, s.txs[x]), s.txs[y])
  {
    var t, u := s.txs[x], s.txs[y];
    var db' := Published(s.db, t);
    if u.pc.Staling? && KeyOf(u.req) in u.writes {
      DifferentSubscribers(s, x, y);
      forall k | k in db'.devices && k !in u.writes && Rotated(u, k, db'.devices[k])
        ensures k in s.db.devices && Rotated(u, k, s.db.devices[k])
      {
        if k in t.writes { WritesAreOwn(s.db, t, k); }
      }
    }
  }

  lemma PlainUpsertUnseen(db: Db, r: Request, subscriber: Option<Id>, u: Tx)
    requires Uuid(r) == "" && Serialized(u.req)
    ensures Unseen(db, UpsertDevice(db, r, subscriber), u)
  {
    UuidWritten(r);
  }

  lemma InvalidateUnseen(db: Db, id: Id, u: Tx)
    ensures Unseen(db, db.(devices := MarkInvalid(db.devices, id)), u)
  {
  }

  lemma UnseenKeeps(db: Db, db': Db, t: Tx)
    requires Complete(db, t) && Unseen(db, db', t)
    ensures Complete(db', t)
  {
  }

  /** The committed tables after a step. */
  function NextTables(s: State, step: Step): Db
    requires Enabled(s, step)
  {
    match step
    case Commit(x) => Published(s.db, s.txs[x])
    case Upsert(x) =>
      if s.txs[x].pc.Subscribed? then s.db else UpsertDevice(s.db, s.txs[x].req, PlainSubscriber(s.txs[x]))
    case Subscribe(x) => if s.txs[x].pc.Locked? then s.db else UpsertSubscriber(s.db, s.txs[x].req)
    case Invalidate(id) => s.db.(devices := MarkInvalid(s.db.devices, id))
    case _ => s.db
  }

  lemma NextTablesAre(s: State, step: Step)
    requires Enabled(s, step)
    ensures Apply(s, step).db == NextTables(s, step)
  {
  }

  lemma PlainUpsertStepUnseen(s: State, x: Id, y: Id)
    requires Ok(s) && Whole(s) && x in s.txs && y in s.txs && !InTransaction(s.txs[x])
    ensures Unseen(s.db, UpsertDevice(s.db, s.txs[x].req, PlainSubscriber(s.txs[x])), s.txs[y])
  {
    assert TxOk(s.db, s.txs[x]) && TxOk(s.db, s.txs[y]);
    if s.txs[y].pc.Staling? {
      PlainUpsertUnseen(s.db, s.txs[x].req, PlainSubscriber(s.txs[x]), s.txs[y]);
    }
  }

  lemma StepUnseen(s: State, step: Step, y: Id)
    requires Ok(s) && Whole(s) && Enabled(s, step) && y in s.txs
    requires step.Commit? ==> step.tx != y
    ensures Unseen(s.db, NextTables(s, step), s.txs[y])
  {
    match step
    case Commit(x) => CommitUnseen(s, x, y);
    case Upsert(x) => if !s.txs[x].pc.Subscribed? { PlainUpsertStepUnseen(s, x, y); }
    case Invalidate(id) => InvalidateUnseen(s.db, id, s.txs[y]);
    case _ =>
  }

  /** What the step does to the transaction it belongs to. */
  lemma OwnComplete(s: State, step: Step, x: Id)
    requires Ok(s) && Whole(s) && Enabled(s, step) && !step.Begin? && !step.Invalidate? && step.tx == x
    requires x in Apply(s, step).txs
    ensures Complete(Apply(s, step).db, Apply(s, step).txs[x])
  {
    assert TxOk(s.db, s.txs[x]) && Complete(s.db, s.txs[x]);
  }

  lemma StepWhole(s: State, step: Step)
    requires Ok(s) && Whole(s) && Enabled(s, step) && (step.Begin? ==> Grouped(step.req))
    ensures Whole(Apply(s, step))
  {
    var s' := Apply(s, step);
    forall y | y in s'.txs ensures Grouped(s'.txs[y].req) && Complete(s'.db, s'.txs[y]) {
      if !step.Invalidate? && step.tx == y {
        if !step.Begin? { OwnComplete(s, step, y); }
      } else {
        assert s'.txs[y] == s.txs[y] && Complete(s.db, s.txs[y]);
        NextTablesAre(s, step);
        StepUnseen(s, step, y);
        UnseenKeeps(s.db, s'.db, s.txs[y]);
      }
    }
  }

  // ----- serial equivalence -----

  /** A transaction that is ready to commit holds exactly the writes of a registration run alone. */
  lemma CommitIsRegistration(s: State, x: Id)
    requires Ok(s) && Whole(s) && x in s.txs && s.txs[x].pc == Staling({})
    ensures Published(s.db, s.txs[x]) == RegisterSerialized(s.db, s.txs[x].req)
  {
    assert TxOk(s.db, s.txs[x]) && Complete(s.db, s.txs[x]);
    assert FreshIn(s.db, s.used, s.txs[x]);
    WritesAreAll(s.db, s.txs[x]);
  }

  lemma WritesAreAll(db: Db, t: Tx)
    requires TxOk(db, t) && Complete(db, t) && t.pc == Staling({})
    ensures Published(db, t) == RegisterSerialized(db, t.req)
  {
    var row := UpsertedRow(db.devices, t.req, Some(t.subscriber));
    var upserted := db.devices[KeyOf(t.req) := row];
    var marked := MarkStale(upserted, t.req.project, t.subscriber, row.id, Uuid(t.req));
    var mine := db.devices + t.writes;
    assert mine.Keys == marked.Keys;
    forall k | k in mine ensures mine[k] == marked[k] {
      RowIsMarked(db, t, k);
    }
    assert mine == marked;
  }

  lemma RowIsMarked(db: Db, t: Tx, k: Key)
    requires TxOk(db, t) && Complete(db, t) && t.pc == Staling({}) && (k in db.devices || k in t.writes)
    ensures var row := UpsertedRow(db.devices, t.req, Some(t.subscriber));
            var upserted := db.devices[KeyOf(t.req) := row];
            k in upserted
            && (db.devices + t.writes)[k]
               == if Superseded(k, upserted[k], t.req.project, t.subscriber, row.id, Uuid(t.req))
                  then upserted[k].(status := Stale) else upserted[k]
  {
    assert KeyOf(t.req) in t.writes;
  }

  lemma StepReplays(s: State, step: Step, db0: Db)
    requires Ok(s) && Whole(s) && Enabled(s, step) && s.db == Replay(db0, s.log)
    ensures Apply(s, step).db == Replay(db0, Apply(s, step).log)
  {
    var s' := Apply(s, step);
    if step.Commit? { CommitIsRegistration(s, step.tx); }
    if s'.log != s.log {
      assert s'.log[..|s'.log| - 1] == s.log;
    }
  }

  lemma {:induction false} RunReplays(s: State, steps: seq<Step>, db0: Db)
    requires Ok(s) && Whole(s) && Valid(s, steps) && GroupedRun(steps) && s.db == Replay(db0, s.log)
    ensures Ok(Run(s, steps)) && Whole(Run(s, steps)) && Run(s, steps).db == Replay(db0, Run(s, steps).log)
    decreases |steps|
  {
    if steps != [] {
      StepOk(s, steps[0]);
      StepWhole(s, steps[0]);
      StepReplays(s, steps[0], db0);
      RunReplays(Apply(s, steps[0]), steps[1..], db0);
    }
  }

  /**
   However registrations, rollbacks and invalidations overlap, if the registrations that name a
   device name its user too, the committed tables are those of the committed actions run one at
   a time in the order they took effect.
   */
  lemma SerialEquivalence(db: Db, advisory: bool, steps: seq<Step>)
    requires IdsUnique(db) && Valid(Start(db, advisory), steps) && GroupedRun(steps)
    ensures Run(Start(db, advisory), steps).db == Replay(db, Run(Start(db, advisory), steps).log)
  {
    StartOk(db, advisory);
    RunReplays(Start(db, advisory), steps, db);
  }
}
