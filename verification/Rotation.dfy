/** What overlapping registrations guarantee about physical devices, users and projects. */
module Rotation {
  import opened Prelude
  import opened DeviceTable
  import opened Registration
  import opened Serial

  predicate InGroup(k: Key, row: Device, project: Id, subscriber: Id, uuid: string) {
    k.0 == project && row.subscriber == Some(subscriber) && UuidOf(row.metadata) == Some(uuid)
  }

  /** The active rows of one physical device of one user. */
  function ActiveRows(db: Db, project: Id, subscriber: Id, uuid: string): set<Key> {
    set k | k in db.devices && db.devices[k].status == Active && InGroup(k, db.devices[k], project, subscriber, uuid)
  }

  ghost predicate OneActive(db: Db) {
    forall k, l ::
      && k in db.devices && l in db.devices
      && db.devices[k].status == Active && db.devices[l].status == Active
      && k.0 == l.0
      && db.devices[k].subscriber.Some? && db.devices[k].subscriber == db.devices[l].subscriber
      && UuidOf(db.devices[k].metadata).Some?
      && UuidOf(db.devices[k].metadata) == UuidOf(db.devices[l].metadata)
      ==> k == l
  }

  // ----- single actions -----

  /** After a committed registration, its row is the only active one of its group. */
  lemma RegisteredIsSoleActive(db: Db, r: Request)
    requires IdsUnique(db) && Serialized(r)
    requires forall k :: k in db.devices ==> db.devices[k].id != r.freshDevice
    ensures ActiveRows(RegisterSerialized(db, r), r.project, SubscriberFor(db.subscribers, r), Uuid(r)) == {KeyOf(r)}
  {
    UuidWritten(r);
  }

  lemma RegisteredKeepsOneActive(db: Db, r: Request)
    requires IdsUnique(db) && OneActive(db) && Serialized(r)
    requires forall k :: k in db.devices ==> db.devices[k].id != r.freshDevice
    ensures OneActive(RegisterSerialized(db, r))
  {
    UuidWritten(r);
    RegisteredIsSoleActive(db, r);
    var db', subscriber := RegisterSerialized(db, r), SubscriberFor(db.subscribers, r);
    forall k, l |
      && k in db'.devices && l in db'.devices
      && db'.devices[k].status == Active && db'.devices[l].status == Active && k.0 == l.0
      && db'.devices[k].subscriber.Some? && db'.devices[k].subscriber == db'.devices[l].subscriber
      && UuidOf(db'.devices[k].metadata).Some?
      && UuidOf(db'.devices[k].metadata) == UuidOf(db'.devices[l].metadata)
      ensures k == l
    {
      if k == KeyOf(r) || l == KeyOf(r) {
        assert k in ActiveRows(db', r.project, subscriber, Uuid(r));
        assert l in ActiveRows(db', r.project, subscriber, Uuid(r));
      } else {
        assert db'.devices[k] == db.devices[k] && db'.devices[l] == db.devices[l];
      }
    }
  }

  lemma PlainKeepsOneActive(db: Db, r: Request, subscriber: Option<Id>)
    requires OneActive(db) && Uuid(r) == ""
    ensures OneActive(UpsertDevice(db, r, subscriber))
  {
    UuidWritten(r);
  }

  lemma InvalidKeepsOneActive(db: Db, id: Id)
    requires OneActive(db)
    ensures OneActive(db.(devices := MarkInvalid(db.devices, id)))
  {
    var after := MarkInvalid(db.devices, id);
    assert forall k :: k in after && after[k].status == Active ==> after[k] == db.devices[k];
  }

  // ----- every run -----

  ghost predicate Sound(s: State) {
    Ok(s) && Whole(s) && OneActive(s.db)
  }

  lemma CommitOneActive(s: State, x: Id)
    requires Sound(s) && x in s.txs && s.txs[x].pc == Staling({})
    ensures OneActive(Published(s.db, s.txs[x]))
  {
    assert TxOk(s.db, s.txs[x]) && FreshIn(s.db, s.used, s.txs[x]);
    CommitIsRegistration(s, x);
    RegisteredKeepsOneActive(s.db, s.txs[x].req);
  }

  lemma PlainUpsertOneActive(s: State, x: Id)
    requires Sound(s) && Enabled(s, Upsert(x)) && !s.txs[x].pc.Subscribed?
    ensures OneActive(UpsertDevice(s.db, s.txs[x].req, PlainSubscriber(s.txs[x])))
  {
    assert TxOk(s.db, s.txs[x]) && Grouped(s.txs[x].req);
    PlainKeepsOneActive(s.db, s.txs[x].req, PlainSubscriber(s.txs[x]));
  }

  lemma StepOneActive(s: State, step: Step)
    requires Sound(s) && Enabled(s, step)
    ensures OneActive(NextTables(s, step))
  {
    match step
    case Commit(x) => CommitOneActive(s, x);
    case Upsert(x) => if !s.txs[x].pc.Subscribed? { PlainUpsertOneActive(s, x); }
    case Invalidate(id) => InvalidKeepsOneActive(s.db, id);
    case _ =>
  }

  lemma {:induction false} RunSound(s: State, steps: seq<Step>)
    requires Sound(s) && Valid(s, steps) && GroupedRun(steps)
    ensures Sound(Run(s, steps))
    decreases |steps|
  {
    if steps != [] {
      StepOk(s, steps[0]);
      StepWhole(s, steps[0]);
      StepOneActive(s, steps[0]);
      NextTablesAre(s, steps[0]);
      RunSound(Apply(s, steps[0]), steps[1..]);
    }
  }

  lemma FewActiveRows(db: Db, project: Id, subscriber: Id, uuid: string)
    requires OneActive(db)
    ensures |ActiveRows(db, project, subscriber, uuid)| <= 1
  {
    var rows := ActiveRows(db, project, subscriber, uuid);
    if k :| k in rows {
      assert rows == {k};
    }
  }

  /**
   At every moment of every run of overlapping registrations, rollbacks and invalidations in
   which a registration naming a device names its user too, a user's physical device has at most
   one active row.
   */
  lemma AtMostOneActive(db: Db, advisory: bool, steps: seq<Step>, project: Id, subscriber: Id, uuid: string)
    requires IdsUnique(db) && OneActive(db) && Valid(Start(db, advisory), steps) && GroupedRun(steps)
    ensures |ActiveRows(Run(Start(db, advisory), steps).db, project, subscriber, uuid)| <= 1
  {
    StartOk(db, advisory);
    RunSound(Start(db, advisory), steps);
    FewActiveRows(Run(Start(db, advisory), steps).db, project, subscriber, uuid);
  }

  // ----- the survivor of a rotation -----

  /** The step does not concern the row at `key` nor register for its group. */
  predicate Unrelated(s: State, step: Step, key: Key, group: (Id, string, string))
    requires Enabled(s, step)
  {
    match step
    case Commit(x) => KeyOf(s.txs[x].req) != key && Group(s.txs[x].req) != group
    case Upsert(x) => KeyOf(s.txs[x].req) != key
    case Invalidate(id) => key in s.db.devices ==> s.db.devices[key].id != id
    case _ => true
  }

  predicate AllUnrelated(s: State, steps: seq<Step>, key: Key, group: (Id, string, string))
    requires Valid(s, steps)
    decreases steps
  {
    steps == [] || (Unrelated(s, steps[0], key, group) && AllUnrelated(Apply(s, steps[0]), steps[1..], key, group))
  }

  /** The row at `key` is the one active row of the group. */
  predicate Survives(db: Db, key: Key, group: (Id, string, string)) {
    && (group.0, group.1) in db.subscribers
    && ActiveRows(db, group.0, db.subscribers[(group.0, group.1)], group.2) == {key}
  }

  lemma CommitLeavesSurvivor(s: State, x: Id, key: Key, group: (Id, string, string))
    requires Ok(s) && x in s.txs && s.txs[x].pc == Staling({}) && Survives(s.db, key, group)
    requires KeyOf(s.txs[x].req) != key && Group(s.txs[x].req) != group
    ensures Survives(Published(s.db, s.txs[x]), key, group)
  {
    var t, db' := s.txs[x], Published(s.db, s.txs[x]);
    var subscriber := s.db.subscribers[(group.0, group.1)];
    assert TxOk(s.db, t);
    UuidWritten(t.req);
    SameGroupSameSubscriber(s, x, (group.0, group.1));
    var before, after := ActiveRows(s.db, group.0, subscriber, group.2), ActiveRows(db', group.0, subscriber, group.2);
    assert key in before;
    forall k ensures k in after <==> k in before {
      CommitLeavesRow(s.db, t, k, subscriber, group);
    }
  }

  /** A commit of another group takes no row into this group and marks none of it. */
  lemma CommitLeavesRow(db: Db, t: Tx, k: Key, subscriber: Id, group: (Id, string, string))
    requires TxOk(db, t) && t.pc == Staling({}) && Group(t.req) != group
    requires subscriber == t.subscriber <==> (group.0, group.1) == SubscriberKey(t.req)
    requires KeyOf(t.req) !in ActiveRows(db, group.0, subscriber, group.2)
    ensures k in ActiveRows(Published(db, t), group.0, subscriber, group.2)
       <==> k in ActiveRows(db, group.0, subscriber, group.2)
  {
    UuidWritten(t.req);
    assert KeyOf(t.req) in t.writes;
    if k in t.writes { WritesAreOwn(db, t, k); }
  }

  /** A transaction's subscriber id is that of its own key only. */
  lemma SameGroupSameSubscriber(s: State, x: Id, e: (Id, string))
    requires Ok(s) && x in s.txs && HoldsSubscriber(s.txs[x]) && e in s.db.subscribers
    ensures s.db.subscribers[e] == s.txs[x].subscriber <==> e == SubscriberKey(s.txs[x].req)
    ensures Published(s.db, s.txs[x]).subscribers[e] == s.db.subscribers[e]
  {
    assert TxOk(s.db, s.txs[x]) && FreshIn(s.db, s.used, s.txs[x]);
  }

  lemma PlainLeavesSurvivor(db: Db, r: Request, subscriber: Option<Id>, key: Key, group: (Id, string, string))
    requires Survives(db, key, group) && Uuid(r) == "" && KeyOf(r) != key
    ensures Survives(UpsertDevice(db, r, subscriber), key, group)
  {
    UuidWritten(r);
    var s := db.subscribers[(group.0, group.1)];
    var db' := UpsertDevice(db, r, subscriber);
    forall k ensures k in ActiveRows(db', group.0, s, group.2) <==> k in ActiveRows(db, group.0, s, group.2) {
    }
  }

  lemma InvalidateLeavesSurvivor(db: Db, id: Id, key: Key, group: (Id, string, string))
    requires Survives(db, key, group) && (key in db.devices ==> db.devices[key].id != id)
    ensures Survives(db.(devices := MarkInvalid(db.devices, id)), key, group)
  {
    var s := db.subscribers[(group.0, group.1)];
    var db' := db.(devices := MarkInvalid(db.devices, id));
    forall k ensures k in ActiveRows(db', group.0, s, group.2) <==> k in ActiveRows(db, group.0, s, group.2) {
    }
  }

  lemma StepLeavesSurvivor(s: State, step: Step, key: Key, group: (Id, string, string))
    requires Ok(s) && Whole(s) && Enabled(s, step) && Survives(s.db, key, group) && Unrelated(s, step, key, group)
    ensures Survives(Apply(s, step).db, key, group)
  {
    match step
    case Commit(x) => CommitLeavesSurvivor(s, x, key, group);
    case Upsert(x) =>
      var t := s.txs[x];
      if !t.pc.Subscribed? {
        assert TxOk(s.db, t) && Grouped(t.req);
        PlainLeavesSurvivor(s.db, t.req, PlainSubscriber(t), key, group);
      }
    case Invalidate(id) => InvalidateLeavesSurvivor(s.db, id, key, group);
    case _ =>
  }

  lemma {:induction false} RunLeavesSurvivor(s: State, steps: seq<Step>, key: Key, group: (Id, string, string))
    requires Ok(s) && Whole(s) && Valid(s, steps) && GroupedRun(steps)
    requires Survives(s.db, key, group) && AllUnrelated(s, steps, key, group)
    ensures Survives(Run(s, steps).db, key, group)
    decreases |steps|
  {
    if steps != [] {
      StepOk(s, steps[0]);
      StepWhole(s, steps[0]);
      StepLeavesSurvivor(s, steps[0], key, group);
      RunLeavesSurvivor(Apply(s, steps[0]), steps[1..], key, group);
    }
  }

  /**
   In runs whose registrations of devices name their users, and whatever overlapped before, the
   last committed registration of a physical device leaves its
   own token as the device's one active row, until someone registers or invalidates that row
   or registers the device again.
   */
  lemma RotationSurvivor(db: Db, advisory: bool, before: seq<Step>, x: Id, after: seq<Step>)
    requires IdsUnique(db) && Valid(Start(db, advisory), before) && GroupedRun(before) && GroupedRun(after)
    requires var s := Run(Start(db, advisory), before);
             && Enabled(s, Commit(x)) && Valid(Apply(s, Commit(x)), after)
             && AllUnrelated(Apply(s, Commit(x)), after, KeyOf(s.txs[x].req), Group(s.txs[x].req))
    ensures var s := Run(Start(db, advisory), before);
            Survives(Run(Apply(s, Commit(x)), after).db, KeyOf(s.txs[x].req), Group(s.txs[x].req))
  {
    var s := Run(Start(db, advisory), before);
    StartOk(db, advisory);
    RunReplays(Start(db, advisory), before, db);
    StepOk(s, Commit(x));
    StepWhole(s, Commit(x));
    SoleAfterCommit(s, x);
    RunLeavesSurvivor(Apply(s, Commit(x)), after, KeyOf(s.txs[x].req), Group(s.txs[x].req));
  }

  lemma SoleAfterCommit(s: State, x: Id)
    requires Ok(s) && Whole(s) && x in s.txs && s.txs[x].pc == Staling({})
    ensures Survives(Published(s.db, s.txs[x]), KeyOf(s.txs[x].req), Group(s.txs[x].req))
  {
    var t := s.txs[x];
    assert TxOk(s.db, t) && FreshIn(s.db, s.used, t);
    CommitIsRegistration(s, x);
    RegisteredIsSoleActive(s.db, t.req);
  }

  // ----- without the transaction -----

  /**
   The same statements outside a transaction: two registrations of one physical device that
   both upsert before either marks the other stale leave it with no active row at all.
   */
  lemma UnserializedRotationLosesBoth(db: Db, r1: Request, r2: Request)
    requires IdsUnique(db) && Serialized(r1) && Group(r1) == Group(r2) && KeyOf(r1) != KeyOf(r2)
    requires r1.freshDevice != r2.freshDevice
    requires forall k :: k in db.devices ==> db.devices[k].id != r1.freshDevice && db.devices[k].id != r2.freshDevice
    ensures var subscriber := SubscriberFor(db.subscribers, r1);
            var both := RegisterPlain(RegisterPlain(db, r1), r2);
            var id1, id2 := both.devices[KeyOf(r1)].id, both.devices[KeyOf(r2)].id;
            var one := MarkStale(both.devices, r1.project, subscriber, id1, Uuid(r1));
            var two := MarkStale(one, r1.project, subscriber, id2, Uuid(r1));
            ActiveRows(both.(devices := two), r1.project, subscriber, Uuid(r1)) == {}
  {
    UuidWritten(r1);
    UuidWritten(r2);
  }
}
