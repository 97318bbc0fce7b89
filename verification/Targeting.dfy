/** Resolving an audience to device ids (internal/targeting/targeting.go). */
module Targeting {
  import opened Prelude
  import opened DeviceTable
  import opened Registration
  import opened Serial
  import opened Isolation
  import opened Rotation

  datatype Spec = Spec(deviceIds: seq<Id>, externalIds: seq<string>)

  /** The device rows with a given id in the project. */
  function NamedRows(db: Db, project: Id, ids: seq<Id>): set<Key> {
    set k | k in db.devices && k.0 == project && db.devices[k].id in ids
  }

  /** The subscriber is one the query joins: of the project, named, and not opted out. */
  predicate Addressed(db: Db, optedOut: set<Id>, project: Id, externalIds: seq<string>, subscriber: Id) {
    exists i :: 0 <= i < |externalIds| && IsSubscriber(db, optedOut, (project, externalIds[i]), subscriber)
  }

  predicate IsSubscriber(db: Db, optedOut: set<Id>, e: (Id, string), subscriber: Id) {
    e in db.subscribers && db.subscribers[e] == subscriber && subscriber !in optedOut
  }

  /** GetActiveDevicesBySubscriberExternalIDs; the query does not look at the device's own project. */
  function GroupRows(db: Db, optedOut: set<Id>, project: Id, externalIds: seq<string>): set<Key> {
    set k | k in db.devices && db.devices[k].status == Active && db.devices[k].subscriber.Some?
            && Addressed(db, optedOut, project, externalIds, db.devices[k].subscriber.value)
  }

  /** A result set: each row once, in any order. */
  ghost predicate Lists(rows: seq<Key>, keys: set<Key>) {
    && (forall i, j :: 0 <= i < j < |rows| ==> rows[i] != rows[j])
    && (forall k :: k in rows <==> k in keys)
  }

  function RowIds(db: Db, keys: set<Key>): set<Id> {
    set k | k in keys && k in db.devices :: db.devices[k].id
  }

  /** Neither id comes twice, and the ids are exactly those of the rows. */
  ghost predicate Names(db: Db, ids: seq<Id>, keys: set<Key>) {
    && (forall i, j :: 0 <= i < j < |ids| ==> ids[i] != ids[j])
    && (forall id :: id in ids <==> id in RowIds(db, keys))
  }

  /** The loop of both strategies over the rows the query returned. */
  method CollectIds(db: Db, rows: seq<Key>, ghost keys: set<Key>) returns (ids: seq<Id>)
    requires IdsUnique(db) && Lists(rows, keys) && keys <= db.devices.Keys
    ensures Names(db, ids, keys)
  {
    ids := [];
    for n := 0 to |rows|
      invariant |ids| == n
      invariant forall i :: 0 <= i < n ==> rows[i] in db.devices && ids[i] == db.devices[rows[i]].id
    {
      assert rows[n] in keys;
      ids := ids + [db.devices[rows[n]].id];
    }
    forall id | id in RowIds(db, keys) ensures id in ids {
      var k :| k in keys && k in db.devices && db.devices[k].id == id;
      var i :| 0 <= i < |rows| && rows[i] == k;
      assert ids[i] == id;
    }
  }

  /** Exactly the ids named that are devices of the project. */
  lemma NamedIds(db: Db, project: Id, ids: seq<Id>)
    ensures forall id :: id in RowIds(db, NamedRows(db, project, ids)) <==>
              id in ids && exists k :: k in db.devices && k.0 == project && db.devices[k].id == id
  {
    forall id | id in ids && exists k :: k in db.devices && k.0 == project && db.devices[k].id == id
      ensures id in RowIds(db, NamedRows(db, project, ids))
    {
      var k :| k in db.devices && k.0 == project && db.devices[k].id == id;
      assert k in NamedRows(db, project, ids);
    }
  }

  /** Exactly the ids of the active devices of users stored under a name given and not opted out. */
  lemma GroupIds(db: Db, optedOut: set<Id>, project: Id, externalIds: seq<string>)
    ensures forall id :: id in RowIds(db, GroupRows(db, optedOut, project, externalIds)) <==>
              exists k, e ::
                && k in db.devices && db.devices[k].id == id && db.devices[k].status == Active
                && e in externalIds && (project, e) in db.subscribers
                && db.devices[k].subscriber == Some(db.subscribers[(project, e)])
                && db.subscribers[(project, e)] !in optedOut
  {
    forall id | id in RowIds(db, GroupRows(db, optedOut, project, externalIds))
      ensures exists k, e ::
                && k in db.devices && db.devices[k].id == id && db.devices[k].status == Active
                && e in externalIds && (project, e) in db.subscribers
                && db.devices[k].subscriber == Some(db.subscribers[(project, e)])
                && db.subscribers[(project, e)] !in optedOut
    {
      var k :| k in GroupRows(db, optedOut, project, externalIds) && k in db.devices && db.devices[k].id == id;
      var s := db.devices[k].subscriber.value;
      var i :| 0 <= i < |externalIds| && IsSubscriber(db, optedOut, (project, externalIds[i]), s);
      assert externalIds[i] in externalIds;
    }
    forall k, e |
      && k in db.devices && db.devices[k].status == Active
      && e in externalIds && (project, e) in db.subscribers
      && db.devices[k].subscriber == Some(db.subscribers[(project, e)])
      && db.subscribers[(project, e)] !in optedOut
      ensures k in GroupRows(db, optedOut, project, externalIds)
    {
      var i :| 0 <= i < |externalIds| && externalIds[i] == e;
      assert IsSubscriber(db, optedOut, (project, externalIds[i]), db.devices[k].subscriber.value);
    }
  }

  /** Registry.Resolve: `rows` is what the strategy's query returns; None is an error. */
  method Resolve(db: Db, optedOut: set<Id>, project: Id, spec: Spec, rows: seq<Key>, up: bool)
    returns (ids: Option<seq<Id>>)
    requires IdsUnique(db)
    requires Lists(rows, if |spec.deviceIds| > 0 then NamedRows(db, project, spec.deviceIds)
                         else GroupRows(db, optedOut, project, spec.externalIds))
    ensures ids.Some? <==> up && (|spec.deviceIds| > 0 || |spec.externalIds| > 0)
    ensures ids.Some? ==> forall i, j :: 0 <= i < j < |ids.value| ==> ids.value[i] != ids.value[j]
    // explicit ids: exactly those named that are devices of the project
    ensures ids.Some? && |spec.deviceIds| > 0 ==>
              forall id :: id in ids.value <==>
                id in spec.deviceIds && exists k :: k in db.devices && k.0 == project && db.devices[k].id == id
    // groups: exactly the active devices of the users stored under a name given and not opted out
    ensures ids.Some? && |spec.deviceIds| == 0 ==>
              forall id :: id in ids.value <==>
                exists k, e ::
                  && k in db.devices && db.devices[k].id == id && db.devices[k].status == Active
                  && e in spec.externalIds && (project, e) in db.subscribers
                  && db.devices[k].subscriber == Some(db.subscribers[(project, e)])
                  && db.subscribers[(project, e)] !in optedOut
  {
    if !up || (|spec.deviceIds| == 0 && |spec.externalIds| == 0) {
      return None;
    }
    if |spec.deviceIds| > 0 {
      var found := CollectIds(db, rows, NamedRows(db, project, spec.deviceIds));
      NamedIds(db, project, spec.deviceIds);
      return Some(found);
    }
    var found := CollectIds(db, rows, GroupRows(db, optedOut, project, spec.externalIds));
    GroupIds(db, optedOut, project, spec.externalIds);
    return Some(found);
  }

  lemma GroupRowsInProject(db: Db, optedOut: set<Id>, project: Id, externalIds: seq<string>, k: Key)
    requires IdsUnique(db) && OwnProject(db) && k in GroupRows(db, optedOut, project, externalIds)
    ensures k.0 == project
  {
    var subscriber := db.devices[k].subscriber.value;
    assert Belongs(db, k.0, subscriber);
    var i :| 0 <= i < |externalIds| && IsSubscriber(db, optedOut, (project, externalIds[i]), subscriber);
  }

  /** After any run of any registrations, a group push resolves to devices of its own project only. */
  lemma GroupPushStaysInProject(db: Db, advisory: bool, steps: seq<Step>,
                                optedOut: set<Id>, project: Id, externalIds: seq<string>, k: Key)
    requires IdsUnique(db) && OwnProject(db) && Valid(Start(db, advisory), steps)
    requires k in GroupRows(Run(Start(db, advisory), steps).db, optedOut, project, externalIds)
    ensures k.0 == project
  {
    StartOk(db, advisory);
    RunOwnProject(Start(db, advisory), steps);
    GroupRowsInProject(Run(Start(db, advisory), steps).db, optedOut, project, externalIds, k);
  }

  /** Two device rows of one physical device of one user. */
  predicate SamePhysicalDevice(db: Db, k: Key, l: Key)
    requires k in db.devices && l in db.devices
  {
    && db.devices[k].subscriber == db.devices[l].subscriber
    && UuidOf(db.devices[k].metadata).Some?
    && UuidOf(db.devices[k].metadata) == UuidOf(db.devices[l].metadata)
  }

  /**
   After any run of overlapping registrations in which those of devices name their users, a group
   push resolves to each physical device of a user at most once.
   */
  lemma GroupPushHitsEachDeviceOnce(db: Db, advisory: bool, steps: seq<Step>,
                                    optedOut: set<Id>, project: Id, externalIds: seq<string>, k: Key, l: Key)
    requires IdsUnique(db) && OneActive(db) && OwnProject(db) && Valid(Start(db, advisory), steps) && GroupedRun(steps)
    requires var now := Run(Start(db, advisory), steps).db;
             && k in GroupRows(now, optedOut, project, externalIds)
             && l in GroupRows(now, optedOut, project, externalIds)
             && SamePhysicalDevice(now, k, l)
    ensures k == l
  {
    StartOk(db, advisory);
    RunSound(Start(db, advisory), steps);
    GroupPushStaysInProject(db, advisory, steps, optedOut, project, externalIds, k);
    GroupPushStaysInProject(db, advisory, steps, optedOut, project, externalIds, l);
  }
}
