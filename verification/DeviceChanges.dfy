/**
 The two views of the device table: whatever a registration or an invalidation does to the rows
 of DeviceTable is, in the dispatch pipeline, a run of its device-change steps.
 */
module DeviceChanges {
  import opened Prelude
  import opened Pipeline
  import opened Guarantees
  import R = Registration
  import Store
  import D = DeviceTable

  function StatusOf(s: D.Status): Store.DeviceStatus {
    match s
    case Active => Store.DeviceStatus.Active
    case Stale => Store.DeviceStatus.Stale
    case Invalid => Store.DeviceStatus.Invalid
  }

  /** A registered device as the pipeline knows it. */
  function RowOf(k: D.Key, d: D.Device): Store.Device {
    Store.Device(k.0, k.1, d.provider, StatusOf(d.status))
  }

  /** The pipeline's devices are the rows of `db`, by id. */
  ghost predicate Shows(devices: map<D.Id, Store.Device>, db: D.Db) {
    && (forall k :: k in db.devices ==>
          db.devices[k].id in devices && devices[db.devices[k].id] == RowOf(k, db.devices[k]))
    && (forall id :: id in devices ==> exists k :: k in db.devices && db.devices[k].id == id)
  }

  /** Rows stay, and keep their ids. */
  ghost predicate Keeps(db: D.Db, db': D.Db) {
    forall k :: k in db.devices ==> k in db'.devices && db'.devices[k].id == db.devices[k].id
  }

  /** And their providers. */
  predicate SameProviders(db: D.Db, db': D.Db) {
    forall k :: k in db.devices && k in db'.devices ==> db'.devices[k].provider == db.devices[k].provider
  }

  predicate OnlyDeviceChanges(steps: seq<Step>) {
    forall i :: 0 <= i < |steps| ==> steps[i].DeviceChange?
  }

  /** The devices show the rows of `db'` outside `todo`. */
  ghost predicate Changed(devices: map<D.Id, Store.Device>, db': D.Db, todo: set<D.Key>) {
    forall k :: k in db'.devices && k !in todo ==>
      db'.devices[k].id in devices && devices[db'.devices[k].id] == RowOf(k, db'.devices[k])
  }

  /** And those of `db` at `todo`. */
  ghost predicate Unchanged(devices: map<D.Id, Store.Device>, db: D.Db, todo: set<D.Key>) {
    forall k :: k in todo && k in db.devices ==>
      db.devices[k].id in devices && devices[db.devices[k].id] == RowOf(k, db.devices[k])
  }

  /** And none besides. */
  ghost predicate Owned(devices: map<D.Id, Store.Device>, db: D.Db, db': D.Db, todo: set<D.Key>) {
    forall id :: id in devices ==>
      exists k :: k in db'.devices && db'.devices[k].id == id && (k in todo ==> k in db.devices)
  }

  /** On the way from `db` to `db'`, with the rows at `todo` not yet changed. */
  ghost predicate Between(devices: map<D.Id, Store.Device>, db: D.Db, db': D.Db, todo: set<D.Key>) {
    && todo <= db'.devices.Keys
    && Changed(devices, db', todo) && Unchanged(devices, db, todo) && Owned(devices, db, db', todo)
  }

  lemma ChangeEnabled(w: World, db: D.Db, db': D.Db, todo: set<D.Key>, k: D.Key)
    requires R.IdsUnique(db') && Keeps(db, db') && Between(w.t.devices, db, db', todo) && k in todo
    ensures Enabled(w, DeviceChange(db'.devices[k].id, RowOf(k, db'.devices[k])))
    ensures SameProviders(db, db') ==> KeepsProviders(w, DeviceChange(db'.devices[k].id, RowOf(k, db'.devices[k])))
  {
    var id := db'.devices[k].id;
    if id in w.t.devices {
      var l :| l in db'.devices && db'.devices[l].id == id && (l in todo ==> l in db.devices);
      assert l == k;
    }
  }

  lemma ChangeAdvances(devices: map<D.Id, Store.Device>, db: D.Db, db': D.Db, todo: set<D.Key>, k: D.Key)
    requires R.IdsUnique(db') && Keeps(db, db') && Between(devices, db, db', todo) && k in todo
    ensures Between(devices[db'.devices[k].id := RowOf(k, db'.devices[k])], db, db', todo - {k})
  {
    RowChanged(devices, db', todo, k);
    OthersUnchanged(devices, db, db', todo, k);
    StillOwned(devices, db, db', todo, k);
  }

  lemma RowChanged(devices: map<D.Id, Store.Device>, db': D.Db, todo: set<D.Key>, k: D.Key)
    requires R.IdsUnique(db') && Changed(devices, db', todo) && k in db'.devices
    ensures Changed(devices[db'.devices[k].id := RowOf(k, db'.devices[k])], db', todo - {k})
  {
  }

  lemma OthersUnchanged(devices: map<D.Id, Store.Device>, db: D.Db, db': D.Db, todo: set<D.Key>, k: D.Key)
    requires R.IdsUnique(db') && Keeps(db, db') && Unchanged(devices, db, todo) && k in db'.devices
    ensures Unchanged(devices[db'.devices[k].id := RowOf(k, db'.devices[k])], db, todo - {k})
  {
  }

  lemma StillOwned(devices: map<D.Id, Store.Device>, db: D.Db, db': D.Db, todo: set<D.Key>, k: D.Key)
    requires Owned(devices, db, db', todo) && k in db'.devices
    ensures Owned(devices[db'.devices[k].id := RowOf(k, db'.devices[k])], db, db', todo - {k})
  {
    var after := devices[db'.devices[k].id := RowOf(k, db'.devices[k])];
    forall id | id in after
      ensures exists l :: l in db'.devices && db'.devices[l].id == id && (l in todo - {k} ==> l in db.devices)
    {
      if id == db'.devices[k].id {
        assert k in db'.devices;
      } else {
        var l :| l in db'.devices && db'.devices[l].id == id && (l in todo ==> l in db.devices);
      }
    }
  }

  lemma {:induction false} ChangesAll(w: World, db: D.Db, db': D.Db, todo: set<D.Key>) returns (steps: seq<Step>)
    requires R.IdsUnique(db') && Keeps(db, db') && Between(w.t.devices, db, db', todo)
    ensures Valid(w, steps) && OnlyDeviceChanges(steps)
    ensures SameProviders(db, db') ==> StableRun(w, steps)
    ensures Shows(Run(w, steps).t.devices, db')
    ensures Run(w, steps) == w.(t := w.t.(devices := Run(w, steps).t.devices))
    decreases todo
  {
    if k :| k in todo {
      var s := DeviceChange(db'.devices[k].id, RowOf(k, db'.devices[k]));
      ChangeEnabled(w, db, db', todo, k);
      ChangeAdvances(w.t.devices, db, db', todo, k);
      var rest := ChangesAll(Apply(w, s), db, db', todo - {k});
      steps := [s] + rest;
      assert steps[1..] == rest;
    } else {
      steps := [];
    }
  }

  /** Every action on the tables keeps the rows and their ids. */
  lemma ActionKeeps(db: D.Db, a: R.Action)
    ensures Keeps(db, R.Do(db, a))
  {
  }

  /**
   What takes effect in the device table is, in any state of the pipeline with the same devices, a
   run of device changes; one that keeps providers if no row changes its provider.
   */
  lemma ActionIsDeviceChanges(w: World, db: D.Db, a: R.Action) returns (steps: seq<Step>)
    requires Shows(w.t.devices, db) && R.IdsUnique(R.Do(db, a))
    ensures Valid(w, steps) && OnlyDeviceChanges(steps)
    ensures Shows(Run(w, steps).t.devices, R.Do(db, a))
    ensures Run(w, steps) == w.(t := w.t.(devices := Run(w, steps).t.devices))
    ensures SameProviders(db, R.Do(db, a)) ==> StableRun(w, steps)
  {
    ActionKeeps(db, a);
    forall id | id in w.t.devices
      ensures exists k :: k in R.Do(db, a).devices && R.Do(db, a).devices[k].id == id && k in db.devices
    {
      var k :| k in db.devices && db.devices[k].id == id;
      assert k in R.Do(db, a).devices;
    }
    steps := ChangesAll(w, db, R.Do(db, a), R.Do(db, a).devices.Keys);
  }

  /** A registration changes a row's provider exactly if it names another one for a known token. */
  lemma RegistrationChangesProvider(db: D.Db, r: D.Request)
    ensures SameProviders(db, D.Register(db, r))
       <==> (D.KeyOf(r) in db.devices ==> db.devices[D.KeyOf(r)].provider == r.provider)
  {
    var row := D.Register(db, r).devices[D.KeyOf(r)];
    assert row.provider == r.provider;
  }
}
