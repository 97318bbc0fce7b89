/** Whatever ids registrations name, users and devices stay within their projects. */
module Isolation {
  import opened DeviceTable
  import opened Registration
  import opened Serial

  /** Every device's subscriber is one of the device's own project. */
  ghost predicate OwnProject(db: Db) {
    forall k :: k in db.devices && db.devices[k].subscriber.Some? ==> Belongs(db, k.0, db.devices[k].subscriber.value)
  }

  ghost predicate Belongs(db: Db, project: Id, subscriber: Id) {
    exists e :: e in db.subscribers && e.0 == project && db.subscribers[e] == subscriber
  }

  lemma StillBelongs(db: Db, db': Db, project: Id, subscriber: Id)
    requires Belongs(db, project, subscriber)
    requires forall e :: e in db.subscribers ==> e in db'.subscribers && db'.subscribers[e] == db.subscribers[e]
    ensures Belongs(db', project, subscriber)
  {
    var e :| e in db.subscribers && e.0 == project && db.subscribers[e] == subscriber;
    assert e in db'.subscribers;
  }

  /** Rows keep their subscriber, or get one of their own project. */
  lemma OwnProjectKept(db: Db, db': Db)
    requires OwnProject(db)
    requires forall e :: e in db.subscribers ==> e in db'.subscribers && db'.subscribers[e] == db.subscribers[e]
    requires forall k :: k in db'.devices && db'.devices[k].subscriber.Some? ==>
               (k in db.devices && db.devices[k].subscriber == db'.devices[k].subscriber)
               || Belongs(db', k.0, db'.devices[k].subscriber.value)
    ensures OwnProject(db')
  {
    forall k | k in db'.devices && db'.devices[k].subscriber.Some?
      ensures Belongs(db', k.0, db'.devices[k].subscriber.value)
    {
      if k in db.devices && db.devices[k].subscriber == db'.devices[k].subscriber {
        StillBelongs(db, db', k.0, db'.devices[k].subscriber.value);
      }
    }
  }

  lemma CommitOwnProject(db: Db, t: Tx)
    requires OwnProject(db) && TxOk(db, t) && t.pc == Staling({})
    ensures OwnProject(Published(db, t))
  {
    var db' := Published(db, t);
    assert SubscriberKey(t.req) in db'.subscribers && db'.subscribers[SubscriberKey(t.req)] == t.subscriber;
    forall k | k in db'.devices && db'.devices[k].subscriber.Some?
      ensures (k in db.devices && db.devices[k].subscriber == db'.devices[k].subscriber)
              || Belongs(db', k.0, db'.devices[k].subscriber.value)
    {
      if k in t.writes { WritesAreOwn(db, t, k); }
    }
    OwnProjectKept(db, db');
  }

  lemma PlainUpsertOwnProject(db: Db, t: Tx)
    requires OwnProject(db) && TxOk(db, t)
    ensures OwnProject(UpsertDevice(db, t.req, PlainSubscriber(t)))
  {
    var db' := UpsertDevice(db, t.req, PlainSubscriber(t));
    if t.pc.PlainSubscribed? { assert Belongs(db', t.req.project, t.subscriber); }
    OwnProjectKept(db, db');
  }

  lemma StepOwnProject(s: State, step: Step)
    requires Ok(s) && OwnProject(s.db) && Enabled(s, step)
    ensures OwnProject(Apply(s, step).db)
  {
    match step
    case Commit(x) => CommitOwnProject(s.db, s.txs[x]);
    case Upsert(x) => if !s.txs[x].pc.Subscribed? { PlainUpsertOwnProject(s.db, s.txs[x]); }
    case Subscribe(x) => OwnProjectKept(s.db, Apply(s, step).db);
    case Invalidate(id) => OwnProjectKept(s.db, Apply(s, step).db);
    case _ =>
  }

  lemma {:induction false} RunOwnProject(s: State, steps: seq<Step>)
    requires Ok(s) && OwnProject(s.db) && Valid(s, steps)
    ensures Ok(Run(s, steps)) && OwnProject(Run(s, steps).db)
    decreases |steps|
  {
    if steps != [] {
      StepOk(s, steps[0]);
      StepOwnProject(s, steps[0]);
      RunOwnProject(Apply(s, steps[0]), steps[1..]);
    }
  }

  /** In every run of any registrations, a device's subscriber belongs to the device's project. */
  lemma SubscriberIsolation(db: Db, advisory: bool, steps: seq<Step>)
    requires IdsUnique(db) && OwnProject(db) && Valid(Start(db, advisory), steps)
    ensures OwnProject(Run(Start(db, advisory), steps).db)
  {
    StartOk(db, advisory);
    RunOwnProject(Start(db, advisory), steps);
  }
}
