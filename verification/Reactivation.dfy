/**
 The one kind of registration that skips the lock although it names a physical device: it names
 no user, keeps the user its row already has, and makes the row active again. Runs with such a
 registration show that the theorems on grouped runs need their condition, and exactly that.
 */
module Reactivation {
  import opened Prelude
  import opened DeviceTable
  import opened Registration
  import opened Serial
  import opened Isolation
  import opened Rotation

  const EMPTY: Db := Db(map[], map[])

  // ----- building runs -----

  ghost predicate Trace(s0: State, steps: seq<Step>, s: State) {
    Valid(s0, steps) && Run(s0, steps) == s
  }

  lemma {:induction false} Extend(s0: State, steps: seq<Step>, s: State, step: Step)
    requires Trace(s0, steps, s) && Enabled(s, step)
    ensures Trace(s0, steps + [step], Apply(s, step))
    decreases |steps|
  {
    if steps == [] {
      assert Valid(Apply(s, step), []);
    } else {
      assert (steps + [step])[1..] == steps[1..] + [step];
      Extend(Apply(s0, steps[0]), steps[1..], s, step);
    }
  }

  /** Every registration begun is grouped, or is `r`. */
  predicate GroupedBut(steps: seq<Step>, r: Request) {
    forall i :: 0 <= i < |steps| && steps[i].Begin? ==> Grouped(steps[i].req) || steps[i].req == r
  }

  predicate Unused(s: State, r: Request) {
    r.freshDevice !in s.used && r.freshSubscriber !in s.used
  }

  lemma Moved(s0: State, steps: seq<Step>, s: State, x: Id, step: Step, but: Request)
    returns (more: seq<Step>, s': State)
    requires Trace(s0, steps, s) && Enabled(s, step) && Ok(s) && GroupedBut(steps, but) && !step.Begin?
    ensures Trace(s0, more, s') && s' == Apply(s, step) && Ok(s') && GroupedBut(more, but)
  {
    Extend(s0, steps, s, step);
    more, s' := steps + [step], Apply(s, step);
    StepOk(s, step);
  }

  function BegunTx(r: Request): Tx {
    Tx(r, if Serialized(r) then Begun else PlainBegun, 0, map[])
  }

  lemma Began(s0: State, steps: seq<Step>, s: State, x: Id, r: Request, but: Request)
    returns (more: seq<Step>, s': State)
    requires Trace(s0, steps, s) && Ok(s) && GroupedBut(steps, but)
    requires x !in s.txs && Unused(s, r) && (Grouped(r) || r == but)
    ensures Trace(s0, more, s') && Ok(s') && GroupedBut(more, but)
    ensures s' == s.(txs := s.txs[x := BegunTx(r)], used := s.used + {r.freshDevice, r.freshSubscriber})
  {
    Extend(s0, steps, s, Begin(x, r));
    more, s' := steps + [Begin(x, r)], Apply(s, Begin(x, r));
    StepOk(s, Begin(x, r));
  }

  lemma HoldingSubscriber(s0: State, steps: seq<Step>, s: State, x: Id, r: Request, but: Request)
    returns (more: seq<Step>, s': State)
    requires Trace(s0, steps, s) && Ok(s) && s.txs == map[] && Serialized(r) && Unused(s, r) && GroupedBut(steps, but)
    ensures Trace(s0, more, s') && GroupedBut(more, but) && Ok(s')
    ensures s' == s.(txs := s'.txs, used := s.used + {r.freshDevice, r.freshSubscriber})
    ensures s'.txs.Keys == {x} && s'.txs[x].req == r && s'.txs[x].pc.Subscribed?
  {
    more, s' := Began(s0, steps, s, x, r, but);
    more, s' := Moved(s0, more, s', x, Lock(x), but);
    more, s' := Moved(s0, more, s', x, Subscribe(x), but);
  }

  /** A serialized registration with its device row written, nobody else about. */
  lemma Upserted(s0: State, steps: seq<Step>, s: State, x: Id, r: Request, but: Request)
    returns (more: seq<Step>, s': State)
    requires Trace(s0, steps, s) && Ok(s) && s.txs == map[] && Serialized(r) && Unused(s, r) && GroupedBut(steps, but)
    ensures Trace(s0, more, s') && GroupedBut(more, but) && Ok(s')
    ensures s' == s.(txs := s'.txs, used := s.used + {r.freshDevice, r.freshSubscriber})
    ensures s'.txs.Keys == {x} && s'.txs[x].req == r && s'.txs[x].pc.Upserted? && s'.txs[x].writes.Keys == {KeyOf(r)}
  {
    more, s' := HoldingSubscriber(s0, steps, s, x, r, but);
    more, s' := Moved(s0, more, s', x, Upsert(x), but);
  }

  /** A serialized registration taken up to its list of rows to mark, nobody else about. */
  lemma Started(s0: State, steps: seq<Step>, s: State, x: Id, r: Request, but: Request)
    returns (more: seq<Step>, s': State)
    requires Trace(s0, steps, s) && Ok(s) && s.txs == map[] && Serialized(r) && Unused(s, r) && GroupedBut(steps, but)
    ensures Trace(s0, more, s') && GroupedBut(more, but) && Ok(s')
    ensures s'.db == s.db && s'.log == s.log && s'.used == s.used + {r.freshDevice, r.freshSubscriber}
    ensures s'.txs.Keys == {x} && s'.txs[x].req == r && s'.txs[x].pc.Staling? && Complete(s.db, s'.txs[x])
    ensures s'.txs[x].writes.Keys == {KeyOf(r)}
    ensures forall k :: k in s'.txs[x].pc.todo ==> k in s.db.devices && Rotated(s'.txs[x], k, s.db.devices[k])
  {
    more, s' := Upserted(s0, steps, s, x, r, but);
    more, s' := Moved(s0, more, s', x, StartStale(x), but);
  }

  /** What committing transaction `t` of the only registration under way makes of the tables. */
  ghost predicate FinishedFrom(db: Db, t: Tx, db': Db) {
    && KeyOf(t.req) in t.writes && KeyOf(t.req) in db'.devices
    && db'.devices[KeyOf(t.req)] == t.writes[KeyOf(t.req)]
    && (t.pc.Staling? ==>
          forall k :: k in db.devices && k !in t.pc.todo && k !in t.writes ==>
            k in db'.devices && db'.devices[k] == db.devices[k])
    && (Complete(db, t) ==> db' == RegisterSerialized(db, t.req))
  }

  lemma MarkingKeepsFinish(db: Db, t: Tx, k: Key, db': Db)
    requires TxOk(db, t) && t.pc.Staling? && KeyOf(t.req) in t.writes && k in t.pc.todo && k in db.devices
    requires FinishedFrom(db, WithRow(db, t, k), db')
    ensures FinishedFrom(db, t, db')
  {
    assert Complete(db, t) ==> Complete(db, WithRow(db, t, k));
  }

  lemma PublishedFinishes(db: Db, t: Tx)
    requires TxOk(db, t) && t.pc == Staling({})
    ensures FinishedFrom(db, t, Published(db, t))
  {
    if Complete(db, t) { WritesAreAll(db, t); }
  }

  lemma Committed(s0: State, steps: seq<Step>, s: State, x: Id, but: Request)
    returns (more: seq<Step>, s': State)
    requires Trace(s0, steps, s) && Ok(s) && s.txs.Keys == {x} && s.txs[x].pc == Staling({}) && GroupedBut(steps, but)
    ensures Trace(s0, more, s') && GroupedBut(more, but) && Ok(s')
    ensures s'.txs == map[] && s'.log == s.log + [Registered(s.txs[x].req)] && s'.used == s.used
    ensures s'.db == Published(s.db, s.txs[x])
  {
    more, s' := Moved(s0, steps, s, x, Commit(x), but);
    assert s'.txs == map[];
  }

  /** The rest of a registration that has its list, nobody else about. */
  lemma {:induction false} Finished(s0: State, steps: seq<Step>, s: State, x: Id, but: Request)
    returns (more: seq<Step>, s': State)
    requires Trace(s0, steps, s) && Ok(s) && s.txs.Keys == {x} && s.txs[x].pc.Staling? && GroupedBut(steps, but)
    requires forall k :: k in s.txs[x].pc.todo ==> k in s.db.devices
    ensures Trace(s0, more, s') && GroupedBut(more, but) && Ok(s')
    ensures s'.txs == map[] && s'.log == s.log + [Registered(s.txs[x].req)] && s'.used == s.used
    ensures FinishedFrom(s.db, s.txs[x], s'.db)
    decreases s.txs[x].pc.todo
  {
    var t := s.txs[x];
    assert TxOk(s.db, t);
    if k :| k in t.pc.todo {
      var s1;
      more, s1 := Moved(s0, steps, s, x, StaleRow(x, k), but);
      assert s1.txs[x] == WithRow(s.db, t, k);
      more, s' := Finished(s0, more, s1, x, but);
      MarkingKeepsFinish(s.db, t, k, s'.db);
    } else {
      assert t.pc == Staling({});
      more, s' := Committed(s0, steps, s, x, but);
      PublishedFinishes(s.db, t);
    }
  }

  /** A registration from begin to commit, nobody else about. */
  lemma Alone(s0: State, steps: seq<Step>, s: State, x: Id, r: Request, but: Request)
    returns (more: seq<Step>, s': State)
    requires Trace(s0, steps, s) && Ok(s) && s.txs == map[] && Serialized(r) && Unused(s, r) && GroupedBut(steps, but)
    ensures Trace(s0, more, s') && GroupedBut(more, but) && Ok(s')
    ensures s'.db == RegisterSerialized(s.db, r) && s'.txs == map[] && s'.log == s.log + [Registered(r)]
    ensures s'.used == s.used + {r.freshDevice, r.freshSubscriber}
  {
    more, s' := Started(s0, steps, s, x, r, but);
    more, s' := Finished(s0, more, s', x, but);
  }

  /** A registration outside the transaction, nobody else about. */
  lemma PlainAlone(s0: State, steps: seq<Step>, s: State, x: Id, r: Request)
    returns (more: seq<Step>, s': State)
    requires Trace(s0, steps, s) && Ok(s) && s.txs == map[] && !Serialized(r) && Unused(s, r) && GroupedBut(steps, r)
    ensures Trace(s0, more, s') && s'.db == RegisterPlain(s.db, r) && s'.txs == map[]
  {
    more, s' := Began(s0, steps, s, x, r, r);
    if r.externalId != "" {
      more, s' := Moved(s0, more, s', x, Subscribe(x), r);
    }
    more, s' := Moved(s0, more, s', x, Upsert(x), r);
  }

  /** Run alone, the steps of any registration make of the tables what the registration is specified to. */
  lemma RegistersAlone(db: Db, advisory: bool, r: Request) returns (steps: seq<Step>)
    requires IdsUnique(db) && r.freshDevice !in IdsOf(db) && r.freshSubscriber !in IdsOf(db)
    ensures Valid(Start(db, advisory), steps)
    ensures Run(Start(db, advisory), steps).db == Register(db, r) && Run(Start(db, advisory), steps).txs == map[]
  {
    var s := Start(db, advisory);
    StartOk(db, advisory);
    assert Trace(s, [], s);
    var s';
    if Serialized(r) {
      steps, s' := Alone(s, [], s, 0, r, r);
    } else {
      steps, s' := PlainAlone(s, [], s, 0, r);
    }
  }

  // ----- a device that rotates its token, and then registers the first one without its user -----

  /** A registration for user "u" of the device and project that `r` names, with ids of its own. */
  function Rotating(r: Request, suffix: string, n: nat): Request {
    var id := r.freshDevice + r.freshSubscriber + 1 + 2 * n;
    r.(externalId := "u", token := r.token + suffix, freshDevice := id, freshSubscriber := id + 1)
  }

  function First(r: Request): Request { Rotating(r, "", 0) }

  function Second(r: Request): Request { Rotating(r, "'", 1) }

  function Third(r: Request): Request { Rotating(r, "''", 2) }

  function User(r: Request): Id { First(r).freshSubscriber }

  predicate Bare(r: Request) {
    Uuid(r) != "" && r.externalId == ""
  }

  lemma KeysDiffer(r: Request)
    ensures KeyOf(First(r)) == KeyOf(r)
    ensures KeyOf(r) != KeyOf(Second(r)) && KeyOf(r) != KeyOf(Third(r)) && KeyOf(Second(r)) != KeyOf(Third(r))
  {
    assert r.token + "" == r.token;
    assert |KeyOf(Second(r)).1| == |r.token| + 1 && |KeyOf(Third(r)).1| == |r.token| + 2;
  }

  /** After tokens one and two: the first row is stale, and both are the user's. */
  predicate Rotated2(db: Db, r: Request) {
    && db.subscribers == map[(r.project, "u") := User(r)]
    && db.devices.Keys == {KeyOf(r), KeyOf(Second(r))}
    && db.devices[KeyOf(r)].status == Stale
    && InGroup(KeyOf(r), db.devices[KeyOf(r)], r.project, User(r), Uuid(r))
  }

  lemma TwoTokens(r: Request)
    requires Bare(r)
    ensures Rotated2(RegisterSerialized(RegisterSerialized(EMPTY, First(r)), Second(r)), r)
  {
    KeysDiffer(r);
    UuidWritten(First(r));
    UuidWritten(Second(r));
    var db1 := RegisterSerialized(EMPTY, First(r));
    assert db1.devices.Keys == {KeyOf(r)};
    assert InGroup(KeyOf(r), db1.devices[KeyOf(r)], r.project, User(r), Uuid(r));
  }

  lemma ReplayExtends(db0: Db, log: seq<Action>, a: Action)
    ensures Replay(db0, log + [a]) == Do(Replay(db0, log), a)
  {
    assert (log + [a])[..|log|] == log;
  }

  /** The three rotations and `r` itself use different ids. */
  lemma IdsDiffer(r: Request, s: State)
    ensures s.used == {First(r).freshDevice, First(r).freshSubscriber} ==> Unused(s, Second(r))
    ensures s.used == {First(r).freshDevice, First(r).freshSubscriber}
                      + {Second(r).freshDevice, Second(r).freshSubscriber} ==>
              Unused(s, Third(r)) && Unused(s, r)
  {
  }

  lemma OneToken(r: Request, advisory: bool) returns (steps: seq<Step>, s: State)
    requires Bare(r)
    ensures Trace(Start(EMPTY, advisory), steps, s) && GroupedBut(steps, r) && Ok(s)
    ensures s.txs == map[] && s.db == RegisterSerialized(EMPTY, First(r)) == Replay(EMPTY, s.log)
    ensures s.used == {First(r).freshDevice, First(r).freshSubscriber}
  {
    s := Start(EMPTY, advisory);
    StartOk(EMPTY, advisory);
    assert s.used == {};
    steps, s := Alone(s, [], s, 1, First(r), r);
    ReplayExtends(EMPTY, [], Registered(First(r)));
  }

  lemma Prepared(r: Request, advisory: bool) returns (steps: seq<Step>, s: State)
    requires Bare(r)
    ensures Trace(Start(EMPTY, advisory), steps, s) && GroupedBut(steps, r) && Ok(s)
    ensures s.txs == map[] && Rotated2(s.db, r) && Unused(s, Third(r)) && Unused(s, r)
    ensures s.db == Replay(EMPTY, s.log)
  {
    steps, s := OneToken(r, advisory);
    ReplayExtends(EMPTY, s.log, Registered(Second(r)));
    IdsDiffer(r, s);
    assert Serialized(Second(r));
    steps, s := Alone(Start(EMPTY, advisory), steps, s, 2, Second(r), r);
    IdsDiffer(r, s);
    TwoTokens(r);
  }

  /** The row `r` registers keeps its user and is active again. */
  lemma Reactivated(db: Db, r: Request)
    requires Bare(r) && Rotated2(db, r)
    ensures var after := UpsertDevice(db, r, None);
            && after.devices[KeyOf(r)].status == Active
            && InGroup(KeyOf(r), after.devices[KeyOf(r)], r.project, User(r), Uuid(r))
  {
    UuidWritten(r);
  }

  lemma OwnRowInGroup(db: Db, t: Tx, r: Request)
    requires Bare(r) && Rotated2(db, r) && TxOk(db, t) && t.req == Third(r) && t.pc.Staling?
    ensures var key := KeyOf(Third(r));
            key in t.writes && t.writes[key].status == Active && InGroup(key, t.writes[key], r.project, User(r), Uuid(r))
    ensures t.subscriber == User(r)
  {
    UuidWritten(Third(r));
  }

  lemma NotRotatedYet(db: Db, t: Tx, r: Request)
    requires Bare(r) && Rotated2(db, r) && t.req == Third(r) && t.pc.Staling? && KeyOf(Third(r)) in t.writes
    requires forall k :: k in t.pc.todo ==> k in db.devices && Rotated(t, k, db.devices[k])
    ensures KeyOf(r) !in t.pc.todo
  {
  }

  /** The third token's transaction has its list, and the first row is not on it. */
  predicate Overtakes(t: Tx, r: Request) {
    && t.req == Third(r) && t.pc.Staling? && KeyOf(r) !in t.pc.todo && KeyOf(r) !in t.writes
    && KeyOf(Third(r)) in t.writes && t.writes[KeyOf(Third(r))].status == Active
    && InGroup(KeyOf(Third(r)), t.writes[KeyOf(Third(r))], r.project, User(r), Uuid(r))
  }

  /** The first row is the user's, and active. */
  predicate FirstIsActive(db: Db, r: Request) {
    && db.subscribers == map[(r.project, "u") := User(r)]
    && KeyOf(r) in db.devices && db.devices[KeyOf(r)].status == Active
    && InGroup(KeyOf(r), db.devices[KeyOf(r)], r.project, User(r), Uuid(r))
  }

  lemma ThirdStarted(r: Request, advisory: bool) returns (steps: seq<Step>, s: State)
    requires Bare(r)
    ensures Trace(Start(EMPTY, advisory), steps, s) && GroupedBut(steps, r) && Ok(s)
    ensures s.txs.Keys == {3} && Overtakes(s.txs[3], r)
    ensures forall k :: k in s.txs[3].pc.todo ==> k in s.db.devices
    ensures Rotated2(s.db, r) && Unused(s, r) && s.db == Replay(EMPTY, s.log)
  {
    steps, s := Prepared(r, advisory);
    KeysDiffer(r);
    steps, s := Started(Start(EMPTY, advisory), steps, s, 3, Third(r), r);
    OwnRowInGroup(s.db, s.txs[3], r);
    NotRotatedYet(s.db, s.txs[3], r);
  }

  /** Then `r` reactivates the first row. */
  lemma BareUpsert(s0: State, steps: seq<Step>, s: State, x: Id, r: Request)
    returns (more: seq<Step>, s': State)
    requires Trace(s0, steps, s) && Ok(s) && GroupedBut(steps, r) && Bare(r) && Unused(s, r)
    requires x !in s.txs && forall y :: y in s.txs ==> KeyOf(r) !in s.txs[y].writes
    ensures Trace(s0, more, s') && Ok(s') && GroupedBut(more, r)
    ensures s'.txs == s.txs && s'.db == UpsertDevice(s.db, r, None) && s'.log == s.log + [DeviceSeen(r, None)]
  {
    var s1;
    more, s1 := Began(s0, steps, s, x, r, r);
    BareUpsertIs(s, x, r, s1);
    more, s' := Moved(s0, more, s1, x, Upsert(x), r);
  }

  lemma BareUpsertIs(s: State, x: Id, r: Request, s1: State)
    requires Bare(r) && x !in s.txs && forall y :: y in s.txs ==> KeyOf(r) !in s.txs[y].writes
    requires s1 == s.(txs := s.txs[x := BegunTx(r)], used := s1.used)
    ensures Enabled(s1, Upsert(x))
    ensures Apply(s1, Upsert(x))
         == s1.(txs := s.txs, db := UpsertDevice(s.db, r, None), log := s.log + [DeviceSeen(r, None)])
  {
    assert s1.txs - {x} == s.txs;
  }

  lemma Overtaken(r: Request, advisory: bool) returns (steps: seq<Step>, s: State)
    requires Bare(r)
    ensures Trace(Start(EMPTY, advisory), steps, s) && GroupedBut(steps, r) && Ok(s)
    ensures s.txs.Keys == {3} && Overtakes(s.txs[3], r)
    ensures forall k :: k in s.txs[3].pc.todo ==> k in s.db.devices
    ensures FirstIsActive(s.db, r) && s.db == Replay(EMPTY, s.log)
  {
    steps, s := ThirdStarted(r, advisory);
    Reactivated(s.db, r);
    ReplayExtends(EMPTY, s.log, DeviceSeen(r, None));
    steps, s := BareUpsert(Start(EMPTY, advisory), steps, s, 4, r);
  }

  /** Two active rows of one user's physical device. */
  predicate TwoActive(db: Db, k: Key, l: Key) {
    && k != l && k in db.devices && l in db.devices
    && db.devices[k].status == Active && db.devices[l].status == Active && k.0 == l.0
    && db.devices[k].subscriber.Some? && db.devices[k].subscriber == db.devices[l].subscriber
    && UuidOf(db.devices[k].metadata).Some? && UuidOf(db.devices[k].metadata) == UuidOf(db.devices[l].metadata)
  }

  /**
   For every registration of a device without a user there is a run in which all others name
   theirs, which leaves two active rows, and which is not the committed actions in commit order.
   */
  lemma OneBareRegistrationSuffices(r: Request, advisory: bool) returns (steps: seq<Step>, s: State)
    requires Bare(r)
    ensures Trace(Start(EMPTY, advisory), steps, s) && GroupedBut(steps, r)
    ensures TwoActive(s.db, KeyOf(r), KeyOf(Third(r)))
    ensures s.db != Replay(EMPTY, s.log)
  {
    steps, s := Overtaken(r, advisory);
    KeysDiffer(r);
    assert FreshIn(s.db, s.used, s.txs[3]);
    ReplayMarks(s.db, r);
    ReplayExtends(EMPTY, s.log, Registered(Third(r)));
    steps, s := Finished(Start(EMPTY, advisory), steps, s, 3, r);
  }

  lemma ReplayMarks(db: Db, r: Request)
    requires Bare(r) && IdsUnique(db) && FirstIsActive(db, r)
    requires db.devices[KeyOf(r)].id != Third(r).freshDevice
    ensures KeyOf(r) in RegisterSerialized(db, Third(r)).devices
    ensures RegisterSerialized(db, Third(r)).devices[KeyOf(r)].status == Stale
  {
    KeysDiffer(r);
  }

  // ----- exactly the grouped registrations are safe -----

  /** Tables that the schema admits, with one active row per physical device. */
  ghost predicate Proper(db: Db) {
    IdsUnique(db) && OwnProject(db) && OneActive(db)
  }

  /** Every run in which all other registrations are grouped keeps one active row per device. */
  ghost predicate AlwaysOneActive(r: Request) {
    forall db, advisory, steps ::
      Proper(db) && Valid(Start(db, advisory), steps) && GroupedBut(steps, r) ==>
        OneActive(Run(Start(db, advisory), steps).db)
  }

  /** Every run in which all other registrations are grouped is serial in commit order. */
  ghost predicate AlwaysSerial(r: Request) {
    forall db, advisory, steps ::
      Proper(db) && Valid(Start(db, advisory), steps) && GroupedBut(steps, r) ==>
        Run(Start(db, advisory), steps).db == Replay(db, Run(Start(db, advisory), steps).log)
  }

  lemma EmptyIsProper()
    ensures Proper(EMPTY)
  {
  }

  /** A registration is safe for "one active row" if and only if it names a user or no device. */
  lemma OneActiveIffGrouped(r: Request)
    ensures AlwaysOneActive(r) <==> Grouped(r)
  {
    if Grouped(r) {
      forall db, advisory, steps | Proper(db) && Valid(Start(db, advisory), steps) && GroupedBut(steps, r)
        ensures OneActive(Run(Start(db, advisory), steps).db)
      {
        StartOk(db, advisory);
        RunSound(Start(db, advisory), steps);
      }
    } else {
      EmptyIsProper();
      var steps, s := OneBareRegistrationSuffices(r, true);
      assert Run(Start(EMPTY, true), steps) == s;
      assert !OneActive(s.db);
    }
  }

  /** A registration is safe for commit-order equivalence under exactly the same condition. */
  lemma SerialIffGrouped(r: Request)
    ensures AlwaysSerial(r) <==> Grouped(r)
  {
    if Grouped(r) {
      forall db, advisory, steps | Proper(db) && Valid(Start(db, advisory), steps) && GroupedBut(steps, r)
        ensures Run(Start(db, advisory), steps).db == Replay(db, Run(Start(db, advisory), steps).log)
      {
        SerialEquivalence(db, advisory, steps);
      }
    } else {
      EmptyIsProper();
      var steps, s := OneBareRegistrationSuffices(r, true);
      assert Run(Start(EMPTY, true), steps) == s;
    }
  }
}
