/**
 HandleFanout (internal/dispatch/fanout_handler.go): resolve a notification's audience, give
 every device a recipient row and enqueue one send task per row.

 `Step` is one atomic statement of a run, which may fail with or without having taken effect,
 so a run can stop anywhere. `HandleFanout` is the handler itself; it hands back the path of
 steps it took, and says directly what a run leaves behind.
 */
module FanoutHandler {
  import opened Prelude
  import opened Store
  import opened TaskQueue
  import opened SendQueue

  datatype Pc =
    | GetNotification
    | Resolve(spec: TargetSpec)
    | FetchDevices(ids: set<Id>)
    | Insert(devs: seq<DeviceRow>, i: nat)
    | Select(devs: seq<DeviceRow>, i: nat)
    | EnqueueOne(devs: seq<DeviceRow>, i: nat, recipient: Id)
    | SetTotals(devs: seq<DeviceRow>)
    | SetProcessing(devs: seq<DeviceRow>)
    | MarkFailed
    | CompleteEmpty
    | Ended(ok: bool, devs: seq<DeviceRow>)

  /**
   The environment's answer to one statement: `up` if it succeeds, `applied` if a failing
   write took effect all the same; `groupIds`, `rows` and `freshId` are what a group lookup,
   the device query and the id default produce.
   */
  datatype Reply = Reply(up: bool, applied: bool, groupIds: set<Id>, rows: seq<DeviceRow>, freshId: Id)

  datatype State = State(t: Tables, q: Tasks, pc: Pc)

  const FAILED: Pc := Ended(false, [])

  function PayloadFor(notification: Id, project: Id, d: DeviceRow, recipient: Id): SendPayload {
    SendPayload(notification, recipient, d.id, project, d.provider, d.token)
  }

  /** What the reply must satisfy for the step to be one the database can take. */
  predicate Enabled(project: Id, s: State, r: Reply) {
    match s.pc
    case FetchDevices(ids) => IsFetchOf(s.t, project, ids, r.rows)
    case Insert(devs, i) => i < |devs| && r.freshId !in s.t.recipients
    case Select(devs, i) => i < |devs|
    case EnqueueOne(devs, i, _) => i < |devs|
    case Ended(_, _) => false
    case _ => true
  }

  function Advance(devs: seq<DeviceRow>, i: nat): Pc {
    if i < |devs| then Insert(devs, i) else SetTotals(devs)
  }

  /** Registry.Resolve: explicit ids win over groups; a spec with neither is an error. */
  function Targeted(t: Tables, project: Id, spec: TargetSpec, groupIds: set<Id>): Option<set<Id>> {
    if spec.Malformed? then None
    else if |spec.deviceIds| > 0 then Some(DevicesByIds(t, project, set d | d in spec.deviceIds))
    else if |spec.externalIds| > 0 then Some(groupIds)
    else None
  }

  function Step(n: Id, project: Id, s: State, r: Reply): State
    requires Enabled(project, s, r)
  {
    var t, q := s.t, s.q;
    var wrote := r.up || r.applied;
    match s.pc
    case GetNotification =>
      if r.up && n in t.notifications && t.notifications[n].project == project
      then s.(pc := Resolve(t.notifications[n].spec)) else s.(pc := FAILED)
    case Resolve(spec) =>
      var ids := Targeted(t, project, spec, r.groupIds);
      s.(pc := if !r.up || ids.None? then MarkFailed
               else if ids.value == {} then CompleteEmpty
               else FetchDevices(ids.value))
    case FetchDevices(_) =>
      s.(pc := if r.up then Advance(r.rows, 0) else FAILED)
    case Insert(devs, i) =>
      var conflict := (n, devs[i].id) in t.pairIndex;
      State(if wrote then InsertRecipient(t, r.freshId, n, devs[i].id, devs[i].provider) else t, q,
            if !r.up then FAILED else if conflict then Select(devs, i) else EnqueueOne(devs, i, r.freshId))
    case Select(devs, i) =>
      s.(pc := if r.up && (n, devs[i].id) in t.pairIndex
               then EnqueueOne(devs, i, t.pairIndex[(n, devs[i].id)]) else FAILED)
    case EnqueueOne(devs, i, recipient) =>
      State(t, if wrote then Enqueue(q, PayloadFor(n, project, devs[i], recipient)) else q,
            if r.up then Advance(devs, i + 1) else FAILED)
    case SetTotals(devs) =>
      State(if wrote then SetNotificationTotals(t, n, |devs|) else t, q,
            if r.up then SetProcessing(devs) else FAILED)
    case SetProcessing(devs) =>
      State(if wrote then SetNotificationStatus(t, n, Processing) else t, q, if r.up then Ended(true, devs) else FAILED)
    case MarkFailed =>
      State(if wrote then SetNotificationStatus(t, n, NotificationStatus.Failed) else t, q, FAILED)
    case CompleteEmpty =>
      State(if wrote then SetNotificationStatus(t, n, Completed) else t, q, Ended(r.up, []))
  }

  /** What a step makes of the tables. */
  function TablesAfter(n: Id, s: State, r: Reply): Tables
    requires s.pc.Insert? ==> s.pc.i < |s.pc.devs|
  {
    if !r.up && !r.applied then s.t
    else
      match s.pc
      case Insert(devs, i) => InsertRecipient(s.t, r.freshId, n, devs[i].id, devs[i].provider)
      case SetTotals(devs) => SetNotificationTotals(s.t, n, |devs|)
      case SetProcessing(_) => SetNotificationStatus(s.t, n, Processing)
      case MarkFailed => SetNotificationStatus(s.t, n, NotificationStatus.Failed)
      case CompleteEmpty => SetNotificationStatus(s.t, n, Completed)
      case _ => s.t
  }

  lemma StepTables(n: Id, project: Id, s: State, r: Reply)
    requires Enabled(project, s, r)
    ensures Step(n, project, s, r).t == TablesAfter(n, s, r)
  {
  }

  // ----- the handler -----

  ghost predicate IsPath(n: Id, project: Id, path: seq<State>, replies: seq<Reply>) {
    && |path| == |replies| + 1
    && forall i :: 0 <= i < |replies| ==>
         Enabled(project, path[i], replies[i]) && path[i + 1] == Step(n, project, path[i], replies[i])
  }

  /** Some solo run of the step machine leads from `s` to `s'`. */
  ghost predicate Reaches(n: Id, project: Id, s: State, s': State) {
    exists path, replies :: IsPath(n, project, path, replies) && path[0] == s && path[|path| - 1] == s'
  }

  lemma ReachesSelf(n: Id, project: Id, s: State)
    ensures Reaches(n, project, s, s)
  {
    assert IsPath(n, project, [s], []);
  }

  lemma ReachesStep(n: Id, project: Id, s: State, s': State, r: Reply)
    requires Reaches(n, project, s, s') && Enabled(project, s', r)
    ensures Reaches(n, project, s, Step(n, project, s', r))
  {
    var path, replies :| IsPath(n, project, path, replies) && path[0] == s && path[|path| - 1] == s';
    var longer := path + [Step(n, project, s', r)];
    assert IsPath(n, project, longer, replies + [r]);
    assert longer[0] == s && longer[|longer| - 1] == Step(n, project, s', r);
  }

  /** Which statements fail, per device inside the loop. */
  datatype Faults = Faults(
    notificationUp: bool, resolveUp: bool, groupIds: set<Id>, devicesUp: bool,
    insertUp: nat -> bool, selectUp: nat -> bool, enqueue: nat -> EnqueueReply,
    totalsUp: bool, statusUp: bool)

  /** The two index-to-row directions of the (notification_id, device_id) constraint. */
  ghost predicate PairsUnique(t: Tables) {
    && (forall r :: r in t.recipients ==>
          var key := (t.recipients[r].notification, t.recipients[r].device);
          key in t.pairIndex && t.pairIndex[key] == r)
    && (forall key :: key in t.pairIndex ==>
          && t.pairIndex[key] in t.recipients
          && t.recipients[t.pairIndex[key]].notification == key.0
          && t.recipients[t.pairIndex[key]].device == key.1)
  }

  /** Rows and tasks are only ever added, never altered. */
  ghost predicate OnlyGrows(t: Tables, q: Tasks, t': Tables, q': Tasks) {
    && (forall r :: r in t.recipients ==> r in t'.recipients && t'.recipients[r] == t.recipients[r])
    && (forall key :: key in t.pairIndex ==> key in t'.pairIndex && t'.pairIndex[key] == t.pairIndex[key])
    && (forall k :: k in q ==> k in q' && q'[k] == q[k])
    && t'.devices == t.devices && t'.keyIndex == t.keyIndex
  }

  /** The device has a row for the notification, and that row's task id is taken. */
  ghost predicate Served(t: Tables, q: Tasks, n: Id, d: DeviceRow) {
    (n, d.id) in t.pairIndex && TaskKey(d.provider, t.pairIndex[(n, d.id)]) in q
  }

  lemma GrowsOn(t0: Tables, q0: Tasks, t1: Tables, q1: Tasks, t2: Tables, q2: Tasks)
    requires OnlyGrows(t0, q0, t1, q1) && OnlyGrows(t1, q1, t2, q2)
    ensures OnlyGrows(t0, q0, t2, q2)
  {
  }

  lemma StillServed(t: Tables, q: Tasks, t': Tables, q': Tasks, n: Id, devs: seq<DeviceRow>)
    requires OnlyGrows(t, q, t', q')
    requires forall j :: 0 <= j < |devs| ==> Served(t, q, n, devs[j])
    ensures forall j :: 0 <= j < |devs| ==> Served(t', q', n, devs[j])
  {
  }

  /** `d` is the device row as it stands in the table, and one of the project. */
  predicate IsRowOf(t: Tables, project: Id, d: DeviceRow) {
    && d.id in t.devices && t.devices[d.id].project == project
    && d == DeviceRow(d.id, t.devices[d.id].provider, t.devices[d.id].token)
  }

  /** A recipient row as a run of the notification inserts it. */
  predicate NewRow(t: Tables, n: Id, project: Id, row: Recipient) {
    && row.device in t.devices && t.devices[row.device].project == project
    && row == Recipient(n, row.device, t.devices[row.device].provider, Queued, None, None, 0)
  }

  /** A send task as a run of the notification enqueues it. */
  predicate NewTask(t: Tables, n: Id, project: Id, k: TaskKey, task: SendTask) {
    && k.recipient in t.recipients && t.recipients[k.recipient].notification == n
    && var d := t.recipients[k.recipient].device;
       && d in t.devices && k.queue == t.devices[d].provider
       && task == SendTask(SendPayload(n, k.recipient, d, project, t.devices[d].provider, t.devices[d].token),
                           0, Waiting, 0, 0)
  }

  /** Whatever was added since `t0` and `q0` is right. */
  ghost predicate Additions(t0: Tables, q0: Tasks, t: Tables, q: Tasks, n: Id, project: Id) {
    && (forall r :: r in t.recipients && r !in t0.recipients ==> NewRow(t, n, project, t.recipients[r]))
    && (forall k :: k in q && k !in q0 ==> NewTask(t, n, project, k, q[k]))
  }

  lemma InsertAdds(t0: Tables, q0: Tasks, t: Tables, q: Tasks, n: Id, project: Id, id: Id, d: DeviceRow)
    requires Additions(t0, q0, t, q, n, project) && id !in t.recipients && IsRowOf(t, project, d)
    ensures Additions(t0, q0, InsertRecipient(t, id, n, d.id, d.provider), q, n, project)
  {
  }

  lemma EnqueueAdds(t0: Tables, q0: Tasks, t: Tables, q: Tasks, n: Id, project: Id, r: Id, d: DeviceRow)
    requires Additions(t0, q0, t, q, n, project) && IsRowOf(t, project, d)
    requires r in t.recipients && t.recipients[r].notification == n && t.recipients[r].device == d.id
    ensures Additions(t0, q0, t, Enqueue(q, PayloadFor(n, project, d, r)), n, project)
  {
  }

  lemma FetchedAreRows(t: Tables, project: Id, ids: set<Id>, rows: seq<DeviceRow>)
    requires IsFetchOf(t, project, ids, rows)
    ensures forall i :: 0 <= i < |rows| ==> IsRowOf(t, project, rows[i])
  {
  }

  /** What a run alone has done since `s0`, and what its cursor may rely on. */
  ghost predicate Adding(n: Id, project: Id, s0: State, s: State) {
    && PairsUnique(s.t) && Additions(s0.t, s0.q, s.t, s.q, n, project)
    && (s.pc.Insert? || s.pc.Select? || s.pc.EnqueueOne? ==>
          forall i :: 0 <= i < |s.pc.devs| ==> IsRowOf(s.t, project, s.pc.devs[i]))
    && (s.pc.EnqueueOne? && s.pc.i < |s.pc.devs| ==>
          && s.pc.recipient in s.t.recipients && s.t.recipients[s.pc.recipient].notification == n
          && s.t.recipients[s.pc.recipient].device == s.pc.devs[s.pc.i].id)
  }

  lemma OtherAdds(n: Id, project: Id, s0: State, s: State, s': State)
    requires Adding(n, project, s0, s) && s'.q == s.q
    requires s'.t.recipients == s.t.recipients && s'.t.pairIndex == s.t.pairIndex && s'.t.devices == s.t.devices
    requires s'.pc.Insert? || s'.pc.Select? || s'.pc.EnqueueOne? ==>
               forall i :: 0 <= i < |s'.pc.devs| ==> IsRowOf(s.t, project, s'.pc.devs[i])
    requires s'.pc.EnqueueOne? && s'.pc.i < |s'.pc.devs| ==>
               && (n, s'.pc.devs[s'.pc.i].id) in s.t.pairIndex
               && s.t.pairIndex[(n, s'.pc.devs[s'.pc.i].id)] == s'.pc.recipient
    ensures Adding(n, project, s0, s')
  {
  }

  lemma InsertStepAdds(n: Id, project: Id, s0: State, s: State, r: Reply)
    requires Adding(n, project, s0, s) && Enabled(project, s, r) && s.pc.Insert?
    ensures Adding(n, project, s0, Step(n, project, s, r))
  {
    InsertAdds(s0.t, s0.q, s.t, s.q, n, project, r.freshId, s.pc.devs[s.pc.i]);
  }

  lemma EnqueueStepAdds(n: Id, project: Id, s0: State, s: State, r: Reply)
    requires Adding(n, project, s0, s) && Enabled(project, s, r) && s.pc.EnqueueOne?
    ensures Adding(n, project, s0, Step(n, project, s, r))
  {
    EnqueueAdds(s0.t, s0.q, s.t, s.q, n, project, s.pc.recipient, s.pc.devs[s.pc.i]);
  }

  lemma StepAdds(n: Id, project: Id, s0: State, s: State, r: Reply)
    requires Adding(n, project, s0, s) && Enabled(project, s, r)
    ensures Adding(n, project, s0, Step(n, project, s, r))
  {
    match s.pc
    case Insert(_, _) => InsertStepAdds(n, project, s0, s, r);
    case EnqueueOne(_, _, _) => EnqueueStepAdds(n, project, s0, s, r);
    case FetchDevices(ids) =>
      FetchedAreRows(s.t, project, ids, r.rows);
      OtherAdds(n, project, s0, s, Step(n, project, s, r));
    case _ => OtherAdds(n, project, s0, s, Step(n, project, s, r));
  }

  lemma {:induction false} PathAdds(n: Id, project: Id, s0: State, path: seq<State>, replies: seq<Reply>, i: nat)
    requires IsPath(n, project, path, replies) && i < |path| && Adding(n, project, s0, path[0])
    ensures Adding(n, project, s0, path[i])
  {
    if i > 0 {
      PathAdds(n, project, s0, path, replies, i - 1);
      StepAdds(n, project, s0, path[i - 1], replies[i - 1]);
    }
  }

  lemma ReachesAdds(n: Id, project: Id, s0: State, s: State)
    requires Reaches(n, project, s0, s) && PairsUnique(s0.t) && s0.pc == GetNotification
    ensures Additions(s0.t, s0.q, s.t, s.q, n, project)
  {
    var path, replies :| IsPath(n, project, path, replies) && path[0] == s0 && path[|path| - 1] == s;
    PathAdds(n, project, s0, path, replies, |path| - 1);
  }

  /** No statement of the run fails. */
  predicate AllUp(f: Faults) {
    f.notificationUp && f.resolveUp && f.devicesUp && f.totalsUp && f.statusUp
  }

  /** Nor, for the device at `i`, one of the loop. */
  predicate TurnUp(f: Faults, i: nat) {
    f.insertUp(i) && f.selectUp(i) && f.enqueue(i).Accepted?
  }

  /** The notification is there and of the payload's project. */
  predicate Known(t: Tables, n: Id, project: Id) {
    n in t.notifications && t.notifications[n].project == project
  }

  /** The stored targets name nobody at all, or do not parse. */
  predicate Untargeted(spec: TargetSpec) {
    spec.Malformed? || (spec.deviceIds == [] && spec.externalIds == [])
  }

  /** Explicit device ids take precedence over groups. */
  predicate Wanted(spec: TargetSpec, groupIds: set<Id>, d: Id) {
    spec.Targets? && if spec.deviceIds != [] then d in spec.deviceIds else spec.externalIds != [] && d in groupIds
  }

  /** The targets resolve to no id: no explicit one is a device of the project, or the group is empty. */
  ghost predicate Nobody(t: Tables, project: Id, spec: TargetSpec, groupIds: set<Id>) {
    forall d :: Wanted(spec, groupIds, d) ==>
      spec.Targets? && spec.deviceIds != [] && !(d in t.devices && t.devices[d].project == project)
  }

  lemma NobodyTargeted(t: Tables, project: Id, spec: TargetSpec, groupIds: set<Id>)
    ensures Targeted(t, project, spec, groupIds).None? <==> Untargeted(spec)
    ensures !Untargeted(spec) ==>
              (Targeted(t, project, spec, groupIds).value == {} <==> Nobody(t, project, spec, groupIds))
  {
    if !Untargeted(spec) {
      var ids := Targeted(t, project, spec, groupIds).value;
      if !Nobody(t, project, spec, groupIds) {
        var d :|
          Wanted(spec, groupIds, d) && !(spec.deviceIds != [] && !(d in t.devices && t.devices[d].project == project));
        assert d in ids;
      }
      if d :| d in ids {
        assert Wanted(spec, groupIds, d);
      }
    }
  }

  const QUIET: Reply := Reply(true, false, {}, [], 0)

  method ResolveTargets(db: Database, project: Id, spec: TargetSpec, f: Faults)
    returns (ids: Option<set<Id>>)
    ensures ids == if f.resolveUp then Targeted(db.Snapshot(), project, spec, f.groupIds) else None
  {
    if spec.Malformed? || !f.resolveUp {
      return None;
    }
    if |spec.deviceIds| > 0 {
      return Some(DevicesByIds(db.Snapshot(), project, set d | d in spec.deviceIds));
    }
    if |spec.externalIds| > 0 {
      return Some(f.groupIds);
    }
    return None;
  }

  /** `newId` is an id no row uses, for the id default of the insert. */
  method GetOrCreateRecipient(db: Database, n: Id, d: DeviceRow, newId: Id, insertUp: bool, selectUp: bool)
    returns (recipient: Option<Id>, inserted: bool)
    requires newId !in db.recipients && PairsUnique(db.Snapshot())
    modifies db
    ensures PairsUnique(db.Snapshot())
    ensures db.Snapshot() == if insertUp then InsertRecipient(old(db.Snapshot()), newId, n, d.id, d.provider)
                             else old(db.Snapshot())
    ensures inserted <==> insertUp && (n, d.id) !in old(db.pairIndex)
    ensures recipient.Some? <==> inserted || (insertUp && selectUp)
    ensures recipient.Some? ==> (n, d.id) in db.pairIndex && db.pairIndex[(n, d.id)] == recipient.value
  {
    var ok;
    ok, inserted := db.ExecInsertRecipient(newId, n, d.id, d.provider, insertUp);
    if inserted {
      return Some(newId), true;
    }
    if !ok || !selectUp {
      return None, false;
    }
    return Some(db.pairIndex[(n, d.id)]), false;
  }

  /** One turn of the loop: the device's row, then its send task. */
  method FanoutDevice(db: Database, client: Client, n: Id, project: Id, devs: seq<DeviceRow>, i: nat, f: Faults,
                      newId: Id, ghost s0: State)
    returns (ok: bool)
    requires i < |devs| && newId !in db.recipients && PairsUnique(db.Snapshot())
    requires Reaches(n, project, s0, State(db.Snapshot(), client.tasks, Insert(devs, i)))
    modifies db, client
    ensures PairsUnique(db.Snapshot()) && db.notifications == old(db.notifications)
    ensures OnlyGrows(old(db.Snapshot()), old(client.tasks), db.Snapshot(), client.tasks)
    ensures TurnUp(f, i) ==> ok
    ensures forall r :: r in db.recipients ==> r in old(db.recipients) || r == newId
    ensures Reaches(n, project, s0, State(db.Snapshot(), client.tasks, if ok then Advance(devs, i + 1) else FAILED))
    ensures ok ==> Served(db.Snapshot(), client.tasks, n, devs[i])
  {
    ghost var s := State(db.Snapshot(), client.tasks, Insert(devs, i));
    var recipient, inserted := GetOrCreateRecipient(db, n, devs[i], newId, f.insertUp(i), f.selectUp(i));
    ghost var r := QUIET.(up := f.insertUp(i), freshId := newId);
    ReachesStep(n, project, s0, s, r);
    s := Step(n, project, s, r);
    if f.insertUp(i) && !inserted {
      r := QUIET.(up := f.selectUp(i));
      ReachesStep(n, project, s0, s, r);
      s := Step(n, project, s, r);
    }
    if recipient.None? {
      return false;
    }
    ok := client.EnqueueSend(PayloadFor(n, project, devs[i], recipient.value), f.enqueue(i));
    ReachesStep(n, project, s0, s, QUIET.(up := f.enqueue(i).Accepted?, applied := f.enqueue(i).LostReply?));
  }

  /** Everything before the loop; None when the run ends there. */
  method FetchAudience(db: Database, client: Client, n: Id, project: Id, f: Faults, ghost s0: State)
    returns (devs: Option<seq<DeviceRow>>, ok: bool)
    requires s0 == State(db.Snapshot(), client.tasks, GetNotification)
    modifies db
    ensures devs.Some? ==> db.Snapshot() == old(db.Snapshot()) && Known(db.Snapshot(), n, project)
    ensures devs.Some? ==> forall i, j :: 0 <= i < j < |devs.value| ==> devs.value[i].id != devs.value[j].id
    ensures devs.Some? ==>
              forall d :: d in RowIds(devs.value) <==>
                Wanted(db.notifications[n].spec, f.groupIds, d) && d in db.devices && db.devices[d].project == project
    ensures !f.notificationUp || !Known(old(db.Snapshot()), n, project) ==>
              devs.None? && !ok && db.Snapshot() == old(db.Snapshot())
    ensures AllUp(f) && Known(old(db.Snapshot()), n, project) ==>
              var note := old(db.notifications)[n];
              && (Untargeted(note.spec) ==>
                    devs.None? && !ok
                    && db.notifications == old(db.notifications)[n := note.(status := NotificationStatus.Failed)])
              && (!Untargeted(note.spec) && Nobody(old(db.Snapshot()), project, note.spec, f.groupIds) ==>
                    devs.None? && ok
                    && db.notifications == old(db.notifications)[n := note.(status := Completed)])
              && (!Untargeted(note.spec) && !Nobody(old(db.Snapshot()), project, note.spec, f.groupIds) ==> devs.Some?)
    ensures OnlyGrows(old(db.Snapshot()), client.tasks, db.Snapshot(), client.tasks)
    ensures db.recipients == old(db.recipients) && db.pairIndex == old(db.pairIndex)
    ensures Reaches(n, project, s0, State(db.Snapshot(), client.tasks,
                                          if devs.Some? then Advance(devs.value, 0) else Ended(ok, [])))
  {
    ReachesSelf(n, project, s0);
    ghost var s := s0;
    ghost var r := QUIET.(up := f.notificationUp);
    ReachesStep(n, project, s0, s, r);
    s := Step(n, project, s, r);
    if !f.notificationUp || n !in db.notifications || db.notifications[n].project != project {
      return None, false;
    }
    NobodyTargeted(db.Snapshot(), project, db.notifications[n].spec, f.groupIds);
    var ids := ResolveTargets(db, project, db.notifications[n].spec, f);
    r := QUIET.(up := f.resolveUp, groupIds := f.groupIds);
    ReachesStep(n, project, s0, s, r);
    s := Step(n, project, s, r);
    if ids.None? {
      ReachesStep(n, project, s0, s, QUIET.(up := f.statusUp));
      var _ := db.ExecSetNotificationStatus(n, NotificationStatus.Failed, f.statusUp);
      return None, false;
    }
    if ids.value == {} {
      ReachesStep(n, project, s0, s, QUIET.(up := f.statusUp));
      ok := db.ExecSetNotificationStatus(n, Completed, f.statusUp);
      return None, ok;
    }
    var rows := db.QueryDevicesByIds(project, ids.value);
    ReachesStep(n, project, s0, s, QUIET.(up := f.devicesUp, rows := rows));
    if !f.devicesUp {
      return None, false;
    }
    return Some(rows), true;
  }

  /** The loop over the fetched devices. */
  method ServeAll(db: Database, client: Client, n: Id, project: Id, devs: seq<DeviceRow>, f: Faults,
                  nextId: Id, ghost s0: State)
    returns (ok: bool, enqueued: nat)
    requires PairsUnique(db.Snapshot())
    requires forall r :: r in db.recipients ==> r < nextId
    requires Reaches(n, project, s0, State(db.Snapshot(), client.tasks, Advance(devs, 0)))
    modifies db, client
    ensures Reaches(n, project, s0, State(db.Snapshot(), client.tasks, if ok then SetTotals(devs) else FAILED))
    ensures PairsUnique(db.Snapshot())
    ensures OnlyGrows(old(db.Snapshot()), old(client.tasks), db.Snapshot(), client.tasks)
    ensures db.notifications == old(db.notifications)
    ensures (forall i :: 0 <= i < |devs| ==> TurnUp(f, i)) ==> ok
    ensures ok ==> enqueued == |devs|
    ensures ok ==> forall j :: 0 <= j < |devs| ==> Served(db.Snapshot(), client.tasks, n, devs[j])
  {
    enqueued := 0;
    for i := 0 to |devs|
      invariant enqueued == i
      invariant Reaches(n, project, s0, State(db.Snapshot(), client.tasks, Advance(devs, i)))
      invariant PairsUnique(db.Snapshot())
      invariant OnlyGrows(old(db.Snapshot()), old(client.tasks), db.Snapshot(), client.tasks)
      invariant db.notifications == old(db.notifications)
      invariant forall r :: r in db.recipients ==> r < nextId + i
      invariant forall j :: 0 <= j < i ==> Served(db.Snapshot(), client.tasks, n, devs[j])
    {
      ghost var t1, q1 := db.Snapshot(), client.tasks;
      ok := FanoutDevice(db, client, n, project, devs, i, f, nextId + i, s0);
      GrowsOn(old(db.Snapshot()), old(client.tasks), t1, q1, db.Snapshot(), client.tasks);
      if !ok {
        return;
      }
      enqueued := enqueued + 1;
      StillServed(t1, q1, db.Snapshot(), client.tasks, n, devs[..i]);
      forall j | 0 <= j < i + 1 ensures Served(db.Snapshot(), client.tasks, n, devs[j]) {
        assert j < i ==> devs[..i][j] == devs[j];
      }
    }
    ok := true;
  }

  method RecordTotals(db: Database, client: Client, n: Id, project: Id, devs: seq<DeviceRow>, enqueued: nat,
                      f: Faults, ghost s0: State)
    returns (ok: bool)
    requires enqueued == |devs|
    requires Reaches(n, project, s0, State(db.Snapshot(), client.tasks, SetTotals(devs)))
    modifies db
    ensures Reaches(n, project, s0, State(db.Snapshot(), client.tasks, Ended(ok, if ok then devs else [])))
    ensures db.recipients == old(db.recipients) && db.pairIndex == old(db.pairIndex)
    ensures db.devices == old(db.devices) && db.keyIndex == old(db.keyIndex)
    ensures ok <==> f.totalsUp && f.statusUp
    ensures ok && n in old(db.notifications) ==>
              db.notifications
              == old(db.notifications)[n := old(db.notifications)[n].(total := enqueued, status := Processing)]
  {
    ReachesStep(n, project, s0, State(db.Snapshot(), client.tasks, SetTotals(devs)), QUIET.(up := f.totalsUp));
    ok := db.ExecSetNotificationTotals(n, enqueued, f.totalsUp);
    if !ok {
      return;
    }
    ReachesStep(n, project, s0, State(db.Snapshot(), client.tasks, SetProcessing(devs)), QUIET.(up := f.statusUp));
    ok := db.ExecSetNotificationStatus(n, Processing, f.statusUp);
  }

  /**
   `nextId` is an id above every row's, for the id default of the inserts. Any run only adds rows
   and tasks: rows as new ones are, for devices of the project and with their provider, and tasks
   that name the row, its device and that one's project, queue and token.
   */
  method HandleFanout(db: Database, client: Client, n: Id, project: Id, f: Faults, nextId: Id)
    returns (ok: bool, devs: seq<DeviceRow>)
    requires PairsUnique(db.Snapshot())
    requires forall r :: r in db.recipients ==> r < nextId
    modifies db, client
    ensures Reaches(n, project, State(old(db.Snapshot()), old(client.tasks), GetNotification),
                    State(db.Snapshot(), client.tasks, Ended(ok, if ok then devs else [])))
    ensures PairsUnique(db.Snapshot())
    ensures OnlyGrows(old(db.Snapshot()), old(client.tasks), db.Snapshot(), client.tasks)
    // every device gone over has its row and a task in its queue
    ensures ok ==> forall i :: 0 <= i < |devs| ==>
              && (n, devs[i].id) in db.pairIndex
              && TaskKey(devs[i].provider, db.pairIndex[(n, devs[i].id)]) in client.tasks
    // what was added
    ensures forall r :: r in db.recipients && r !in old(db.recipients) ==>
              var row := db.recipients[r];
              && row.device in db.devices && db.devices[row.device].project == project
              && row == Recipient(n, row.device, db.devices[row.device].provider, Queued, None, None, 0)
    ensures forall k :: k in client.tasks && k !in old(client.tasks) ==>
              && k.recipient in db.recipients && db.recipients[k.recipient].notification == n
              && var d := db.recipients[k.recipient].device;
                 && d in db.devices && k.queue == db.devices[d].provider
                 && client.tasks[k] == SendTask(
                      SendPayload(n, k.recipient, d, project, db.devices[d].provider, db.devices[d].token),
                      0, Waiting, 0, 0)
    // how it ends
    ensures !f.notificationUp || !Known(old(db.Snapshot()), n, project) ==>
              !ok && db.Snapshot() == old(db.Snapshot()) && client.tasks == old(client.tasks)
    ensures AllUp(f) && (forall i :: TurnUp(f, i)) && Known(old(db.Snapshot()), n, project) ==>
              var note := old(db.notifications)[n];
              && (Untargeted(note.spec) ==>
                    !ok && db.notifications == old(db.notifications)[n := note.(status := NotificationStatus.Failed)])
              && (!Untargeted(note.spec) && Nobody(old(db.Snapshot()), project, note.spec, f.groupIds) ==>
                    ok && devs == [] && db.notifications == old(db.notifications)[n := note.(status := Completed)])
              && (!Untargeted(note.spec) && !Nobody(old(db.Snapshot()), project, note.spec, f.groupIds) ==>
                    && ok && db.notifications == old(db.notifications)[n := note.(total := |devs|, status := Processing)]
                    && (forall i, j :: 0 <= i < j < |devs| ==> devs[i].id != devs[j].id)
                    && forall d :: d in RowIds(devs) <==>
                         Wanted(note.spec, f.groupIds, d) && d in db.devices && db.devices[d].project == project)
  {
    ghost var t0, q0 := db.Snapshot(), client.tasks;
    ghost var s0 := State(t0, q0, GetNotification);
    var audience;
    audience, ok := FetchAudience(db, client, n, project, f, s0);
    if audience.None? {
      return ok, [];
    }
    devs := audience.value;

    var enqueued;
    ok, enqueued := ServeAll(db, client, n, project, devs, f, nextId, s0);
    if ok {
      ok := RecordTotals(db, client, n, project, devs, enqueued, f, s0);
    }
    ReachesAdds(n, project, s0, State(db.Snapshot(), client.tasks, Ended(ok, if ok then devs else [])));
  }
}
