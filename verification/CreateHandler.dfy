/**
 CreateNotification (internal/dispatch/notifications.go): one atomic insert decides who owns an
 idempotency key; only the winner enqueues the fanout.
 */
module CreateHandler {
  import opened Prelude
  import opened Store

  datatype Request = Request(project: Id, key: Option<string>, spec: TargetSpec)

  /** Done(None) is an error returned to the caller. */
  datatype Pc = Insert | SelectExisting | EnqueueFanout(id: Id) | Done(result: Option<Id>)

  /** `up`: the statement succeeds; `applied`: a failing one took effect all the same. */
  datatype Reply = Reply(up: bool, applied: bool, freshId: Id)

  /** `fanouts` counts the fanout tasks ever enqueued for a notification. */
  datatype State = State(t: Tables, fanouts: multiset<Id>, pc: Pc)

  predicate NoTargets(spec: TargetSpec) {
    spec.Malformed? || (|spec.deviceIds| == 0 && |spec.externalIds| == 0)
  }

  predicate Enabled(s: State, r: Reply) {
    !s.pc.Done? && (s.pc.Insert? ==> r.freshId !in s.t.notifications)
  }

  function Step(req: Request, s: State, r: Reply): State {
    var wrote := r.up || r.applied;
    match s.pc
    case Insert =>
      if NoTargets(req.spec) then s.(pc := Done(None))
      else if KeyTaken(s.t, req.project, req.key) then s.(pc := if r.up then SelectExisting else Done(None))
      else s.(t := if wrote then InsertNotification(s.t, r.freshId, req.project, req.key, req.spec) else s.t,
              pc := if r.up then EnqueueFanout(r.freshId) else Done(None))
    case SelectExisting =>
      s.(pc := if r.up && KeyTaken(s.t, req.project, req.key)
               then Done(Some(s.t.keyIndex[(req.project, req.key.value)])) else Done(None))
    case EnqueueFanout(id) =>
      s.(fanouts := if wrote then s.fanouts + multiset{id} else s.fanouts,
         pc := if r.up then Done(Some(id)) else Done(None))
    case Done(_) => s
  }

  /** The call run to its end while nobody else acts; one reply per kind of statement. */
  function Drive(req: Request, s: State, insert: Reply, select: Reply, enqueue: Reply): State {
    var s1 := Step(req, s, insert);
    if s1.pc.SelectExisting? then Step(req, s1, select)
    else if s1.pc.EnqueueFanout? then Step(req, s1, enqueue)
    else s1
  }

  // ----- what a call does -----

  /** A request without targets is refused and leaves nothing behind. */
  lemma NoTargetsRefused(req: Request, s: State, insert: Reply, select: Reply, enqueue: Reply)
    requires s.pc == Insert && req.spec.Targets? && req.spec.deviceIds == [] && req.spec.externalIds == []
    ensures Drive(req, s, insert, select, enqueue) == s.(pc := Done(None))
  {
  }

  /** The request names targets. */
  predicate Aims(req: Request) {
    req.spec.Targets? && (req.spec.deviceIds != [] || req.spec.externalIds != [])
  }

  /**
   A new key, or none: the stored row has the request's project, key and targets, is pending with a
   total of 0, and its id is returned if its fanout was enqueued.
   */
  lemma NewIsStored(req: Request, s: State, insert: Reply, select: Reply, enqueue: Reply)
    requires s.pc == Insert && Aims(req) && insert.up
    requires req.key.Some? ==> (req.project, req.key.value) !in s.t.keyIndex
    ensures var s' := Drive(req, s, insert, select, enqueue);
      && s'.t == s.t.(
           notifications :=
             s.t.notifications[insert.freshId := Notification(req.project, req.key, req.spec, Pending, 0)],
           keyIndex := if req.key.Some? then s.t.keyIndex[(req.project, req.key.value) := insert.freshId]
                       else s.t.keyIndex)
      && s'.fanouts == (if enqueue.up || enqueue.applied then s.fanouts + multiset{insert.freshId} else s.fanouts)
      && s'.pc == Done(if enqueue.up then Some(insert.freshId) else None)
  {
  }

  /** A key that is taken: nothing changes, and the winner's id is returned. */
  lemma TakenIsFetched(req: Request, s: State, insert: Reply, select: Reply, enqueue: Reply)
    requires s.pc == Insert && Aims(req) && req.key.Some? && (req.project, req.key.value) in s.t.keyIndex
    ensures var s' := Drive(req, s, insert, select, enqueue);
      && s'.t == s.t && s'.fanouts == s.fanouts
      && s'.pc == Done(if insert.up && select.up then Some(s.t.keyIndex[(req.project, req.key.value)]) else None)
  {
  }

  /** An insert that fails is reported; it stored the row or it did not, and no fanout is enqueued. */
  lemma FailedInsert(req: Request, s: State, insert: Reply, select: Reply, enqueue: Reply)
    requires s.pc == Insert && Aims(req) && !insert.up
    requires req.key.Some? ==> (req.project, req.key.value) !in s.t.keyIndex
    ensures var s' := Drive(req, s, insert, select, enqueue);
      && s'.pc == Done(None) && s'.fanouts == s.fanouts
      && (!insert.applied ==> s'.t == s.t)
      && (insert.applied ==>
            s'.t.notifications
            == s.t.notifications[insert.freshId := Notification(req.project, req.key, req.spec, Pending, 0)])
  {
  }

  class FanoutClient {
    var fanouts: multiset<Id>

    method EnqueueFanout(id: Id, r: Reply) returns (ok: bool)
      modifies this
      ensures ok == r.up
      ensures fanouts == if r.up || r.applied then old(fanouts) + multiset{id} else old(fanouts)
    {
      if r.up || r.applied {
        fanouts := fanouts + multiset{id};
      }
      ok := r.up;
    }
  }

  method CreateNotification(db: Database, client: FanoutClient, req: Request,
                            insert: Reply, select: Reply, enqueue: Reply)
    returns (result: Option<Id>)
    modifies db, client
    ensures State(db.Snapshot(), client.fanouts, Done(result))
         == Drive(req, State(old(db.Snapshot()), old(client.fanouts), Insert), insert, select, enqueue)
  {
    if NoTargets(req.spec) {
      return None;
    }
    var conflict := KeyTaken(db.Snapshot(), req.project, req.key);
    if insert.up || insert.applied {
      var _ := db.ExecInsertNotification(insert.freshId, req.project, req.key, req.spec);
    }
    if !insert.up {
      return None;
    }
    if conflict {
      return if select.up then Some(db.keyIndex[(req.project, req.key.value)]) else None;
    }
    var ok := client.EnqueueFanout(insert.freshId, enqueue);
    return if ok then Some(insert.freshId) else None;
  }

  /** A status that no row has is not in the map. */
  function Lookup(counts: map<Status, nat>, s: Status): nat {
    if s in counts then counts[s] else 0
  }

  /** The grouped count rows as a map: it gives every status the number of its rows. */
  method RecipientStatusCounts(rows: seq<(Status, nat)>, ghost t: Tables, ghost n: Id)
    returns (counts: map<Status, nat>)
    requires IsGrouping(t, n, rows)
    ensures forall s :: Lookup(counts, s) == CountOf(t, n, s)
    ensures forall s :: s in counts <==> CountOf(t, n, s) > 0
  {
    counts := map[];
    for k := 0 to |rows|
      invariant forall s :: s in counts <==> exists i :: 0 <= i < k && rows[i].0 == s
      invariant forall i :: 0 <= i < k ==> rows[i].0 in counts && counts[rows[i].0] == rows[i].1
    {
      counts := counts[rows[k].0 := rows[k].1];
    }
  }
}
