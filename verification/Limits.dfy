/**
 Where the guarantees end: reachable states that break Guarantees and Outcomes where devices
 change provider, acceptances or failures go unrecorded, throttles count as failures, or the
 audience changes between fanout runs.
 */
module Limits {
  import opened Prelude
  import opened Store
  import opened TaskQueue
  import opened SendQueue
  import opened Pipeline
  import opened Guarantees
  import opened Outcomes
  import opened Traces
  import SendHandler
  import FanoutHandler
  import CreateHandler
  import Lifecycle
  import Simulation

  /** A notification for the group "u"; who is in the group may change. */
  const SPEC: TargetSpec := Targets([], ["u"])
  const ROW: Notification := Notification(0, Some("k"), SPEC, Pending, 0)
  const REQUEST: CreateHandler.Request := CreateHandler.Request(0, Some("k"), SPEC)

  function Phone(p: Provider): Device {
    Device(0, "t", p, DeviceStatus.Active)
  }

  function PhoneRow(id: Id, p: Provider): DeviceRow {
    DeviceRow(id, p, "t")
  }

  function PushTo(r: Id, p: Provider): SendPayload {
    SendPayload(0, r, r, 0, p, "t")
  }

  function Key(p: Provider): TaskKey {
    TaskKey(p, 0)
  }

  function NewRow(device: Id): Recipient {
    Recipient(0, device, Fcm, Queued, None, None, 0)
  }

  function NewTask(r: Id, p: Provider): SendTask {
    SendTask(PushTo(r, p), 0, Waiting, 0, 0)
  }

  // ----- creating the notification -----

  const YES: CreateHandler.Reply := CreateHandler.Reply(true, false, 0)

  function Created(policy: FailurePolicy): World {
    World(Tables(map[0 := ROW], map[(0, "k") := 0], map[], map[], map[0 := Phone(Fcm)]), map[], map[],
          map[0 := CreateCall(REQUEST, CreateHandler.Done(Some(0)))],
          Start(policy).h.(fanouts := multiset{0}, owner := map[0 := 0]), policy)
  }

  /** The create call under way, the device registered. */
  function Creating(policy: FailurePolicy, t: Tables, pc: CreateHandler.Pc, h: History): World {
    Start(policy).(t := t.(devices := map[0 := Phone(Fcm)]), calls := map[0 := CreateCall(REQUEST, pc)], h := h)
  }

  lemma CreateBegins(policy: FailurePolicy)
    ensures Leads(Start(policy), Creating(policy, Start(policy).t, CreateHandler.Insert, Start(policy).h), false)
  {
    var w0 := Start(policy);
    LeadsToSelf(w0, false);
    LeadsOn(w0, w0, false, DeviceChange(0, Phone(Fcm)));
    var w1 := Apply(w0, DeviceChange(0, Phone(Fcm)));
    LeadsOn(w0, w1, false, CreateBegin(0, REQUEST));
    assert Apply(w1, CreateBegin(0, REQUEST)) == Creating(policy, w0.t, CreateHandler.Insert, w0.h);
  }

  lemma CreateInserts(policy: FailurePolicy)
    ensures Leads(Start(policy), Creating(policy, Created(policy).t, CreateHandler.EnqueueFanout(0),
                                          Start(policy).h.(owner := map[0 := 0])), false)
  {
    var w := Creating(policy, Start(policy).t, CreateHandler.Insert, Start(policy).h);
    CreateBegins(policy);
    LeadsOn(Start(policy), w, false, CreateStep(0, YES));
    assert Apply(w, CreateStep(0, YES)) == Creating(policy, Created(policy).t, CreateHandler.EnqueueFanout(0),
                                                    Start(policy).h.(owner := map[0 := 0]));
  }

  lemma CreatedLeads(policy: FailurePolicy)
    ensures Leads(Start(policy), Created(policy), false)
  {
    var w := Creating(policy, Created(policy).t, CreateHandler.EnqueueFanout(0), Start(policy).h.(owner := map[0 := 0]));
    CreateInserts(policy);
    LeadsOn(Start(policy), w, false, CreateStep(0, YES));
    assert Apply(w, CreateStep(0, YES)) == Created(policy);
  }

  // ----- fanout runs of it -----

  const GO: FanoutHandler.Reply := FanoutHandler.Reply(true, false, {}, [], 0)

  /** `w` with fanout run `run` at `pc`. */
  function Fan(w: World, run: Id, t: Tables, q: Tasks, pc: FanoutHandler.Pc, h: History): World {
    w.(t := t, q := q, fanouts := w.fanouts[run := FanoutRun(0, 0, pc)], h := h)
  }

  predicate Enqueuing(pc: FanoutHandler.Pc, r: FanoutHandler.Reply) {
    pc.EnqueueOne? && (r.up || r.applied)
  }

  /** What the statement at `pc` adds to the history. */
  function FanHistory(pc: FanoutHandler.Pc, r: FanoutHandler.Reply, h: History): History
    requires pc.EnqueueOne? ==> pc.i < |pc.devs|
  {
    h.(enqueued := if Enqueuing(pc, r) then h.enqueued + {TaskKey(pc.devs[pc.i].provider, pc.recipient)} else h.enqueued,
       fetched := if pc.FetchDevices? && r.up then h.fetched + {(0, RowIds(r.rows))} else h.fetched)
  }

  lemma FanMoves(w: World, run: Id, t: Tables, q: Tasks, pc: FanoutHandler.Pc, h: History, r: FanoutHandler.Reply)
    requires FanoutHandler.Enabled(0, FanoutHandler.State(t, q, pc), r)
    ensures var s := FanoutHandler.Step(0, 0, FanoutHandler.State(t, q, pc), r);
      ApplyFanout(Fan(w, run, t, q, pc, h), run, r) == Fan(w, run, s.t, s.q, s.pc, FanHistory(pc, r, h))
  {
  }

  lemma Fans(w0: World, w: World, run: Id, t: Tables, q: Tasks, pc: FanoutHandler.Pc, h: History,
             r: FanoutHandler.Reply, s: FanoutHandler.State, h': History)
    requires Leads(w0, Fan(w, run, t, q, pc, h), false)
    requires FanoutHandler.Enabled(0, FanoutHandler.State(t, q, pc), r)
    requires s == FanoutHandler.Step(0, 0, FanoutHandler.State(t, q, pc), r) && h' == FanHistory(pc, r, h)
    ensures Leads(w0, Fan(w, run, s.t, s.q, s.pc, h'), false)
  {
    LeadsOn(w0, Fan(w, run, t, q, pc, h), false, FanoutStep(run, r));
    FanMoves(w, run, t, q, pc, h, r);
  }

  /** A run that finds the group to be `ids`. */
  lemma Resolves(w0: World, w: World, run: Id, ids: set<Id>)
    requires Leads(w0, w, false) && run !in w.fanouts && 0 in w.h.fanouts && 0 in w.t.notifications
    requires w.t.notifications[0].project == 0 && w.t.notifications[0].spec == SPEC && ids != {}
    ensures Leads(w0, Fan(w, run, w.t, w.q, FanoutHandler.FetchDevices(ids), w.h), false)
  {
    LeadsOn(w0, w, false, FanoutBegin(run, 0));
    assert Apply(w, FanoutBegin(run, 0)) == Fan(w, run, w.t, w.q, FanoutHandler.GetNotification, w.h);
    Fans(w0, w, run, w.t, w.q, FanoutHandler.GetNotification, w.h, GO,
         FanoutHandler.State(w.t, w.q, FanoutHandler.Resolve(SPEC)), w.h);
    Fans(w0, w, run, w.t, w.q, FanoutHandler.Resolve(SPEC), w.h, GO.(groupIds := ids),
         FanoutHandler.State(w.t, w.q, FanoutHandler.FetchDevices(ids)), w.h);
  }

  function Fetched(h: History, ids: set<Id>): History {
    h.(fetched := h.fetched + {(0, ids)})
  }

  lemma Fetches(w0: World, w: World, run: Id, rows: seq<DeviceRow>)
    requires rows != [] && IsFetchOf(w.t, 0, RowIds(rows), rows)
    requires Leads(w0, Fan(w, run, w.t, w.q, FanoutHandler.FetchDevices(RowIds(rows)), w.h), false)
    ensures Leads(w0, Fan(w, run, w.t, w.q, FanoutHandler.Insert(rows, 0), Fetched(w.h, RowIds(rows))), false)
  {
    Fans(w0, w, run, w.t, w.q, FanoutHandler.FetchDevices(RowIds(rows)), w.h, GO.(rows := rows),
         FanoutHandler.State(w.t, w.q, FanoutHandler.Insert(rows, 0)), Fetched(w.h, RowIds(rows)));
  }

  function Queued1(h: History, k: TaskKey): History {
    h.(enqueued := h.enqueued + {k})
  }

  /** A turn of the loop for a device without a row. */
  lemma ServesNew(w0: World, w: World, run: Id, t: Tables, q: Tasks, rows: seq<DeviceRow>, i: nat, h: History, r: Id)
    requires i < |rows| && r !in t.recipients && (0, rows[i].id) !in t.pairIndex
    requires Leads(w0, Fan(w, run, t, q, FanoutHandler.Insert(rows, i), h), false)
    ensures Leads(w0, Fan(w, run, InsertRecipient(t, r, 0, rows[i].id, rows[i].provider), q,
                          FanoutHandler.EnqueueOne(rows, i, r), h), false)
    ensures Leads(w0, Fan(w, run, InsertRecipient(t, r, 0, rows[i].id, rows[i].provider),
                          Enqueue(q, FanoutHandler.PayloadFor(0, 0, rows[i], r)),
                          FanoutHandler.Advance(rows, i + 1), Queued1(h, TaskKey(rows[i].provider, r))), false)
  {
    var t' := InsertRecipient(t, r, 0, rows[i].id, rows[i].provider);
    Fans(w0, w, run, t, q, FanoutHandler.Insert(rows, i), h, GO.(freshId := r),
         FanoutHandler.State(t', q, FanoutHandler.EnqueueOne(rows, i, r)), h);
    Enqueues(w0, w, run, t', q, rows, i, h, r);
  }

  lemma Enqueues(w0: World, w: World, run: Id, t: Tables, q: Tasks, rows: seq<DeviceRow>, i: nat, h: History, r: Id)
    requires i < |rows| && Leads(w0, Fan(w, run, t, q, FanoutHandler.EnqueueOne(rows, i, r), h), false)
    ensures Leads(w0, Fan(w, run, t, Enqueue(q, FanoutHandler.PayloadFor(0, 0, rows[i], r)),
                          FanoutHandler.Advance(rows, i + 1), Queued1(h, TaskKey(rows[i].provider, r))), false)
  {
    Fans(w0, w, run, t, q, FanoutHandler.EnqueueOne(rows, i, r), h, GO,
         FanoutHandler.State(t, Enqueue(q, FanoutHandler.PayloadFor(0, 0, rows[i], r)),
                             FanoutHandler.Advance(rows, i + 1)),
         Queued1(h, TaskKey(rows[i].provider, r)));
  }

  /** A turn of the loop for a device that has a row. */
  lemma ServesOld(w0: World, w: World, run: Id, t: Tables, q: Tasks, rows: seq<DeviceRow>, i: nat, h: History, r: Id,
                  unused: Id)
    requires i < |rows| && unused !in t.recipients && (0, rows[i].id) in t.pairIndex && t.pairIndex[(0, rows[i].id)] == r
    requires Leads(w0, Fan(w, run, t, q, FanoutHandler.Insert(rows, i), h), false)
    ensures Leads(w0, Fan(w, run, t, Enqueue(q, FanoutHandler.PayloadFor(0, 0, rows[i], r)),
                          FanoutHandler.Advance(rows, i + 1), Queued1(h, TaskKey(rows[i].provider, r))), false)
  {
    Fans(w0, w, run, t, q, FanoutHandler.Insert(rows, i), h, GO.(freshId := unused),
         FanoutHandler.State(t, q, FanoutHandler.Select(rows, i)), h);
    Fans(w0, w, run, t, q, FanoutHandler.Select(rows, i), h, GO,
         FanoutHandler.State(t, q, FanoutHandler.EnqueueOne(rows, i, r)), h);
    Enqueues(w0, w, run, t, q, rows, i, h, r);
  }

  lemma Totals(w0: World, w: World, run: Id, t: Tables, q: Tasks, rows: seq<DeviceRow>, h: History)
    requires Leads(w0, Fan(w, run, t, q, FanoutHandler.SetTotals(rows), h), false)
    ensures Leads(w0, Fan(w, run, SetNotificationTotals(t, 0, |rows|), q, FanoutHandler.SetProcessing(rows), h), false)
  {
    Fans(w0, w, run, t, q, FanoutHandler.SetTotals(rows), h, GO,
         FanoutHandler.State(SetNotificationTotals(t, 0, |rows|), q, FanoutHandler.SetProcessing(rows)), h);
  }

  // ----- one device, fanned out once -----

  lemma OnePhone(t: Tables, p: Provider)
    requires 0 in t.devices && t.devices[0] == Phone(p)
    ensures RowIds([PhoneRow(0, p)]) == {0} && IsFetchOf(t, 0, {0}, [PhoneRow(0, p)])
  {
    var rows := [PhoneRow(0, p)];
    assert RowIds(rows) == {rows[0].id};
  }

  /** Recipient 0 has its row and its task, and the run is about to store the total. */
  function Enqueued(policy: FailurePolicy): World {
    var w := Created(policy);
    Fan(w, 0, w.t.(recipients := map[0 := NewRow(0)], pairIndex := map[(0, 0) := 0]), map[Key(Fcm) := NewTask(0, Fcm)],
        FanoutHandler.SetTotals([PhoneRow(0, Fcm)]), Queued1(Fetched(w.h, {0}), Key(Fcm)))
  }

  lemma EnqueuedLeads(policy: FailurePolicy)
    ensures Leads(Start(policy), Enqueued(policy), false)
  {
    var w0, w := Start(policy), Created(policy);
    var rows := [PhoneRow(0, Fcm)];
    CreatedLeads(policy);
    OnePhone(w.t, Fcm);
    Resolves(w0, w, 0, {0});
    Fetches(w0, w, 0, rows);
    ServesNew(w0, w, 0, w.t, w.q, rows, 0, Fetched(w.h, {0}), 0);
  }

  /** With the total stored. */
  function Totalled(policy: FailurePolicy): World {
    var w := Enqueued(policy);
    Fan(w, 0, SetNotificationTotals(w.t, 0, 1), w.q, FanoutHandler.SetProcessing([PhoneRow(0, Fcm)]), w.h)
  }

  lemma TotalledLeads(policy: FailurePolicy)
    ensures Leads(Start(policy), Totalled(policy), false)
  {
    var w := Enqueued(policy);
    EnqueuedLeads(policy);
    assert w == Fan(w, 0, w.t, w.q, FanoutHandler.SetTotals([PhoneRow(0, Fcm)]), w.h);
    Totals(Start(policy), w, 0, w.t, w.q, [PhoneRow(0, Fcm)], w.h);
  }

  /** What either state offers to further steps; `total` is the stored one. */
  predicate OneWaiting(w: World, total: nat) {
    && w.t == Tables(map[0 := ROW.(total := total)], map[(0, "k") := 0], map[0 := NewRow(0)], map[(0, 0) := 0],
                     map[0 := Phone(Fcm)])
    && w.q == map[Key(Fcm) := NewTask(0, Fcm)] && w.fanouts.Keys == {0} && 0 in w.h.fanouts
    && w.h.enqueued == {Key(Fcm)} && w.h.fetched == {(0, {0})}
    && w.h.accepted == multiset{} && w.h.disturbed == {} && w.h.unacked == {}
  }

  lemma Waits(policy: FailurePolicy, total: nat) returns (w: World)
    requires total <= 1
    ensures Leads(Start(policy), w, false) && OneWaiting(w, total)
  {
    EnqueuedLeads(policy);
    TotalledLeads(policy);
    w := if total == 0 then Enqueued(policy) else Totalled(policy);
  }

  // ----- runs that end before they reach the row -----

  /** What the queue makes of task `k` after a run that counts as a failure. */
  predicate Failed(w: World, w': World, k: TaskKey)
    requires k in w.q
  {
    && w'.policy == w.policy && w'.t == w.t && w'.fanouts == w.fanouts && w'.q.Keys == w.q.Keys
    && (if w.q[k].retried < MAX_RETRY
        then Ready(w', k) && w'.q[k].retried == w.q[k].retried + 1
             && w'.h.retries == w.h.retries + multiset{k.recipient}
        else w'.q[k].state == Archived(Exhausted) && w'.h.retries == w.h.retries)
  }

  lemma WastedConcludes(w: World, k: TaskKey, o: Outcome, h: History)
    requires Ready(w, k) && h.retries == w.h.retries && (o == Failure || (o == Throttled && w.policy == EveryError))
    ensures var w' := Conclude(Mid(w, k, w.t, SendHandler.Returned(o), h), k, o);
      Failed(w, w', k) && w'.h == h.(retries := w'.h.retries)
  {
  }

  /** A run that cannot read the row. */
  lemma FetchFails(w0: World, w: World, k: TaskKey) returns (w': World)
    requires Leads(w0, w, false) && Ready(w, k)
    ensures Leads(w0, w', false) && Failed(w, w', k)
    ensures w'.h == w.h.(retries := w'.h.retries, disturbed := w'.h.disturbed, dropped := w'.h.dropped)
  {
    var e := GOOD.(fetchUp := false);
    Begins(w0, false, w, k);
    var h := NextHistory(w, k, w.t, SendHandler.Fetch, w.h, e);
    Moves(w0, false, w, k, w.t, SendHandler.Fetch, w.h, e, w.t, SendHandler.Returned(Failure), h);
    var mid := Mid(w, k, w.t, SendHandler.Returned(Failure), h);
    Ends(w0, mid, k);
    w' := Conclude(mid, k, Failure);
    WastedConcludes(w, k, Failure, h);
  }

  /** A run that the rate limit denies, where that counts as a failure. */
  lemma Denied(w0: World, w: World, k: TaskKey) returns (w': World)
    requires Leads(w0, w, false) && Ready(w, k) && w.policy == EveryError
    ensures Leads(w0, w', false) && Failed(w, w', k)
    ensures w'.h == w.h.(retries := w'.h.retries)
  {
    var e := GOOD.(allowed := false);
    Begins(w0, false, w, k);
    Passes(w0, false, w, k, w.t, SendHandler.Fetch, w.h, SendHandler.Limit);
    NoHistory(w, k, w.t, SendHandler.Limit, w.h, e);
    Moves(w0, false, w, k, w.t, SendHandler.Limit, w.h, e, w.t, SendHandler.Returned(Throttled), w.h);
    var mid := Mid(w, k, w.t, SendHandler.Returned(Throttled), w.h);
    Ends(w0, mid, k);
    w' := Conclude(mid, k, Throttled);
    WastedConcludes(w, k, Throttled, w.h);
  }

  /** The task is archived for exhaustion, and its row never got further than `queued`. */
  predicate ExhaustedUntried(w: World) {
    && 0 in w.t.recipients && w.t.recipients[0] == NewRow(0)
    && w.q.Keys == {Key(Fcm)} && w.q[Key(Fcm)].state == Archived(Exhausted)
    && w.h.retries[0] == MAX_RETRY && w.h.throttles[0] == 0
    && w.h.enqueued == {Key(Fcm)} && w.fanouts == Enqueued(w.policy).fanouts && w.t.devices == map[0 := Phone(Fcm)]
  }

  /** `n` runs of recipient 0's task have been wasted. */
  predicate Wasted(w: World, policy: FailurePolicy, n: nat) {
    && w.policy == policy && w.t == Enqueued(policy).t && w.fanouts == Enqueued(policy).fanouts
    && Ready(w, Key(Fcm)) && w.q.Keys == {Key(Fcm)} && w.q[Key(Fcm)].retried == n
    && w.h.retries[0] == n && w.h.throttles[0] == 0 && w.h.enqueued == {Key(Fcm)}
  }

  lemma EnqueuedIsUnwasted(policy: FailurePolicy)
    ensures Leads(Start(policy), Enqueued(policy), false) && Wasted(Enqueued(policy), policy, 0)
    ensures Enqueued(policy).h.disturbed == {} && Enqueued(policy).h.dropped == {}
  {
    EnqueuedLeads(policy);
  }

  lemma SixDenied() returns (w: World)
    ensures Leads(Start(EveryError), w, false) && w.policy == EveryError && ExhaustedUntried(w)
    ensures w.h.disturbed == {} && w.h.dropped == {}
  {
    EnqueuedIsUnwasted(EveryError);
    w := Enqueued(EveryError);
    for i := 0 to 5
      invariant Leads(Start(EveryError), w, false) && Wasted(w, EveryError, i)
      invariant w.h.disturbed == {} && w.h.dropped == {}
    {
      w := Denied(Start(EveryError), w, Key(Fcm));
    }
    w := Denied(Start(EveryError), w, Key(Fcm));
  }

  lemma SixFetchesFail(policy: FailurePolicy) returns (w: World)
    ensures Leads(Start(policy), w, false) && w.policy == policy && ExhaustedUntried(w)
  {
    EnqueuedIsUnwasted(policy);
    w := Enqueued(policy);
    for i := 0 to 5
      invariant Leads(Start(policy), w, false) && Wasted(w, policy, i)
    {
      w := FetchFails(Start(policy), w, Key(Fcm));
    }
    w := FetchFails(Start(policy), w, Key(Fcm));
  }

  /** Neither the attempt equation nor the agreement on exhaustion holds of recipient 0. */
  predicate Miscounted(w: World)
    requires 0 in w.t.recipients
  {
    var row := w.t.recipients[0];
    && BetweenRuns(w, 0)
    && row.attempts != w.h.retries[0] + w.h.throttles[0] + (if Resolved(w, 0) then 1 else 0)
    && row.error == None && Key(Fcm) in w.q && w.q[Key(Fcm)].state == Archived(Exhausted)
  }

  lemma ExhaustedIsLost(w: World)
    requires ExhaustedUntried(w)
    ensures Miscounted(w) && !Resolved(w, 0) && !StillServed(w, 0) && OneQueue(w.h, 0)
  {
  }

  lemma ExhaustedProvidersAgree(w: World)
    requires ExhaustedUntried(w)
    ensures ProvidersAgree(w)
  {
  }

  /** From such a state the row is `queued` for ever, while its device keeps its provider. */
  lemma QueuedForEver(policy: FailurePolicy, w: World, steps: seq<Step>)
    requires Reachable(policy, w) && ExhaustedUntried(w) && Valid(w, steps) && StableRun(w, steps)
    ensures 0 in Run(w, steps).t.recipients && Run(w, steps).t.recipients[0].status == Queued
  {
    ReachableStructured(policy, w);
    ExhaustedProvidersAgree(w);
    StableRunAgrees(w, steps);
    assert Lifecycle.Dead(Simulation.SliceOf(w, 0).tasks[Fcm]);
    StaysSpent(policy, w, steps, 0);
  }

  /**
   Were throttled runs counted like failures, six denials in a row would archive the task and
   leave the row `queued` for as long as its device keeps its provider, with no error and no crash.
   */
  lemma CountedThrottlesLoseRecipients() returns (w: World)
    ensures Reachable(EveryError, w)
    ensures Key(Fcm) in w.h.enqueued && w.h.disturbed == {} && w.h.dropped == {} && OneQueue(w.h, 0)
    ensures 0 in w.t.recipients && Miscounted(w) && !Resolved(w, 0) && !StillServed(w, 0)
    ensures forall steps :: Valid(w, steps) && StableRun(w, steps) ==>
              0 in Run(w, steps).t.recipients && Run(w, steps).t.recipients[0].status == Queued
  {
    w := SixDenied();
    LeadsIsReachable(EveryError, w);
    ExhaustedIsLost(w);
    forall steps | Valid(w, steps) && StableRun(w, steps)
      ensures 0 in Run(w, steps).t.recipients && Run(w, steps).t.recipients[0].status == Queued
    {
      QueuedForEver(EveryError, w, steps);
    }
  }

  /** Database errors on every attempt break the attempt equation and the agreement on exhaustion. */
  lemma FetchErrorsMiscount(policy: FailurePolicy) returns (w: World)
    ensures Reachable(policy, w) && OneQueue(w.h, 0)
    ensures 0 in w.t.recipients && Miscounted(w)
  {
    w := SixFetchesFail(policy);
    LeadsIsReachable(policy, w);
    ExhaustedIsLost(w);
  }

  // ----- a lost failure write -----

  const NO_CREDENTIAL: SendHandler.Environment := GOOD.(credentialOk := false, failUp := false)

  function Dropped(h: History, r: Id): History {
    h.(dropped := h.dropped + {r}, disturbed := h.disturbed + {r})
  }

  /** An attempt that finds no credential and cannot write so. */
  lemma FailureLost(w0: World, w: World, k: TaskKey, t: Tables)
    requires k in w.q && k.recipient in t.recipients && Leads(w0, Mid(w, k, t, SendHandler.Credential, w.h), false)
    ensures Leads(w0, Mid(w, k, t, SendHandler.Returned(SkipRetry), Dropped(w.h, k.recipient)), false)
  {
    var fail := SendHandler.Fail(NoCredential, SkipRetry);
    NoHistory(w, k, t, SendHandler.Credential, w.h, NO_CREDENTIAL);
    Moves(w0, false, w, k, t, SendHandler.Credential, w.h, NO_CREDENTIAL, t, fail, w.h);
    assert NextHistory(w, k, t, fail, w.h, NO_CREDENTIAL) == Dropped(w.h, k.recipient);
    Moves(w0, false, w, k, t, fail, w.h, NO_CREDENTIAL, t, SendHandler.Returned(SkipRetry), Dropped(w.h, k.recipient));
  }

  function Abandoned(w: World, k: TaskKey): World
    requires k in w.q
  {
    w.(t := MarkRecipientSending(w.t, k.recipient),
       q := w.q[k := Running(w.q[k], SendHandler.Fetch).(state := Archived(Skipped))], h := Dropped(w.h, k.recipient))
  }

  lemma SkippedConcludes(w: World, k: TaskKey)
    requires k in w.q
    ensures Conclude(Mid(w, k, MarkRecipientSending(w.t, k.recipient), SendHandler.Returned(SkipRetry),
                         Dropped(w.h, k.recipient)), k, SkipRetry)
         == Abandoned(w, k)
  {
  }

  lemma AbandonedLeads(w0: World, w: World, k: TaskKey)
    requires Leads(w0, w, false) && Ready(w, k)
    ensures Leads(w0, Abandoned(w, k), false)
  {
    var t := MarkRecipientSending(w.t, k.recipient);
    ReachesSending(w0, false, w, k);
    Sends(w0, false, w, k);
    FailureLost(w0, w, k, t);
    var mid := Mid(w, k, t, SendHandler.Returned(SkipRetry), Dropped(w.h, k.recipient));
    Ends(w0, mid, k);
    SkippedConcludes(w, k);
  }

  /** A failure write that is lost leaves a row that is not terminal and that nothing will serve. */
  lemma LostFailureWriteLosesRecipient(policy: FailurePolicy) returns (w: World)
    ensures Reachable(policy, w) && Key(Fcm) in w.h.enqueued && w.h.dropped == {0}
    ensures 0 in w.t.recipients && !Resolved(w, 0) && !StillServed(w, 0)
  {
    EnqueuedLeads(policy);
    AbandonedLeads(Start(policy), Enqueued(policy), Key(Fcm));
    w := Abandoned(Enqueued(policy), Key(Fcm));
    LeadsIsReachable(policy, w);
  }

  // ----- a device that changes provider -----

  /** Recipient 0 waits in two queues, and the stored total is 1. */
  predicate TwoQueued(w: World) {
    && w.t.recipients == map[0 := NewRow(0)] && w.t.notifications == map[0 := ROW.(total := 1)]
    && w.q == map[Key(Fcm) := NewTask(0, Fcm), Key(Apns) := NewTask(0, Apns)]
    && w.h.enqueued == {Key(Fcm), Key(Apns)} && w.h.fetched == {(0, {0})}
    && w.h.accepted == multiset{} && w.h.disturbed == {} && w.h.unacked == {}
  }

  /** The device changes provider after the first fanout run. */
  predicate ProviderChanged(w: World) {
    && w.t.recipients == map[0 := NewRow(0)] && w.t.pairIndex == map[(0, 0) := 0]
    && w.t.notifications == map[0 := ROW.(total := 1)] && w.t.devices == map[0 := Phone(Apns)]
    && w.q == map[Key(Fcm) := NewTask(0, Fcm)] && w.fanouts.Keys == {0} && 0 in w.h.fanouts
    && w.h.enqueued == {Key(Fcm)} && w.h.fetched == {(0, {0})}
    && w.h.accepted == multiset{} && w.h.disturbed == {} && w.h.unacked == {}
  }

  lemma ChangesProvider(policy: FailurePolicy) returns (w: World)
    ensures Leads(Start(policy), w, false) && ProviderChanged(w)
  {
    var was := Waits(policy, 1);
    LeadsOn(Start(policy), was, false, DeviceChange(0, Phone(Apns)));
    w := was.(t := was.t.(devices := was.t.devices[0 := Phone(Apns)]));
    assert Apply(was, DeviceChange(0, Phone(Apns))) == w;
  }

  /** And a second run fetches it. */
  lemma FetchesChanged(policy: FailurePolicy) returns (w: World)
    ensures ProviderChanged(w)
    ensures Leads(Start(policy), Fan(w, 1, w.t, w.q, FanoutHandler.Insert([PhoneRow(0, Apns)], 0), w.h), false)
  {
    w := ChangesProvider(policy);
    OnePhone(w.t, Apns);
    Resolves(Start(policy), w, 1, {0});
    Fetches(Start(policy), w, 1, [PhoneRow(0, Apns)]);
    assert Fetched(w.h, {0}) == w.h;
  }

  lemma InTwoQueues(policy: FailurePolicy) returns (w: World)
    ensures Leads(Start(policy), w, false) && TwoQueued(w)
  {
    var was := FetchesChanged(policy);
    var rows := [PhoneRow(0, Apns)];
    ServesOld(Start(policy), was, 1, was.t, was.q, rows, 0, was.h, 0, 1);
    var q := Enqueue(was.q, PushTo(0, Apns));
    w := Fan(was, 1, was.t, q, FanoutHandler.SetTotals(rows), Queued1(was.h, Key(Apns)));
  }

  /**
   A device that changes provider between two fanout runs has its recipient in two queues, and
   both can get a push accepted: no error, no crash.
   */
  lemma TwoQueuesSendTwice(policy: FailurePolicy) returns (w: World)
    ensures Reachable(policy, w)
    ensures w.h.accepted[0] == 2 && w.h.disturbed == {} && w.h.unacked == {}
    ensures !OneQueue(w.h, 0)
  {
    var w0 := Start(policy);
    var w1 := InTwoQueues(policy);
    assert Key(Apns) in w1.h.enqueued && Key(Fcm) in w1.h.enqueued;
    AttemptIsAccepted(w0, false, w1, Key(Fcm));
    var w2 := PushAccepted(w1, Key(Fcm));
    AttemptIsAccepted(w0, false, w2, Key(Apns));
    w := PushAccepted(w2, Key(Apns));
    LeadsIsReachable(policy, w);
  }

  lemma OneRowStatus(t: Tables, s: Status)
    requires t.recipients.Keys == {0} && t.recipients[0].notification == 0 && t.recipients[0].status == s
    ensures forall x :: CountOf(t, 0, x) == if x == s then 1 else 0
  {
    forall x ensures CountOf(t, 0, x) == if x == s then 1 else 0 {
      assert RowsWith(t, 0, x) == if x == s then {0} else {};
    }
  }

  /** The first task has fetched the row when the second one's push is sent and recorded. */
  lemma SecondRecorded(policy: FailurePolicy) returns (w: World)
    ensures Leads(Start(policy), w, false) && w.h.fetched == {(0, {0})} && w.h.disturbed == {}
    ensures w.t.notifications == map[0 := ROW.(total := 1)]
    ensures w.t.recipients.Keys == {0} && w.t.recipients[0].notification == 0 && w.t.recipients[0].status == Sent
    ensures ActiveAt(w, Key(Fcm)) && w.q[Key(Fcm)].state.pc.MarkSending? && w.q[Key(Fcm)].payload.recipient == 0
  {
    var w1 := InTwoQueues(policy);
    ReachesSending(Start(policy), false, w1, Key(Fcm));
    var w2 := Mid(w1, Key(Fcm), w1.t, SendHandler.MarkSending, w1.h);
    AttemptIsDelivered(Start(policy), w2, Key(Apns));
    w := PushRecorded(w2, Key(Apns));
  }

  lemma OneRowDone(t: Tables)
    requires t.notifications == map[0 := ROW.(total := 1)]
    requires t.recipients.Keys == {0} && t.recipients[0].notification == 0
    requires t.recipients[0].status == Sent || t.recipients[0].status == Sending
    ensures NotificationDone(t, 0) <==> t.recipients[0].status == Sent
  {
    OneRowStatus(t, t.recipients[0].status);
  }

  /** With two queues a terminal row changes again, and a completion test that succeeded fails. */
  lemma TwoQueuesUndoCompletion(policy: FailurePolicy) returns (w: World, w': World)
    ensures Reachable(policy, w) && Leads(w, w', false) && OneAudience(w'.h, 0) && w'.h.disturbed == {}
    ensures 0 in w.t.recipients && 0 in w'.t.recipients && 0 in w.t.notifications && 0 in w'.t.notifications
    ensures Resolved(w, 0) && NotificationDone(w.t, 0)
    ensures !Resolved(w', 0) && !NotificationDone(w'.t, 0)
  {
    w := SecondRecorded(policy);
    LeadsIsReachable(policy, w);
    OneRowDone(w.t);
    w' := SendsAgain(w, Key(Fcm));
    OneRowDone(w'.t);
  }

  lemma SendsAgain(w: World, k: TaskKey) returns (w': World)
    requires ActiveAt(w, k) && w.q[k].state.pc.MarkSending? && w.q[k].payload.recipient == k.recipient
    requires k.recipient in w.t.recipients
    ensures Leads(w, w', false) && w'.t == MarkRecipientSending(w.t, k.recipient)
    ensures w'.h == w.h
  {
    LeadsToSelf(w, false);
    LeadsOn(w, w, false, SendStep(k, GOOD));
    w' := ApplySend(w, k, GOOD);
  }

  // ----- a lost `sent` write -----

  lemma SentWriteLost(w0: World, w: World, k: TaskKey) returns (w': World)
    requires Ready(w, k) && w.q[k].retried < MAX_RETRY && Leads(w0, PushAccepted(w, k), false)
    ensures Leads(w0, w', false) && Ready(w', k)
    ensures w'.h.accepted == w.h.accepted + multiset{k.recipient} && w'.h.enqueued == w.h.enqueued
    ensures w'.h.unacked == w.h.unacked + {k.recipient}
  {
    var w1 := PushAccepted(w, k);
    LeadsOn(w0, w1, false, SendStep(k, GOOD.(sentUp := false)));
    var w2 := ApplySend(w1, k, GOOD.(sentUp := false));
    Ends(w0, w2, k);
    w' := Conclude(w2, k, Failure);
  }

  /** With one queue, a failed `sent` write alone makes the retry send again. */
  lemma LostSentWriteSendsTwice(policy: FailurePolicy) returns (w: World)
    ensures Reachable(policy, w)
    ensures w.h.accepted[0] == 2 && OneQueue(w.h, 0) && w.h.unacked == {0}
  {
    var w0, k := Start(policy), Key(Fcm);
    var w1 := Waits(policy, 0);
    AttemptIsAccepted(w0, false, w1, k);
    var w2 := SentWriteLost(w0, w1, k);
    AttemptIsAccepted(w0, false, w2, k);
    w := PushAccepted(w2, k);
    LeadsIsReachable(policy, w);
  }

  // ----- an audience that changes -----

  const BOTH: seq<DeviceRow> := [PhoneRow(0, Fcm), PhoneRow(1, Fcm)]

  lemma TwoPhones(t: Tables)
    requires t.devices == map[0 := Phone(Fcm), 1 := Phone(Fcm)]
    ensures RowIds(BOTH) == {0, 1} && IsFetchOf(t, 0, {0, 1}, BOTH)
  {
    assert BOTH[0].id == 0 && BOTH[1].id == 1;
    assert RowIds(BOTH) == {0, 1};
    assert DevicesByIds(t, 0, {0, 1}) == {0, 1};
  }

  /** Device 0 served, its push recorded, its task gone; then device 1 registers. */
  predicate Joined(w: World) {
    && w.q == map[] && 1 !in w.fanouts && 0 in w.h.fanouts && w.t.devices == map[0 := Phone(Fcm), 1 := Phone(Fcm)]
    && w.t.notifications == map[0 := ROW.(total := 1)] && w.t.pairIndex == map[(0, 0) := 0]
    && w.t.recipients.Keys == {0} && w.t.recipients[0].notification == 0 && w.t.recipients[0].status == Sent
    && w.h.enqueued == {Key(Fcm)} && w.h.disturbed == {}
  }

  lemma Joins(policy: FailurePolicy) returns (w: World)
    ensures Leads(Start(policy), w, false) && Joined(w)
  {
    var waiting := Waits(policy, 1);
    AttemptIsDelivered(Start(policy), waiting, Key(Fcm));
    var was := PushRecorded(waiting, Key(Fcm));
    LeadsOn(Start(policy), was, false, DeviceChange(1, Phone(Fcm)));
    w := was.(t := was.t.(devices := was.t.devices[1 := Phone(Fcm)]));
    assert Apply(was, DeviceChange(1, Phone(Fcm))) == w;
    assert w.q == map[];
  }

  /** A second run has served both devices: recipient 1 is queued, and the stored total still 1. */
  predicate Widened(w: World) {
    && w.t.recipients.Keys == {0, 1} && w.t.recipients[0].notification == 0 && w.t.recipients[1].notification == 0
    && w.t.recipients[0].status == Sent && w.t.recipients[1].status == Queued
    && w.t.notifications == map[0 := ROW.(total := 1)]
    && w.h.enqueued == {Key(Fcm), TaskKey(Fcm, 1)} && w.h.disturbed == {}
    && 1 in w.fanouts && w.fanouts[1] == FanoutRun(0, 0, FanoutHandler.SetTotals(BOTH))
  }

  lemma FetchesBoth(w0: World, w: World)
    requires Leads(w0, w, false) && Joined(w)
    ensures Leads(w0, Fan(w, 1, w.t, map[], FanoutHandler.Insert(BOTH, 0), Fetched(w.h, {0, 1})), false)
  {
    TwoPhones(w.t);
    Resolves(w0, w, 1, {0, 1});
    Fetches(w0, w, 1, BOTH);
  }

  lemma ServesFirstAgain(w0: World, w: World)
    requires Joined(w) && Leads(w0, Fan(w, 1, w.t, map[], FanoutHandler.Insert(BOTH, 0), Fetched(w.h, {0, 1})), false)
    ensures Leads(w0, Fan(w, 1, w.t, map[Key(Fcm) := NewTask(0, Fcm)], FanoutHandler.Insert(BOTH, 1),
                          Fetched(w.h, {0, 1})), false)
  {
    var h := Fetched(w.h, {0, 1});
    ServesOld(w0, w, 1, w.t, map[], BOTH, 0, h, 0, 1);
    assert Queued1(h, Key(Fcm)) == h;
    assert Enqueue(map[], PushTo(0, Fcm)) == map[Key(Fcm) := NewTask(0, Fcm)];
  }

  lemma Widens(policy: FailurePolicy) returns (w: World)
    ensures Leads(Start(policy), w, false) && Widened(w)
  {
    var was := Joins(policy);
    var q, h := map[Key(Fcm) := NewTask(0, Fcm)], Fetched(was.h, {0, 1});
    FetchesBoth(Start(policy), was);
    ServesFirstAgain(Start(policy), was);
    ServesNew(Start(policy), was, 1, was.t, q, BOTH, 1, h, 1);
    w := Fan(was, 1, InsertRecipient(was.t, 1, 0, 1, Fcm), Enqueue(q, PushTo(1, Fcm)), FanoutHandler.SetTotals(BOTH),
             Queued1(h, TaskKey(Fcm, 1)));
  }

  lemma TwoRowStatuses(t: Tables)
    requires t.recipients.Keys == {0, 1} && t.recipients[0].notification == 0 && t.recipients[1].notification == 0
    requires t.recipients[0].status == Sent && t.recipients[1].status == Queued
    ensures CountOf(t, 0, Sent) == 1 && CountOf(t, 0, Delivered) == 0 && CountOf(t, 0, Status.Failed) == 0
  {
    assert RowsWith(t, 0, Sent) == {0};
    assert RowsWith(t, 0, Delivered) == {};
    assert RowsWith(t, 0, Status.Failed) == {};
  }

  /**
   When a later fanout run finds a larger group, the completion test succeeds over a queued row,
   and then, with the new total, fails again: no error, no crash, one queue each.
   */
  lemma ChangedAudienceUndoesCompletion(policy: FailurePolicy) returns (w: World, w': World)
    ensures Reachable(policy, w) && Leads(w, w', false) && w'.h.disturbed == {}
    ensures OneQueue(w'.h, 0) && OneQueue(w'.h, 1) && RowsOf(w'.t, 0) == {0, 1}
    ensures 0 in w.t.notifications && 0 in w'.t.notifications && 1 in RowsOf(w.t, 0)
    ensures NotificationDone(w.t, 0) && !Resolved(w, 1)
    ensures !NotificationDone(w'.t, 0)
  {
    w := Widens(policy);
    LeadsIsReachable(policy, w);
    w' := StoresTwo(w);
    TwoRowStatuses(w.t);
    TwoRowStatuses(w'.t);
    assert RowsOf(w'.t, 0) == {0, 1};
  }

  lemma StoresTwo(w: World) returns (w': World)
    requires 1 in w.fanouts && w.fanouts[1] == FanoutRun(0, 0, FanoutHandler.SetTotals(BOTH))
    ensures Leads(w, w', false) && w'.t == SetNotificationTotals(w.t, 0, 2) && w'.h == w.h
  {
    LeadsToSelf(w, false);
    assert w == Fan(w, 1, w.t, w.q, FanoutHandler.SetTotals(BOTH), w.h);
    Totals(w, w, 1, w.t, w.q, BOTH, w.h);
    w' := Fan(w, 1, SetNotificationTotals(w.t, 0, 2), w.q, FanoutHandler.SetProcessing(BOTH), w.h);
  }

  /** Before the fanout loop ends, the dashboard's test already succeeds over a queued recipient. */
  lemma DashboardIsEarly(policy: FailurePolicy) returns (w: World)
    ensures Reachable(policy, w) && 0 in w.t.notifications && 0 in w.t.recipients
    ensures DashboardTerminal(w.t, 0) && !NotificationDone(w.t, 0)
    ensures w.t.recipients[0].notification == 0 && !Resolved(w, 0) && w.h.disturbed == {}
  {
    w := Enqueued(policy);
    EnqueuedLeads(policy);
    LeadsIsReachable(policy, w);
  }

  // ----- idempotency keys -----

  /** The key's winner failed to enqueue its fanout. */
  function Orphaned(policy: FailurePolicy, calls: map<Id, CreateCall>): World {
    Creating(policy, Created(policy).t, CreateHandler.Done(None), Start(policy).h.(owner := map[0 := 0])).(calls := calls)
  }

  const LOST: CreateCall := CreateCall(REQUEST, CreateHandler.Done(None))

  lemma OrphanedLeads(policy: FailurePolicy)
    ensures Leads(Start(policy), Orphaned(policy, map[0 := LOST]), false)
  {
    var w := Creating(policy, Created(policy).t, CreateHandler.EnqueueFanout(0), Start(policy).h.(owner := map[0 := 0]));
    CreateInserts(policy);
    LeadsOn(Start(policy), w, false, CreateStep(0, YES.(up := false)));
    assert Apply(w, CreateStep(0, YES.(up := false))) == Orphaned(policy, map[0 := LOST]);
  }

  lemma LateCall(policy: FailurePolicy, pc: CreateHandler.Pc, r: CreateHandler.Reply, pc': CreateHandler.Pc)
    requires Leads(Start(policy), Orphaned(policy, map[0 := LOST, 1 := CreateCall(REQUEST, pc)]), false)
    requires var s := CreateHandler.State(Created(policy).t, multiset{}, pc);
             CreateHandler.Enabled(s, r) && CreateHandler.Step(REQUEST, s, r) == s.(pc := pc')
    ensures Leads(Start(policy), Orphaned(policy, map[0 := LOST, 1 := CreateCall(REQUEST, pc')]), false)
  {
    var w := Orphaned(policy, map[0 := LOST, 1 := CreateCall(REQUEST, pc)]);
    LeadsOn(Start(policy), w, false, CreateStep(1, r));
    assert Apply(w, CreateStep(1, r)) == Orphaned(policy, map[0 := LOST, 1 := CreateCall(REQUEST, pc')]);
  }

  /**
   If the winner of an idempotency key fails to enqueue its fanout, a later call with the key
   reports success for a notification that has no fanout task and never gets one.
   */
  lemma LostFanoutIsNotRetried(policy: FailurePolicy) returns (w: World)
    ensures Reachable(policy, w)
    ensures Returned(w, 1, 0) && 0 in w.t.notifications && w.h.fanouts[0] == 0
    ensures OwnerDone(w, 0)
    ensures forall steps :: Valid(w, steps) ==> Run(w, steps).h.fanouts[0] == 0
  {
    OrphanedLeads(policy);
    var w1 := Orphaned(policy, map[0 := LOST]);
    LeadsOn(Start(policy), w1, false, CreateBegin(1, REQUEST));
    assert Apply(w1, CreateBegin(1, REQUEST))
        == Orphaned(policy, map[0 := LOST, 1 := CreateCall(REQUEST, CreateHandler.Insert)]);
    LateCall(policy, CreateHandler.Insert, YES.(freshId := 1), CreateHandler.SelectExisting);
    LateCall(policy, CreateHandler.SelectExisting, YES, CreateHandler.Done(Some(0)));
    w := Orphaned(policy, map[0 := LOST, 1 := CreateCall(REQUEST, CreateHandler.Done(Some(0)))]);
    LeadsIsReachable(policy, w);
    ReachableStructured(policy, w);
    forall steps | Valid(w, steps) ensures Run(w, steps).h.fanouts[0] == 0 { FanoutCountIsFinal(w, steps, 0); }
  }
}
