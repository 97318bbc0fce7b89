/**
 The whole dispatch pipeline as a step machine: any number of create calls, fanout runs and
 send attempts, interleaved statement by statement, with statements failing and workers
 crashing anywhere. The queue gives at most one running attempt per task; nothing else is
 exclusive (two fanout runs of one notification may overlap).
 */
module Pipeline {
  import opened Prelude
  import opened Store
  import opened TaskQueue
  import opened SendQueue
  import SendHandler
  import FanoutHandler
  import CreateHandler

  datatype FanoutRun = FanoutRun(notification: Id, project: Id, pc: FanoutHandler.Pc)

  datatype CreateCall = CreateCall(req: CreateHandler.Request, pc: CreateHandler.Pc)

  /**
   What has happened so far; the handlers never read it.
   - accepted, throttles, retries: provider acceptances, provider throttles and counted
     retries, by recipient
   - enqueued: every send task id ever enqueued
   - unacked: recipients with an accepted push whose `sent` write failed or crashed
   - dropped: recipients for which a failure write was lost, or the last attempt failed or
     crashed before it could record an outcome
   - disturbed: recipients any of whose attempts hit a database error or a crash
   - fanouts: fanout tasks ever enqueued, by notification
   - owner: the create call that inserted the notification
   - fetched: the device sets fanout runs fetched, by notification
   */
  datatype History = History(
    accepted: multiset<Id>, throttles: multiset<Id>, retries: multiset<Id>,
    enqueued: set<TaskKey>,
    unacked: set<Id>, dropped: set<Id>, disturbed: set<Id>,
    fanouts: multiset<Id>, owner: map<Id, Id>, fetched: set<(Id, set<Id>)>)

  datatype World = World(
    t: Tables, q: Tasks, fanouts: map<Id, FanoutRun>, calls: map<Id, CreateCall>, h: History,
    policy: FailurePolicy)

  function Start(policy: FailurePolicy): World {
    World(Tables(map[], map[], map[], map[], map[]), map[], map[], map[],
          History(multiset{}, multiset{}, multiset{}, {}, {}, {}, {}, multiset{}, map[], {}), policy)
  }

  datatype Step =
    | CreateBegin(call: Id, req: CreateHandler.Request)
    | CreateStep(call: Id, createReply: CreateHandler.Reply)
    | FanoutBegin(run: Id, notification: Id)
    | FanoutStep(run: Id, fanoutReply: FanoutHandler.Reply)
    | SendBegin(key: TaskKey)
    | SendStep(key: TaskKey, env: SendHandler.Environment)
    | SendEnd(key: TaskKey)
    | SendCrash(key: TaskKey)
    | DeviceChange(id: Id, device: Device)

  // ----- create calls -----

  function CreateView(w: World, c: Id): CreateHandler.State
    requires c in w.calls
  {
    CreateHandler.State(w.t, w.h.fanouts, w.calls[c].pc)
  }

  function ApplyCreate(w: World, c: Id, r: CreateHandler.Reply): World
    requires c in w.calls
  {
    var call := w.calls[c];
    var s := CreateHandler.Step(call.req, CreateView(w, c), r);
    var inserted := s.t != w.t;
    w.(t := s.t, calls := w.calls[c := call.(pc := s.pc)],
       h := w.h.(fanouts := s.fanouts, owner := if inserted then w.h.owner[r.freshId := c] else w.h.owner))
  }

  // ----- fanout runs -----

  function FanoutView(w: World, run: Id): FanoutHandler.State
    requires run in w.fanouts
  {
    FanoutHandler.State(w.t, w.q, w.fanouts[run].pc)
  }

  function ApplyFanout(w: World, run: Id, r: FanoutHandler.Reply): World
    requires run in w.fanouts && FanoutHandler.Enabled(w.fanouts[run].project, FanoutView(w, run), r)
  {
    var f := w.fanouts[run];
    var s := FanoutHandler.Step(f.notification, f.project, FanoutView(w, run), r);
    var enqueued :=
      if f.pc.EnqueueOne? && (r.up || r.applied)
      then {TaskKey(f.pc.devs[f.pc.i].provider, f.pc.recipient)} else {};
    var fetched := if f.pc.FetchDevices? && r.up then {(f.notification, RowIds(r.rows))} else {};
    w.(t := s.t, q := s.q, fanouts := w.fanouts[run := f.(pc := s.pc)],
       h := w.h.(enqueued := w.h.enqueued + enqueued, fetched := w.h.fetched + fetched))
  }

  // ----- send attempts -----

  predicate ActiveAt(w: World, k: TaskKey) {
    k in w.q && w.q[k].state.Active?
  }

  predicate DatabaseFault(w: World, k: TaskKey, e: SendHandler.Environment)
    requires ActiveAt(w, k)
  {
    SendHandler.Faulty(k.recipient in w.t.recipients, w.q[k].state.pc, e)
  }

  function SendHistory(w: World, k: TaskKey, e: SendHandler.Environment): History
    requires ActiveAt(w, k)
  {
    var r, pc := k.recipient, w.q[k].state.pc;
    var fault := DatabaseFault(w, k, e);
    var accepted := pc.Call? && e.result.StatusSent?;
    var throttled := pc.Call? && e.result.StatusThrottled?;
    w.h.(accepted := if accepted then w.h.accepted + multiset{r} else w.h.accepted,
         throttles := if throttled then w.h.throttles + multiset{r} else w.h.throttles,
         unacked := if fault && pc.MarkSent? then w.h.unacked + {r} else w.h.unacked,
         dropped := if fault && (pc.Fail? || LastAttempt(w.q[k])) then w.h.dropped + {r} else w.h.dropped,
         disturbed := if fault then w.h.disturbed + {r} else w.h.disturbed)
  }

  function ApplySend(w: World, k: TaskKey, e: SendHandler.Environment): World
    requires ActiveAt(w, k)
  {
    var task := w.q[k];
    var (t, pc) := SendHandler.Step(w.t, task.payload, LastAttempt(task), task.state.pc, e);
    w.(t := t, q := w.q[k := task.(state := TaskState.Active(pc))], h := SendHistory(w, k, e))
  }

  /** The queue's bookkeeping once a run has ended with `o`. */
  function Conclude(w: World, k: TaskKey, o: Outcome): World
    requires k in w.q
  {
    var task := w.q[k];
    match Decide(o, task.retried, w.policy)
    case Complete => w.(q := w.q - {k})
    case Reschedule => w.(q := w.q[k := task.(state := Waiting, denials := task.denials + 1)])
    case Retry => w.(q := w.q[k := task.(state := Waiting, retried := task.retried + 1)],
                     h := w.h.(retries := w.h.retries + multiset{k.recipient}))
    case Archive(reason) => w.(q := w.q[k := task.(state := Archived(reason))])
  }

  /** A crashed worker's task is recovered as a failed run. */
  function ApplyCrash(w: World, k: TaskKey): World
    requires ActiveAt(w, k)
  {
    var task := w.q[k];
    var lost := LastAttempt(task) && !Settled(w.policy, task);
    var w' := w.(h := w.h.(
                   disturbed := w.h.disturbed + {k.recipient},
                   unacked := if task.state.pc.MarkSent? then w.h.unacked + {k.recipient} else w.h.unacked,
                   dropped := if lost then w.h.dropped + {k.recipient} else w.h.dropped));
    Conclude(w', k, Failure)
  }

  // ----- the machine -----

  predicate Enabled(w: World, s: Step) {
    match s
    case CreateBegin(c, _) => c !in w.calls
    case CreateStep(c, r) => c in w.calls && CreateHandler.Enabled(CreateView(w, c), r)
    case FanoutBegin(run, n) => run !in w.fanouts && n in w.h.fanouts && n in w.t.notifications
    case FanoutStep(run, r) =>
      run in w.fanouts && FanoutHandler.Enabled(w.fanouts[run].project, FanoutView(w, run), r)
    case SendBegin(k) => k in w.q && w.q[k].state.Waiting?
    case SendStep(k, _) => ActiveAt(w, k) && !w.q[k].state.pc.Returned?
    case SendEnd(k) => ActiveAt(w, k) && w.q[k].state.pc.Returned?
    case SendCrash(k) => ActiveAt(w, k)
    case DeviceChange(d, device) =>
      d in w.t.devices ==> device.project == w.t.devices[d].project && device.token == w.t.devices[d].token
  }

  /** A fanout task carries its notification's own project. */
  function Apply(w: World, s: Step): World
    requires Enabled(w, s)
  {
    match s
    case CreateBegin(c, req) => w.(calls := w.calls[c := CreateCall(req, CreateHandler.Insert)])
    case CreateStep(c, r) => ApplyCreate(w, c, r)
    case FanoutBegin(run, n) =>
      w.(fanouts := w.fanouts[run := FanoutRun(n, w.t.notifications[n].project, FanoutHandler.GetNotification)])
    case FanoutStep(run, r) => ApplyFanout(w, run, r)
    case SendBegin(k) =>
      w.(q := w.q[k := w.q[k].(state := TaskState.Active(SendHandler.Fetch), runs := w.q[k].runs + 1)])
    case SendStep(k, e) => ApplySend(w, k, e)
    case SendEnd(k) => Conclude(w, k, w.q[k].state.pc.outcome)
    case SendCrash(k) => ApplyCrash(w, k)
    case DeviceChange(d, device) => w.(t := w.t.(devices := w.t.devices[d := device]))
  }

  predicate Valid(w: World, steps: seq<Step>)
    decreases steps
  {
    steps == [] || (Enabled(w, steps[0]) && Valid(Apply(w, steps[0]), steps[1..]))
  }

  function Run(w: World, steps: seq<Step>): World
    requires Valid(w, steps)
    decreases steps
  {
    if steps == [] then w else Run(Apply(w, steps[0]), steps[1..])
  }
}
