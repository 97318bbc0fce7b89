/**
 Every step of the pipeline is, for each recipient, one move of its life or nothing at all,
 and a recipient is born with nothing in its past. So the invariants of Lifecycle hold of
 every recipient in every reachable state.
 */
module Simulation {
  import opened Prelude
  import opened Store
  import opened TaskQueue
  import opened SendQueue
  import opened Pipeline
  import Structure
  import SendHandler
  import FanoutHandler
  import CreateHandler
  import Lifecycle

  function TasksOf(q: Tasks, r: Id): map<Provider, SendTask> {
    map p: Provider | TaskKey(p, r) in q :: q[TaskKey(p, r)]
  }

  function QueuesOf(keys: set<TaskKey>, r: Id): set<Provider> {
    set p: Provider | TaskKey(p, r) in keys
  }

  function SliceOf(w: World, r: Id): Lifecycle.Slice
    requires r in w.t.recipients
  {
    Lifecycle.Slice(w.t.recipients[r], TasksOf(w.q, r), QueuesOf(w.h.enqueued, r),
                    w.h.accepted[r], w.h.throttles[r], w.h.retries[r],
                    r in w.h.unacked, r in w.h.dropped, r in w.h.disturbed)
  }

  /** Nothing has happened to a recipient that does not exist yet. */
  ghost predicate NoPast(h: History, r: Id) {
    && h.accepted[r] == 0 && h.throttles[r] == 0 && h.retries[r] == 0
    && r !in h.unacked && r !in h.dropped && r !in h.disturbed
  }

  ghost predicate PastOk(w: World) {
    forall r :: r !in w.t.recipients ==> NoPast(w.h, r)
  }

  ghost predicate LivesOk(w: World) {
    forall r :: r in w.t.recipients ==> Lifecycle.Ok(w.policy, SliceOf(w, r))
  }

  ghost predicate Sane(w: World) {
    Structure.Structured(w) && PastOk(w) && LivesOk(w)
  }

  // ----- a task update, as the recipients see it -----

  lemma TasksUpdate(q: Tasks, k: TaskKey, task: SendTask, r: Id)
    ensures TasksOf(q[k := task], r)
         == if k.recipient == r then TasksOf(q, r)[k.queue := task] else TasksOf(q, r)
  {
  }

  lemma TasksRemove(q: Tasks, k: TaskKey, r: Id)
    ensures TasksOf(q - {k}, r) == if k.recipient == r then TasksOf(q, r) - {k.queue} else TasksOf(q, r)
  {
  }

  lemma QueuesAdd(keys: set<TaskKey>, k: TaskKey, r: Id)
    ensures QueuesOf(keys + {k}, r) == if k.recipient == r then QueuesOf(keys, r) + {k.queue} else QueuesOf(keys, r)
  {
  }

  // ----- send attempts -----

  predicate Known(w: World, k: TaskKey) {
    k in w.q && KeyOf(w.q[k].payload) == k && k.recipient in w.t.recipients
  }

  lemma PutSlice(w: World, k: TaskKey, task: SendTask, r: Id)
    requires r in w.t.recipients
    ensures var w' := w.(q := w.q[k := task]);
            SliceOf(w', r) == if k.recipient == r
                              then SliceOf(w, r).(tasks := SliceOf(w, r).tasks[k.queue := task]) else SliceOf(w, r)
  {
    TasksUpdate(w.q, k, task, r);
  }

  lemma ConcludeTasks(w: World, k: TaskKey, o: Outcome)
    requires Known(w, k)
    ensures TasksOf(Conclude(w, k, o).q, k.recipient)
         == Lifecycle.Conclude(w.policy, SliceOf(w, k.recipient), k.queue, o).tasks
  {
    var task := w.q[k];
    match Decide(o, task.retried, w.policy)
    case Complete => TasksRemove(w.q, k, k.recipient);
    case Reschedule => TasksUpdate(w.q, k, task.(state := Waiting, denials := task.denials + 1), k.recipient);
    case Retry => TasksUpdate(w.q, k, task.(state := Waiting, retried := task.retried + 1), k.recipient);
    case Archive(reason) => TasksUpdate(w.q, k, task.(state := Archived(reason)), k.recipient);
  }

  /** Beside the task itself, a conclusion changes only the count of retries. */
  lemma ConcludeRest(w: World, k: TaskKey, o: Outcome)
    requires k in w.q
    ensures var w' := Conclude(w, k, o);
      && w'.t == w.t
      && w'.h == w.h.(retries := w'.h.retries)
      && w'.h.retries == if Decide(o, w.q[k].retried, w.policy).Retry?
                         then w.h.retries + multiset{k.recipient} else w.h.retries
  {
  }

  lemma ConcludedSlice(policy: FailurePolicy, s: Lifecycle.Slice, p: Provider, o: Outcome)
    requires p in s.tasks
    ensures var s' := Lifecycle.Conclude(policy, s, p, o);
      s' == s.(tasks := s'.tasks,
               retries := s.retries + if Decide(o, s.tasks[p].retried, policy).Retry? then 1 else 0)
  {
  }

  lemma SliceWith(w: World, w': World, r: Id)
    requires r in w.t.recipients && w'.t == w.t && w'.h == w.h.(retries := w'.h.retries)
    ensures SliceOf(w', r) == SliceOf(w, r).(tasks := TasksOf(w'.q, r), retries := w'.h.retries[r])
  {
  }

  lemma ConcludeOwn(w: World, k: TaskKey, o: Outcome)
    requires Known(w, k)
    ensures SliceOf(Conclude(w, k, o), k.recipient)
         == Lifecycle.Conclude(w.policy, SliceOf(w, k.recipient), k.queue, o)
  {
    var w' := Conclude(w, k, o);
    ConcludeTasks(w, k, o);
    ConcludeRest(w, k, o);
    SliceWith(w, w', k.recipient);
    ConcludedSlice(w.policy, SliceOf(w, k.recipient), k.queue, o);
  }

  lemma ConcludeOther(w: World, k: TaskKey, o: Outcome, r: Id)
    requires Known(w, k) && r in w.t.recipients && r != k.recipient
    ensures SliceOf(Conclude(w, k, o), r) == SliceOf(w, r)
  {
    assert TasksOf(Conclude(w, k, o).q, r) == TasksOf(w.q, r);
  }

  lemma ConcludeSlice(w: World, k: TaskKey, o: Outcome, r: Id)
    requires Known(w, k) && r in w.t.recipients
    ensures SliceOf(Conclude(w, k, o), r)
         == if k.recipient == r then Lifecycle.Conclude(w.policy, SliceOf(w, r), k.queue, o) else SliceOf(w, r)
  {
    if k.recipient == r {
      ConcludeOwn(w, k, o);
    } else {
      ConcludeOther(w, k, o, r);
    }
  }

  lemma StatementSlice(w: World, k: TaskKey, e: SendHandler.Environment, r: Id)
    requires Known(w, k) && ActiveAt(w, k) && r in w.t.recipients
    ensures r in ApplySend(w, k, e).t.recipients
    ensures SliceOf(ApplySend(w, k, e), r)
         == if k.recipient == r then Lifecycle.DoStatement(SliceOf(w, r), k.queue, e) else SliceOf(w, r)
  {
    var task := w.q[k];
    Lifecycle.StepIsLocal(w.t, task.payload, LastAttempt(task), task.state.pc, e);
    var pc := SendHandler.Step(w.t, task.payload, LastAttempt(task), task.state.pc, e).1;
    TasksUpdate(w.q, k, task.(state := TaskState.Active(pc)), r);
  }

  lemma CrashSlice(w: World, k: TaskKey, r: Id)
    requires Known(w, k) && ActiveAt(w, k) && r in w.t.recipients
    ensures SliceOf(ApplyCrash(w, k), r)
         == if k.recipient == r then Lifecycle.DoCrash(w.policy, SliceOf(w, r), k.queue) else SliceOf(w, r)
  {
    var task := w.q[k];
    var w' := w.(h := w.h.(
                   disturbed := w.h.disturbed + {k.recipient},
                   unacked := if task.state.pc.MarkSent? then w.h.unacked + {k.recipient} else w.h.unacked,
                   dropped := if LastAttempt(task) && !Settled(w.policy, task) then w.h.dropped + {k.recipient}
                              else w.h.dropped));
    ConcludeSlice(w', k, Failure, r);
  }

  // ----- fanout steps -----

  lemma EnqueueSlice(w: World, p: SendPayload, r: Id)
    requires r in w.t.recipients
    ensures var w' := w.(q := Enqueue(w.q, p), h := w.h.(enqueued := w.h.enqueued + {KeyOf(p)}));
            SliceOf(w', r) == if p.recipient == r
                              then Lifecycle.Do(w.policy, SliceOf(w, r), Lifecycle.Enqueued(p.provider, p))
                              else SliceOf(w, r)
  {
    TasksUpdate(w.q, KeyOf(p), SendTask(p, 0, Waiting, 0, 0), r);
    QueuesAdd(w.h.enqueued, KeyOf(p), r);
  }

  /** Recipient rows that exist are left alone by everything a fanout run or a create call does. */
  lemma SameSlice(w: World, w': World, r: Id)
    requires r in w.t.recipients && r in w'.t.recipients && w'.t.recipients[r] == w.t.recipients[r]
    requires w'.q == w.q && w'.h.enqueued == w.h.enqueued
    requires w'.h.accepted == w.h.accepted && w'.h.throttles == w.h.throttles && w'.h.retries == w.h.retries
    requires w'.h.unacked == w.h.unacked && w'.h.dropped == w.h.dropped && w'.h.disturbed == w.h.disturbed
    ensures SliceOf(w', r) == SliceOf(w, r)
  {
  }

  predicate Enqueues(w: World, run: Id, reply: FanoutHandler.Reply)
    requires run in w.fanouts
  {
    w.fanouts[run].pc.EnqueueOne? && (reply.up || reply.applied)
  }

  function EnqueuedPayload(f: FanoutRun): SendPayload
    requires f.pc.EnqueueOne? && f.pc.i < |f.pc.devs|
  {
    FanoutHandler.PayloadFor(f.notification, f.project, f.pc.devs[f.pc.i], f.pc.recipient)
  }

  lemma EnqueueOneSlice(w: World, run: Id, reply: FanoutHandler.Reply, r: Id)
    requires Structure.FanoutEnabled(w, run, reply) && r in w.t.recipients && Enqueues(w, run, reply)
    ensures r in ApplyFanout(w, run, reply).t.recipients
    ensures var p := EnqueuedPayload(w.fanouts[run]);
            SliceOf(ApplyFanout(w, run, reply), r)
            == if p.recipient == r then Lifecycle.Do(w.policy, SliceOf(w, r), Lifecycle.Enqueued(p.provider, p))
               else SliceOf(w, r)
  {
    EnqueueSlice(w, EnqueuedPayload(w.fanouts[run]), r);
  }

  lemma OtherFanoutSlice(w: World, run: Id, reply: FanoutHandler.Reply, r: Id)
    requires Structure.FanoutEnabled(w, run, reply) && r in w.t.recipients && !Enqueues(w, run, reply)
    ensures r in ApplyFanout(w, run, reply).t.recipients
    ensures SliceOf(ApplyFanout(w, run, reply), r) == SliceOf(w, r)
  {
    SameSlice(w, ApplyFanout(w, run, reply), r);
  }

  // ----- all steps -----

  /** The recipient's slice made the move `m`, or stayed as it was. */
  predicate Follows(w: World, w': World, r: Id, m: Option<Lifecycle.Move>)
    requires r in w.t.recipients
  {
    && r in w'.t.recipients
    && match m
       case None => SliceOf(w', r) == SliceOf(w, r)
       case Some(move) =>
         Lifecycle.Possible(SliceOf(w, r), move)
         && SliceOf(w', r) == Lifecycle.Do(w.policy, SliceOf(w, r), move)
  }

  /** A step of task `k` is the move `m` for its own recipient and nothing for the others. */
  function Own(k: TaskKey, r: Id, m: Lifecycle.Move): Option<Lifecycle.Move> {
    if k.recipient == r then Some(m) else None
  }

  function Begun(w: World, k: TaskKey): World
    requires k in w.q
  {
    w.(q := w.q[k := w.q[k].(state := TaskState.Active(SendHandler.Fetch), runs := w.q[k].runs + 1)])
  }

  lemma BeginFollows(w: World, k: TaskKey, r: Id)
    requires Known(w, k) && r in w.t.recipients && w.q[k].state.Waiting?
    ensures Follows(w, Begun(w, k), r, Own(k, r, Lifecycle.Begin(k.queue)))
  {
    PutSlice(w, k, w.q[k].(state := TaskState.Active(SendHandler.Fetch), runs := w.q[k].runs + 1), r);
  }

  lemma StatementFollows(w: World, k: TaskKey, e: SendHandler.Environment, r: Id)
    requires Known(w, k) && r in w.t.recipients && ActiveAt(w, k) && !w.q[k].state.pc.Returned?
    ensures Follows(w, ApplySend(w, k, e), r, Own(k, r, Lifecycle.Statement(k.queue, e)))
  {
    StatementSlice(w, k, e, r);
  }

  lemma EndFollows(w: World, k: TaskKey, r: Id)
    requires Known(w, k) && r in w.t.recipients && ActiveAt(w, k) && w.q[k].state.pc.Returned?
    ensures Follows(w, Conclude(w, k, w.q[k].state.pc.outcome), r, Own(k, r, Lifecycle.End(k.queue)))
  {
    ConcludeSlice(w, k, w.q[k].state.pc.outcome, r);
  }

  lemma CrashFollows(w: World, k: TaskKey, r: Id)
    requires Known(w, k) && r in w.t.recipients && ActiveAt(w, k)
    ensures Follows(w, ApplyCrash(w, k), r, Own(k, r, Lifecycle.Crash(k.queue)))
  {
    CrashSlice(w, k, r);
  }

  lemma FanoutFollows(w: World, run: Id, reply: FanoutHandler.Reply, r: Id) returns (m: Option<Lifecycle.Move>)
    requires Structure.FanoutEnabled(w, run, reply) && r in w.t.recipients
    ensures Follows(w, ApplyFanout(w, run, reply), r, m) && (m.Some? ==> m.value.Enqueued?)
  {
    if Enqueues(w, run, reply) {
      var p := EnqueuedPayload(w.fanouts[run]);
      EnqueueOneSlice(w, run, reply, r);
      m := Own(KeyOf(p), r, Lifecycle.Enqueued(p.provider, p));
    } else {
      OtherFanoutSlice(w, run, reply, r);
      m := None;
    }
  }

  lemma CreateFollows(w: World, c: Id, reply: CreateHandler.Reply, r: Id)
    requires Structure.CreateEnabled(w, c, reply) && r in w.t.recipients
    ensures Follows(w, ApplyCreate(w, c, reply), r, None)
  {
    SameSlice(w, ApplyCreate(w, c, reply), r);
  }

  /** Every task in a structured world is known. */
  ghost predicate AllKnown(w: World) {
    forall k :: k in w.q ==> Known(w, k)
  }

  lemma StructuredKnown(w: World)
    requires Structure.Structured(w)
    ensures AllKnown(w)
  {
  }

  /** The step is the move `m` of recipient `r`. */
  predicate Causes(s: Step, r: Id, m: Lifecycle.Move) {
    match m
    case Enqueued(_, _) => s.FanoutStep?
    case Begin(p) => s == SendBegin(TaskKey(p, r))
    case Statement(p, e) => s == SendStep(TaskKey(p, r), e)
    case End(p) => s == SendEnd(TaskKey(p, r))
    case Crash(p) => s == SendCrash(TaskKey(p, r))
  }

  lemma StepIsMove(w: World, s: Step, r: Id) returns (m: Option<Lifecycle.Move>)
    requires AllKnown(w) && Enabled(w, s) && r in w.t.recipients
    ensures Follows(w, Apply(w, s), r, m) && (m.Some? ==> Causes(s, r, m.value))
  {
    match s
    case SendBegin(k) => BeginFollows(w, k, r); m := Own(k, r, Lifecycle.Begin(k.queue));
    case SendStep(k, e) => StatementFollows(w, k, e, r); m := Own(k, r, Lifecycle.Statement(k.queue, e));
    case SendEnd(k) => EndFollows(w, k, r); m := Own(k, r, Lifecycle.End(k.queue));
    case SendCrash(k) => CrashFollows(w, k, r); m := Own(k, r, Lifecycle.Crash(k.queue));
    case FanoutStep(run, reply) => m := FanoutFollows(w, run, reply, r);
    case CreateStep(c, reply) => CreateFollows(w, c, reply, r); m := None;
    case _ => m := None;
  }

  // ----- recipients to come -----

  lemma ConcludePast(w: World, k: TaskKey, o: Outcome)
    requires PastOk(w) && Known(w, k)
    ensures PastOk(Conclude(w, k, o))
  {
  }

  lemma StatementPast(w: World, k: TaskKey, e: SendHandler.Environment)
    requires PastOk(w) && Known(w, k) && ActiveAt(w, k)
    ensures PastOk(ApplySend(w, k, e))
  {
    Structure.SendHandlerTables(w.t, w.q[k].payload, LastAttempt(w.q[k]), w.q[k].state.pc, e);
  }

  lemma CrashPast(w: World, k: TaskKey)
    requires PastOk(w) && Known(w, k) && ActiveAt(w, k)
    ensures PastOk(ApplyCrash(w, k))
  {
  }

  lemma FanoutPast(w: World, run: Id, reply: FanoutHandler.Reply)
    requires PastOk(w) && Structure.FanoutEnabled(w, run, reply)
    ensures PastOk(ApplyFanout(w, run, reply))
  {
    Structure.FanoutStepGrows(w, run, reply);
  }

  lemma StepKeepsPast(w: World, s: Step)
    requires AllKnown(w) && PastOk(w) && Enabled(w, s)
    ensures PastOk(Apply(w, s))
  {
    match s
    case SendStep(k, e) => StatementPast(w, k, e);
    case SendEnd(k) => ConcludePast(w, k, w.q[k].state.pc.outcome);
    case SendCrash(k) => CrashPast(w, k);
    case FanoutStep(run, reply) => FanoutPast(w, run, reply);
    case _ =>
  }

  lemma BornQueued(n: Id, project: Id, s: FanoutHandler.State, reply: FanoutHandler.Reply, r: Id)
    requires FanoutHandler.Enabled(project, s, reply)
    requires r !in s.t.recipients && r in FanoutHandler.Step(n, project, s, reply).t.recipients
    ensures s.pc.Insert? && FanoutHandler.Step(n, project, s, reply).q == s.q
    ensures var row := FanoutHandler.Step(n, project, s, reply).t.recipients[r];
            row.status == Queued && row.attempts == 0 && row.error == None
  {
  }

  lemma Untasked(w: World, r: Id)
    requires Structure.QueueOk(w) && r !in w.t.recipients
    ensures TasksOf(w.q, r) == map[] && QueuesOf(w.h.enqueued, r) == {}
  {
    assert forall p :: TaskKey(p, r) !in w.h.enqueued;
  }

  lemma BornClean(w: World, run: Id, reply: FanoutHandler.Reply, r: Id)
    requires Structure.QueueOk(w) && NoPast(w.h, r) && Structure.FanoutEnabled(w, run, reply)
    requires r !in w.t.recipients && r in ApplyFanout(w, run, reply).t.recipients
    ensures Lifecycle.Newborn(SliceOf(ApplyFanout(w, run, reply), r))
  {
    BornQueued(w.fanouts[run].notification, w.fanouts[run].project, FanoutView(w, run), reply, r);
    Untasked(w, r);
  }

  lemma SendBirths(w: World, s: Step)
    requires Enabled(w, s) && !s.FanoutStep?
    ensures Apply(w, s).t.recipients.Keys == w.t.recipients.Keys
  {
    if Structure.OnSendSide(s) { Structure.StepSendSide(w, s); }
  }

  // ----- every reachable state -----

  lemma StepLives(w: World, s: Step, r: Id)
    requires AllKnown(w) && Structure.QueueOk(w) && PastOk(w) && LivesOk(w) && Enabled(w, s)
    requires r in Apply(w, s).t.recipients
    ensures Lifecycle.Ok(w.policy, SliceOf(Apply(w, s), r))
  {
    if r in w.t.recipients {
      var m := StepIsMove(w, s, r);
      if m.Some? { Lifecycle.MoveKeepsOk(w.policy, SliceOf(w, r), m.value); }
    } else if s.FanoutStep? {
      BornClean(w, s.run, s.fanoutReply, r);
      Lifecycle.NewbornOk(w.policy, SliceOf(Apply(w, s), r));
    } else {
      SendBirths(w, s);
    }
  }

  lemma StepSane(w: World, s: Step)
    requires Sane(w) && Enabled(w, s)
    ensures Sane(Apply(w, s))
  {
    StructuredKnown(w);
    Structure.StepStructured(w, s);
    StepKeepsPast(w, s);
    Structure.StepGrows(w, s);
    forall r | r in Apply(w, s).t.recipients ensures Lifecycle.Ok(w.policy, SliceOf(Apply(w, s), r)) {
      StepLives(w, s, r);
    }
  }

  lemma {:induction false} RunSane(w: World, steps: seq<Step>)
    requires Sane(w) && Valid(w, steps)
    ensures Sane(Run(w, steps))
    decreases |steps|
  {
    if steps != [] {
      StepSane(w, steps[0]);
      RunSane(Apply(w, steps[0]), steps[1..]);
    }
  }

  lemma StartSane(policy: FailurePolicy)
    ensures Sane(Start(policy))
  {
    Structure.StartStructured(policy);
  }
}
