/**
 The life of one recipient: its row, its tasks in the send queues, and what has happened to it.

 A `Slice` is everything in the pipeline that concerns one recipient, and `Move` is what one
 pipeline step does to it; Simulation shows that every step of the whole machine is, for each
 recipient, a move or nothing. The invariants of a recipient are proved here, on the slice.
 */
module Lifecycle {
  import opened Prelude
  import opened Store
  import opened TaskQueue
  import opened SendQueue
  import opened SendHandler

  /** `tasks` and `enqueued` are by queue; the counters and marks are those of Pipeline.History. */
  datatype Slice = Slice(
    row: Recipient, tasks: map<Provider, SendTask>, enqueued: set<Provider>,
    accepted: nat, throttles: nat, retries: nat,
    unacked: bool, dropped: bool, disturbed: bool)

  datatype Move =
    | Enqueued(queue: Provider, payload: SendPayload)
    | Begin(queue: Provider)
    | Statement(queue: Provider, env: Environment)
    | End(queue: Provider)
    | Crash(queue: Provider)

  // ----- one statement, as the row sees it -----

  const SELF: Id := 0

  /** The handler's statement on a table holding just this row. */
  function RowStep(row: Recipient, last: bool, pc: Pc, e: Environment): (Recipient, Pc) {
    var alone := Tables(map[], map[], map[SELF := row], map[], map[]);
    var p := SendPayload(row.notification, SELF, row.device, 0, row.provider, "");
    var (t, pc') := SendHandler.Step(alone, p, last, pc, e);
    (t.recipients[SELF], pc')
  }

  /** A statement depends on, and changes, no recipient row but its own. */
  lemma StepIsLocal(t: Tables, p: SendPayload, last: bool, pc: Pc, e: Environment)
    requires p.recipient in t.recipients
    ensures var (t', pc') := SendHandler.Step(t, p, last, pc, e);
            var (row', pc'') := RowStep(t.recipients[p.recipient], last, pc, e);
            t'.recipients == t.recipients[p.recipient := row'] && pc' == pc''
  {
  }

  // ----- moves -----

  predicate ActiveIn(s: Slice, p: Provider) {
    p in s.tasks && s.tasks[p].state.Active?
  }

  function Conclude(policy: FailurePolicy, s: Slice, p: Provider, o: Outcome): Slice
    requires p in s.tasks
  {
    var task := s.tasks[p];
    match Decide(o, task.retried, policy)
    case Complete => s.(tasks := s.tasks - {p})
    case Reschedule => s.(tasks := s.tasks[p := task.(state := Waiting, denials := task.denials + 1)])
    case Retry => s.(tasks := s.tasks[p := task.(state := Waiting, retried := task.retried + 1)],
                     retries := s.retries + 1)
    case Archive(reason) => s.(tasks := s.tasks[p := task.(state := Archived(reason))])
  }

  predicate Possible(s: Slice, m: Move) {
    match m
    case Enqueued(_, _) => true
    case Begin(p) => p in s.tasks && s.tasks[p].state.Waiting?
    case Statement(p, _) => ActiveIn(s, p) && !s.tasks[p].state.pc.Returned?
    case End(p) => ActiveIn(s, p) && s.tasks[p].state.pc.Returned?
    case Crash(p) => ActiveIn(s, p)
  }

  function DoStatement(s: Slice, p: Provider, e: Environment): Slice
    requires ActiveIn(s, p)
  {
    var task := s.tasks[p];
    var pc := task.state.pc;
    var (row, pc') := RowStep(s.row, LastAttempt(task), pc, e);
    var fault := Faulty(true, pc, e);
    s.(row := row, tasks := s.tasks[p := task.(state := TaskState.Active(pc'))],
       accepted := if pc.Call? && e.result.StatusSent? then s.accepted + 1 else s.accepted,
       throttles := if pc.Call? && e.result.StatusThrottled? then s.throttles + 1 else s.throttles,
       unacked := s.unacked || (fault && pc.MarkSent?),
       dropped := s.dropped || (fault && (pc.Fail? || LastAttempt(task))),
       disturbed := s.disturbed || fault)
  }

  function DoCrash(policy: FailurePolicy, s: Slice, p: Provider): Slice
    requires ActiveIn(s, p)
  {
    var task := s.tasks[p];
    Conclude(policy, s.(disturbed := true,
                        unacked := s.unacked || task.state.pc.MarkSent?,
                        dropped := s.dropped || (LastAttempt(task) && !Settled(policy, task))),
             p, Failure)
  }

  function Do(policy: FailurePolicy, s: Slice, m: Move): Slice
    requires Possible(s, m)
  {
    match m
    case Enqueued(p, payload) =>
      s.(enqueued := s.enqueued + {p},
         tasks := if p in s.tasks then s.tasks else s.tasks[p := SendTask(payload, 0, Waiting, 0, 0)])
    case Begin(p) =>
      s.(tasks := s.tasks[p := s.tasks[p].(state := TaskState.Active(Fetch), runs := s.tasks[p].runs + 1)])
    case Statement(p, e) => DoStatement(s, p, e)
    case End(p) => Conclude(policy, s, p, s.tasks[p].state.pc.outcome)
    case Crash(p) => DoCrash(policy, s, p)
  }

  /** A row just inserted. */
  predicate Newborn(s: Slice) {
    && s.row.status == Queued && s.row.attempts == 0 && s.row.error == None
    && s.tasks == map[] && s.enqueued == {}
    && s.accepted == 0 && s.throttles == 0 && s.retries == 0
    && !s.unacked && !s.dropped && !s.disturbed
  }

  // ----- the invariants -----

  /** At most one queue has ever been given this recipient. */
  predicate OneQueue(s: Slice) {
    forall a, b :: a in s.enqueued && b in s.enqueued ==> a == b
  }

  predicate PastSending(pc: Pc) {
    Working(pc) && !pc.Limit? && !pc.MarkSending?
  }

  /** Facts about cursors and counters that hold whatever fails. */
  predicate Sound(s: Slice) {
    && (forall p :: p in s.tasks ==>
          && p in s.enqueued && s.tasks[p].retried <= MAX_RETRY
          && (s.tasks[p].state.Active? ==> SoundCursor(s.tasks[p]))
          && (s.tasks[p].state.Active? && PastSending(s.tasks[p].state.pc) ==> s.row.attempts > 0))
    && (s.row.status == Queued <==> s.row.attempts == 0)
  }

  predicate SoundCursor(task: SendTask)
    requires task.state.Active?
  {
    task.state.pc.Fail? ==>
      && (task.state.pc.code == TransientErrorExhausted <==> task.state.pc.outcome == Failure)
      && (task.state.pc.outcome == Failure ==> LastAttempt(task))
      && task.state.pc.outcome != Throttled
  }

  /** With one queue, an attempt past its fetch still faces a row that is not terminal. */
  predicate Exclusive(s: Slice) {
    OneQueue(s) ==>
      && (forall p :: ActiveIn(s, p) && Working(s.tasks[p].state.pc) ==> !Terminal(s.row.status))
      && (s.row.error.Some? ==> s.row.status == Status.Failed)
  }

  predicate Acknowledging(s: Slice) {
    exists p :: ActiveIn(s, p) && s.tasks[p].state.pc.MarkSent?
  }

  /** At most one accepted push; once there is one the row says so, or is about to. */
  predicate AtMostOnce(s: Slice) {
    OneQueue(s) && !s.unacked ==>
      s.accepted <= 1 && (s.accepted == 1 ==> s.row.status == Sent || Acknowledging(s))
  }

  /** The current run has been counted by attempts but not yet by an outcome. */
  predicate InFlight(task: SendTask) {
    && task.state.Active?
    && (PastSending(task.state.pc) || (task.state.pc == Returned(Failure) && !LastAttempt(task)))
  }

  predicate Counting(s: Slice) {
    exists p :: p in s.tasks && InFlight(s.tasks[p])
  }

  function Ones(b: bool): nat {
    if b then 1 else 0
  }

  /** Every attempt is a counted retry, a provider throttle, the one that ended it, or under way. */
  predicate Accounted(policy: FailurePolicy, s: Slice) {
    policy.ExemptThrottles? && OneQueue(s) && !s.disturbed ==>
      s.row.attempts == s.retries + s.throttles + Ones(Terminal(s.row.status)) + Ones(Counting(s))
  }

  predicate Exhausting(task: SendTask) {
    LastAttempt(task) && (task.state == Archived(Exhausted) || task.state == TaskState.Active(Returned(Failure)))
  }

  /** transient_error_exhausted and the queue's own exhaustion go together. */
  predicate ExhaustionAgrees(policy: FailurePolicy, s: Slice) {
    policy.ExemptThrottles? && OneQueue(s) && !s.disturbed ==>
      && (forall p :: p in s.tasks && (Exhausting(s.tasks[p]) || s.tasks[p].state == Archived(Exhausted)) ==>
            Exhausting(s.tasks[p]) && s.row.error == Some(TransientErrorExhausted))
      && (s.row.error == Some(TransientErrorExhausted) ==> exists p :: p in s.tasks && Exhausting(s.tasks[p]))
  }

  predicate InCirculation(policy: FailurePolicy, s: Slice) {
    exists p :: p in s.tasks && !s.tasks[p].state.Archived? && !Settled(policy, s.tasks[p])
  }

  /** Once enqueued, and unless dropped, a recipient is terminal or some task will still serve it. */
  predicate NotLost(policy: FailurePolicy, s: Slice) {
    policy.ExemptThrottles? && s.enqueued != {} && !s.dropped ==>
      Terminal(s.row.status) || InCirculation(policy, s)
  }

  predicate Ok(policy: FailurePolicy, s: Slice) {
    && Sound(s) && Exclusive(s) && AtMostOnce(s)
    && Accounted(policy, s) && ExhaustionAgrees(policy, s) && NotLost(policy, s)
  }

  lemma NewbornOk(policy: FailurePolicy, s: Slice)
    requires Newborn(s)
    ensures Ok(policy, s)
  {
  }

  // ----- every move keeps them -----

  lemma MoveKeepsSound(policy: FailurePolicy, s: Slice, m: Move)
    requires Sound(s) && Possible(s, m)
    ensures Sound(Do(policy, s, m))
  {
    match m
    case Statement(p, e) => StatementKeepsSound(s, p, e);
    case End(p) => ConcludeKeepsSound(policy, s, p, s.tasks[p].state.pc.outcome);
    case Crash(p) =>
      MarksKeepSound(s, true, s.unacked || s.tasks[p].state.pc.MarkSent?,
                     s.dropped || (LastAttempt(s.tasks[p]) && !Settled(policy, s.tasks[p])));
      ConcludeKeepsSound(policy, CrashMarked(policy, s, p), p, Failure);
    case Begin(p) =>
    case Enqueued(p, _) =>
  }

  function CrashMarked(policy: FailurePolicy, s: Slice, p: Provider): Slice
    requires ActiveIn(s, p)
  {
    s.(disturbed := true, unacked := s.unacked || s.tasks[p].state.pc.MarkSent?,
       dropped := s.dropped || (LastAttempt(s.tasks[p]) && !Settled(policy, s.tasks[p])))
  }

  lemma MarksKeepSound(s: Slice, disturbed: bool, unacked: bool, dropped: bool)
    requires Sound(s)
    ensures Sound(s.(disturbed := disturbed, unacked := unacked, dropped := dropped))
  {
  }

  /** A task that goes on waiting, or is archived, within its budget. */
  lemma RestingKeepsSound(s: Slice, p: Provider, task: SendTask, retries: nat)
    requires Sound(s) && p in s.tasks && !task.state.Active? && task.retried <= MAX_RETRY
    ensures Sound(s.(tasks := s.tasks[p := task], retries := retries))
  {
  }

  lemma ConcludeKeepsSound(policy: FailurePolicy, s: Slice, p: Provider, o: Outcome)
    requires Sound(s) && ActiveIn(s, p)
    ensures Sound(Conclude(policy, s, p, o))
  {
    var s' := Conclude(policy, s, p, o);
    assert s' == s.(tasks := s'.tasks, retries := s'.retries);
    if p in s'.tasks {
      assert s'.tasks == s.tasks[p := s'.tasks[p]];
      RestingKeepsSound(s, p, s'.tasks[p], s'.retries);
    } else {
      assert s' == s.(tasks := s.tasks - {p});
      GoneKeepsSound(s, p);
    }
  }

  lemma GoneKeepsSound(s: Slice, p: Provider)
    requires Sound(s)
    ensures Sound(s.(tasks := s.tasks - {p}))
  {
  }

  lemma StatementKeepsSound(s: Slice, p: Provider, e: Environment)
    requires Sound(s) && Possible(s, Statement(p, e))
    ensures Sound(DoStatement(s, p, e))
  {
    RowStepSound(s.row, s.tasks[p], e);
  }

  lemma RowStepCursor(row: Recipient, task: SendTask, e: Environment)
    requires task.state.Active? && SoundCursor(task)
    ensures SoundCursor(task.(state := TaskState.Active(RowStep(row, LastAttempt(task), task.state.pc, e).1)))
  {
  }

  /** One statement, and what it can do to the row. */
  lemma RowStepRow(row: Recipient, last: bool, pc: Pc, e: Environment)
    ensures var (row', pc') := RowStep(row, last, pc, e);
            && row'.attempts >= row.attempts
            && (PastSending(pc') ==> PastSending(pc) || row'.attempts > 0)
            && (row' == row
                || (row'.status == Sending && row'.attempts == row.attempts + 1)
                || (Terminal(row'.status) && PastSending(pc) && row'.attempts == row.attempts))
  {
  }

  lemma RowStepSound(row: Recipient, task: SendTask, e: Environment)
    requires task.state.Active? && SoundCursor(task)
    ensures var (row', pc) := RowStep(row, LastAttempt(task), task.state.pc, e);
            && row'.attempts >= row.attempts
            && SoundCursor(task.(state := TaskState.Active(pc)))
            && (PastSending(pc) ==> PastSending(task.state.pc) || row'.attempts > 0)
            && (row' == row
                || (row'.status == Sending && row'.attempts == row.attempts + 1)
                || (Terminal(row'.status) && PastSending(task.state.pc) && row'.attempts == row.attempts))
  {
    RowStepCursor(row, task, e);
    RowStepRow(row, LastAttempt(task), task.state.pc, e);
  }

  lemma OnlyTask(s: Slice, q: Provider)
    requires Sound(s) && OneQueue(s) && q in s.tasks
    ensures s.tasks.Keys == {q}
  {
  }

  lemma MoveKeepsExclusive(policy: FailurePolicy, s: Slice, m: Move)
    requires Sound(s) && Exclusive(s) && Possible(s, m)
    ensures Exclusive(Do(policy, s, m))
  {
    if OneQueue(Do(policy, s, m)) {
      match m
      case Statement(p, e) => OnlyTask(s, p); StatementKeepsExclusive(s, p, e);
      case _ => OtherKeepsExclusive(policy, s, m);
    }
  }

  /** Moves other than statements put no attempt past its fetch and leave the row alone. */
  lemma OtherKeepsExclusive(policy: FailurePolicy, s: Slice, m: Move)
    requires Exclusive(s) && Possible(s, m) && !m.Statement? && OneQueue(s)
    ensures Exclusive(Do(policy, s, m))
  {
  }

  lemma StatementKeepsExclusive(s: Slice, p: Provider, e: Environment)
    requires Sound(s) && Exclusive(s) && OneQueue(s) && s.tasks.Keys == {p} && Possible(s, Statement(p, e))
    ensures Exclusive(DoStatement(s, p, e))
  {
    assert Working(s.tasks[p].state.pc) ==> s.row.error.None?;
  }

  lemma StatementKeepsAtMostOnce(s: Slice, p: Provider, e: Environment)
    requires Exclusive(s) && AtMostOnce(s) && OneQueue(s) && s.tasks.Keys == {p} && Possible(s, Statement(p, e))
    requires !DoStatement(s, p, e).unacked
    ensures AtMostOnce(DoStatement(s, p, e))
  {
    var s' := DoStatement(s, p, e);
    assert s.tasks[p].state.pc.Call? && e.result.StatusSent? ==> ActiveIn(s', p) && s'.tasks[p].state.pc.MarkSent?;
  }

  /** Moves other than statements accept nothing, and only a crash ends an acknowledgement. */
  lemma OtherKeepsAtMostOnce(policy: FailurePolicy, s: Slice, m: Move)
    requires Sound(s) && AtMostOnce(s) && Possible(s, m) && !m.Statement? && OneQueue(s) && !Do(policy, s, m).unacked
    ensures AtMostOnce(Do(policy, s, m))
  {
    if Acknowledging(s) {
      var a :| ActiveIn(s, a) && s.tasks[a].state.pc.MarkSent?;
      OnlyTask(s, a);
      assert m.Enqueued?;
      assert ActiveIn(Do(policy, s, m), a);
    }
  }

  lemma MoveKeepsAtMostOnce(policy: FailurePolicy, s: Slice, m: Move)
    requires Sound(s) && Exclusive(s) && AtMostOnce(s) && Possible(s, m)
    ensures AtMostOnce(Do(policy, s, m))
  {
    var s' := Do(policy, s, m);
    if OneQueue(s') && !s'.unacked {
      if m.Statement? {
        OnlyTask(s, m.queue);
        StatementKeepsAtMostOnce(s, m.queue, m.env);
      } else {
        OtherKeepsAtMostOnce(policy, s, m);
      }
    }
  }

  /** With one queue, the task that moves is the only one there is. */
  lemma CountingIs(s: Slice, q: Provider)
    requires s.tasks.Keys <= {q}
    ensures Counting(s) <==> q in s.tasks && InFlight(s.tasks[q])
  {
  }

  lemma MoveKeepsAccounted(policy: FailurePolicy, s: Slice, m: Move)
    requires Sound(s) && Exclusive(s) && Accounted(policy, s) && Possible(s, m)
    ensures Accounted(policy, Do(policy, s, m))
  {
    var s' := Do(policy, s, m);
    if policy.ExemptThrottles? && OneQueue(s') && !s'.disturbed {
      var q := m.queue;
      if q in s.tasks { OnlyTask(s, q); }
      assert s.tasks.Keys <= {q} && s'.tasks.Keys <= {q};
      CountingIs(s, q);
      CountingIs(s', q);
      if m.Statement? { StatementKeepsAccounted(policy, s, q, m.env); }
    }
  }

  lemma StatementKeepsAccounted(policy: FailurePolicy, s: Slice, p: Provider, e: Environment)
    requires Sound(s) && Exclusive(s) && Accounted(policy, s) && Possible(s, Statement(p, e))
    requires policy.ExemptThrottles? && OneQueue(s) && s.tasks.Keys == {p} && !DoStatement(s, p, e).disturbed
    ensures Accounted(policy, DoStatement(s, p, e))
  {
    CountingIs(s, p);
    CountingIs(DoStatement(s, p, e), p);
  }

  /** For a recipient with at most the task of queue `q`. */
  predicate ExhaustionOf(s: Slice, q: Provider) {
    && (q in s.tasks && s.tasks[q].state == Archived(Exhausted) ==> Exhausting(s.tasks[q]))
    && ((q in s.tasks && Exhausting(s.tasks[q])) <==> s.row.error == Some(TransientErrorExhausted))
  }

  lemma ExhaustionIs(policy: FailurePolicy, s: Slice, q: Provider)
    requires s.tasks.Keys <= {q} && policy.ExemptThrottles? && OneQueue(s) && !s.disturbed
    ensures ExhaustionAgrees(policy, s) <==> ExhaustionOf(s, q)
  {
  }

  lemma MoveKeepsExhaustionOf(policy: FailurePolicy, s: Slice, m: Move)
    requires Sound(s) && Exclusive(s) && OneQueue(s) && s.tasks.Keys <= {m.queue} && Possible(s, m)
    requires policy.ExemptThrottles? && !Do(policy, s, m).disturbed && ExhaustionOf(s, m.queue)
    ensures ExhaustionOf(Do(policy, s, m), m.queue)
  {
  }

  lemma MoveKeepsExhaustion(policy: FailurePolicy, s: Slice, m: Move)
    requires Sound(s) && Exclusive(s) && ExhaustionAgrees(policy, s) && Possible(s, m)
    ensures ExhaustionAgrees(policy, Do(policy, s, m))
  {
    var s' := Do(policy, s, m);
    if policy.ExemptThrottles? && OneQueue(s') && !s'.disturbed {
      if m.queue in s.tasks { OnlyTask(s, m.queue); }
      assert s.tasks.Keys <= {m.queue} && s'.tasks.Keys <= {m.queue};
      ExhaustionIs(policy, s, m.queue);
      MoveKeepsExhaustionOf(policy, s, m);
      ExhaustionIs(policy, s', m.queue);
    }
  }

  lemma MoveKeepsNotLost(policy: FailurePolicy, s: Slice, m: Move)
    requires Sound(s) && NotLost(policy, s) && Possible(s, m)
    ensures NotLost(policy, Do(policy, s, m))
  {
    var s' := Do(policy, s, m);
    if policy.ExemptThrottles? && s'.enqueued != {} && !s'.dropped && !Terminal(s'.row.status) {
      var q := m.queue;
      if q in s'.tasks && !s'.tasks[q].state.Archived? && !Settled(policy, s'.tasks[q]) {
        assert InCirculation(policy, s');
      } else {
        OthersCirculate(policy, s, m);
        var p :| p in s.tasks && p != q && !s.tasks[p].state.Archived? && !Settled(policy, s.tasks[p]);
        assert p in s'.tasks && s'.tasks[p] == s.tasks[p];
      }
    }
  }

  /** The moving task is leaving, yet the row is not terminal: some other task must be in circulation. */
  lemma OthersCirculate(policy: FailurePolicy, s: Slice, m: Move)
    requires Sound(s) && NotLost(policy, s) && Possible(s, m)
    requires var s' := Do(policy, s, m);
             && policy.ExemptThrottles? && s'.enqueued != {} && !s'.dropped && !Terminal(s'.row.status)
             && !(m.queue in s'.tasks && !s'.tasks[m.queue].state.Archived? && !Settled(policy, s'.tasks[m.queue]))
    ensures exists p :: p in s.tasks && p != m.queue
                        && !s.tasks[p].state.Archived? && !Settled(policy, s.tasks[p])
  {
  }

  lemma MoveKeepsOk(policy: FailurePolicy, s: Slice, m: Move)
    requires Ok(policy, s) && Possible(s, m)
    ensures Ok(policy, Do(policy, s, m))
  {
    MoveKeepsSound(policy, s, m);
    MoveKeepsExclusive(policy, s, m);
    MoveKeepsAtMostOnce(policy, s, m);
    MoveKeepsAccounted(policy, s, m);
    MoveKeepsExhaustion(policy, s, m);
    MoveKeepsNotLost(policy, s, m);
  }

  /** A row once terminal keeps its status and error, as long as one queue holds the recipient. */
  lemma TerminalStays(policy: FailurePolicy, s: Slice, m: Move)
    requires Sound(s) && Exclusive(s) && Possible(s, m)
    requires OneQueue(Do(policy, s, m)) && Terminal(s.row.status)
    ensures Do(policy, s, m).row == s.row
  {
    match m
    case Statement(p, e) => RowStepSound(s.row, s.tasks[p], e);
    case _ =>
  }

  // ----- recipients that nothing will serve again -----

  /** The task is archived, or its last run has failed and it will be. */
  predicate Dead(task: SendTask) {
    task.state.Archived? || (LastAttempt(task) && task.state == TaskState.Active(Returned(Failure)))
  }

  predicate Spent(s: Slice) {
    Terminal(s.row.status) || exists p :: p in s.tasks && Dead(s.tasks[p])
  }

  lemma DeadStays(policy: FailurePolicy, s: Slice, m: Move, p: Provider)
    requires Sound(s) && Possible(s, m) && OneQueue(Do(policy, s, m)) && p in s.tasks && Dead(s.tasks[p])
    ensures Do(policy, s, m).row == s.row && Do(policy, s, m).accepted == s.accepted
    ensures p in Do(policy, s, m).tasks && Dead(Do(policy, s, m).tasks[p])
  {
    assert p in s.enqueued && p in Do(policy, s, m).enqueued;
    assert m.queue in Do(policy, s, m).enqueued;
  }

  /** With one queue, a row that is terminal or whose task is dead never changes or sends again. */
  lemma SpentStays(policy: FailurePolicy, s: Slice, m: Move)
    requires Sound(s) && Exclusive(s) && Possible(s, m) && OneQueue(Do(policy, s, m)) && Spent(s)
    ensures Do(policy, s, m).row == s.row && Do(policy, s, m).accepted == s.accepted && Spent(Do(policy, s, m))
  {
    if Terminal(s.row.status) {
      TerminalStays(policy, s, m);
      if m.Statement? { OnlyTask(s, m.queue); }
    } else {
      var p :| p in s.tasks && Dead(s.tasks[p]);
      DeadStays(policy, s, m, p);
    }
  }

  // ----- recipients with one live task -----

  /** Every task but that of queue `p` is archived. */
  predicate Solo(s: Slice, p: Provider) {
    forall q :: q in s.tasks && q != p ==> s.tasks[q].state.Archived?
  }

  /** Since there were `base` acceptances, task `p` has added at most one, and then the row says so. */
  predicate OneMore(s: Slice, p: Provider, base: nat) {
    && Solo(s, p) && base <= s.accepted <= base + 1
    && (ActiveIn(s, p) && Working(s.tasks[p].state.pc) ==> !Terminal(s.row.status))
    && (s.accepted == base + 1 ==> Terminal(s.row.status) || (ActiveIn(s, p) && s.tasks[p].state.pc.MarkSent?))
  }

  /** The move enqueues nothing and loses no acceptance. */
  predicate Recorded(s: Slice, m: Move) {
    match m
    case Enqueued(_, _) => false
    case Statement(p, e) => ActiveIn(s, p) && s.tasks[p].state.pc.MarkSent? ==> e.sentUp
    case Crash(p) => !(ActiveIn(s, p) && s.tasks[p].state.pc.MarkSent?)
    case _ => true
  }

  lemma StatementKeepsOneMore(s: Slice, p: Provider, e: Environment, base: nat)
    requires OneMore(s, p, base) && Possible(s, Statement(p, e)) && Recorded(s, Statement(p, e))
    ensures OneMore(DoStatement(s, p, e), p, base)
  {
  }

  lemma MoveKeepsOneMore(policy: FailurePolicy, s: Slice, m: Move, p: Provider, base: nat)
    requires OneMore(s, p, base) && Possible(s, m) && Recorded(s, m)
    ensures OneMore(Do(policy, s, m), p, base)
  {
    assert m.queue == p;
    match m
    case Statement(_, e) => StatementKeepsOneMore(s, p, e, base);
    case _ =>
  }
}
