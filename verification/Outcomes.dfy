/** Loss, retries, restarts, creation and completion, over every run of the pipeline. */
module Outcomes {
  import opened Prelude
  import opened Store
  import opened TaskQueue
  import opened SendQueue
  import opened Pipeline
  import opened Structure
  import opened Simulation
  import opened Guarantees
  import FanoutHandler
  import CreateHandler
  import Lifecycle

  // ----- no silent loss -----

  predicate Resolved(w: World, r: Id)
    requires r in w.t.recipients
  {
    Terminal(w.t.recipients[r].status)
  }

  /** Some task of the recipient is waiting or running, and will not leave without another verdict. */
  ghost predicate StillServed(w: World, r: Id) {
    exists k :: k in w.q && k.recipient == r && !w.q[k].state.Archived? && !Settled(w.policy, w.q[k])
  }

  /**
   Once a send task was enqueued for a recipient, in whatever queues, its row is terminal or a
   task is still going to serve it. Errors, crashes and throttles do not matter, except an
   error or crash on the last attempt and a lost failure write.
   */
  lemma NoSilentLoss(w: World, k: TaskKey)
    requires Reachable(ExemptThrottles, w)
    requires k in w.h.enqueued && k.recipient !in w.h.dropped
    ensures k.recipient in w.t.recipients
    ensures Resolved(w, k.recipient) || StillServed(w, k.recipient)
  {
    ReachableKeys(ExemptThrottles, w);
    var r := k.recipient;
    ReachableLife(ExemptThrottles, w, r);
    var s := SliceOf(w, r);
    assert k == TaskKey(k.queue, r);
    assert k.queue in s.enqueued;
    assert Lifecycle.NotLost(w.policy, s);
    if !Terminal(s.row.status) {
      var p :| p in s.tasks && !s.tasks[p].state.Archived? && !Settled(w.policy, s.tasks[p]);
      assert TaskKey(p, r) in w.q;
    }
  }

  // ----- attempts and exhaustion -----

  predicate BetweenRuns(w: World, r: Id) {
    forall k :: k in w.q && k.recipient == r ==> !w.q[k].state.Active?
  }

  /** attempt_count between runs, for a recipient with one queue and no database error or crash. */
  lemma AttemptAccounting(w: World, r: Id)
    requires Reachable(ExemptThrottles, w) && r in w.t.recipients
    requires OneQueue(w.h, r) && r !in w.h.disturbed && BetweenRuns(w, r)
    ensures w.t.recipients[r].attempts
         == w.h.retries[r] + w.h.throttles[r] + (if Resolved(w, r) then 1 else 0)
  {
    ReachableLife(ExemptThrottles, w, r);
    OneQueueSlice(w, r);
    var s := SliceOf(w, r);
    forall p | p in s.tasks ensures !Lifecycle.InFlight(s.tasks[p]) {
      assert TaskKey(p, r) in w.q;
    }
    assert Lifecycle.Accounted(w.policy, s);
  }

  /** A row is `queued` exactly as long as no attempt has reached it; denials do not count. */
  lemma QueuedMeansUntried(policy: FailurePolicy, w: World, r: Id)
    requires Reachable(policy, w) && r in w.t.recipients
    ensures w.t.recipients[r].status == Queued <==> w.t.recipients[r].attempts == 0
  {
    ReachableLife(policy, w, r);
    assert Lifecycle.Sound(SliceOf(w, r));
  }

  /** Between runs, the row says transient_error_exhausted iff the queue archived the task for exhaustion. */
  lemma ExhaustionAgrees(w: World, r: Id)
    requires Reachable(ExemptThrottles, w) && r in w.t.recipients
    requires OneQueue(w.h, r) && r !in w.h.disturbed && BetweenRuns(w, r)
    ensures w.t.recipients[r].error == Some(TransientErrorExhausted)
       <==> exists k :: k in w.q && k.recipient == r && w.q[k].state == Archived(Exhausted)
    ensures w.t.recipients[r].error.Some? ==> w.t.recipients[r].status == Status.Failed
  {
    ReachableLife(ExemptThrottles, w, r);
    OneQueueSlice(w, r);
    var s := SliceOf(w, r);
    assert Lifecycle.ExhaustionAgrees(w.policy, s) && Lifecycle.Exclusive(s);
    if s.row.error == Some(TransientErrorExhausted) {
      var p :| p in s.tasks && Lifecycle.Exhausting(s.tasks[p]);
      assert TaskKey(p, r) in w.q;
    }
    if k :| k in w.q && k.recipient == r && w.q[k].state == Archived(Exhausted) {
      assert k == TaskKey(k.queue, r);
      assert k.queue in s.tasks && s.tasks[k.queue].state == Archived(Exhausted);
    }
  }

  /** A task is run at most once per denial and six times besides; exactly that often if it is exhausted. */
  lemma RunsAreBounded(policy: FailurePolicy, w: World, k: TaskKey)
    requires Reachable(policy, w) && k in w.q
    ensures w.q[k].runs <= w.q[k].denials + 6
    ensures w.q[k].state == Archived(Exhausted) ==> w.q[k].runs == w.q[k].denials + 6
  {
    ReachableKeys(policy, w);
  }

  // ----- fanout restarts -----

  /** A (notification, device) pair has one row, and that row keeps the pair in every later state. */
  lemma OneRowPerDevice(policy: FailurePolicy, w: World, steps: seq<Step>, a: Id, b: Id)
    requires Reachable(policy, w) && Valid(w, steps)
    requires var w' := Run(w, steps);
             && a in w.t.recipients && b in w'.t.recipients
             && w'.t.recipients[b].notification == w.t.recipients[a].notification
             && w'.t.recipients[b].device == w.t.recipients[a].device
    ensures a == b
  {
    ReachableSane(policy, w);
    RunStructured(w, steps);
    RunGrows(w, steps);
    var t' := Run(w, steps).t;
    assert t'.pairIndex[(t'.recipients[a].notification, t'.recipients[a].device)] == a;
    assert t'.pairIndex[(t'.recipients[b].notification, t'.recipients[b].device)] == b;
  }

  /**
   After a fanout run that reports success, and ever since, each device it fetched has a row
   that is terminal or still being served.
   */
  lemma FinishedFanoutServesAll(w: World, run: Id, i: nat)
    requires Reachable(ExemptThrottles, w) && run in w.fanouts
    requires w.fanouts[run].pc.Ended? && w.fanouts[run].pc.ok && i < |w.fanouts[run].pc.devs|
    ensures var pair := (w.fanouts[run].notification, w.fanouts[run].pc.devs[i].id);
            && pair in w.t.pairIndex
            && w.t.pairIndex[pair] in w.t.recipients
            && var r := w.t.pairIndex[pair];
               r in w.h.dropped || Resolved(w, r) || StillServed(w, r)
  {
    ReachableSane(ExemptThrottles, w);
    var f := w.fanouts[run];
    assert RunOk(w, f);
    assert Linked(w, f.notification, f.pc.devs[i]);
    var r := w.t.pairIndex[(f.notification, f.pc.devs[i].id)];
    if r !in w.h.dropped {
      NoSilentLoss(w, TaskKey(f.pc.devs[i].provider, r));
    }
  }

  // ----- project isolation -----

  /** Whatever ids a request names, a recipient's device belongs to its notification's project. */
  lemma ProjectIsolation(policy: FailurePolicy, w: World, r: Id)
    requires Reachable(policy, w) && r in w.t.recipients
    ensures Isolated(w.t, w.t.recipients[r])
  {
    ReachableSane(policy, w);
  }

  // ----- idempotent creation -----

  predicate Returned(w: World, c: Id, n: Id) {
    c in w.calls && w.calls[c].pc == CreateHandler.Done(Some(n))
  }

  /** Calls that share a project and a key all return the same notification. */
  lemma SameKeySameNotification(policy: FailurePolicy, w: World, c1: Id, c2: Id, n1: Id, n2: Id)
    requires Reachable(policy, w) && Returned(w, c1, n1) && Returned(w, c2, n2)
    requires w.calls[c1].req.project == w.calls[c2].req.project
    requires w.calls[c1].req.key == w.calls[c2].req.key && w.calls[c1].req.key.Some?
    ensures n1 == n2
  {
    ReachableSane(policy, w);
    var l := LedgerOf(w);
    assert CallOk(l, c1) && CallOk(l, c2);
    assert l.ids[n1] == l.ids[n2];
  }

  /** Calls without a key never merge. */
  lemma NoKeyNoMerge(policy: FailurePolicy, w: World, c1: Id, c2: Id, n1: Id, n2: Id)
    requires Reachable(policy, w) && Returned(w, c1, n1) && Returned(w, c2, n2) && c1 != c2
    requires w.calls[c1].req.key.None? && w.calls[c2].req.key.None?
    ensures n1 != n2
  {
    ReachableSane(policy, w);
    assert CallOk(LedgerOf(w), c1) && CallOk(LedgerOf(w), c2);
  }

  /**
   At most one fanout task is ever enqueued for a notification; exactly one if the call that
   inserted it reported success.
   */
  lemma OneFanoutPerNotification(policy: FailurePolicy, w: World, n: Id)
    requires Reachable(policy, w) && n in w.t.notifications
    ensures w.h.fanouts[n] <= 1
    ensures n in w.h.owner && w.h.owner[n] in w.calls
    ensures w.calls[w.h.owner[n]].pc == CreateHandler.Done(Some(n)) ==> w.h.fanouts[n] == 1
    ensures w.calls[w.h.owner[n]].pc == CreateHandler.EnqueueFanout(n) ==> w.h.fanouts[n] == 0
  {
    ReachableSane(policy, w);
    var l := LedgerOf(w);
    assert n in l.ids && OwnerOk(l, n) && CallOk(l, l.owner[n]);
    assert n !in l.fanouts ==> l.fanouts[n] == 0;
  }

  predicate OwnerDone(w: World, n: Id) {
    n in w.h.owner && w.h.owner[n] in w.calls && w.calls[w.h.owner[n]].pc.Done?
  }

  lemma CreateHistory(w: World, c: Id, reply: CreateHandler.Reply)
    requires CreateEnabled(w, c, reply)
    ensures var w', pc := ApplyCreate(w, c, reply), w.calls[c].pc;
      && w'.h.fanouts == (if pc.EnqueueFanout? && (reply.up || reply.applied)
                          then w.h.fanouts + multiset{pc.id} else w.h.fanouts)
      && forall n :: n in w.h.owner && n in w.t.notifications ==> n in w'.h.owner && w'.h.owner[n] == w.h.owner[n]
  {
  }

  lemma CreateKeepsFanoutCount(w: World, c: Id, reply: CreateHandler.Reply, n: Id)
    requires KeysOk(LedgerOf(w)) && CreateEnabled(w, c, reply) && OwnerDone(w, n)
    ensures OwnerDone(ApplyCreate(w, c, reply), n) && ApplyCreate(w, c, reply).h.fanouts[n] == w.h.fanouts[n]
  {
    var l := LedgerOf(w);
    assert OwnerOk(l, n) && CallOk(l, c);
    assert n in l.ids && n in w.t.notifications;
    CreateHistory(w, c, reply);
    assert w.h.owner[n] != c;
  }

  lemma StepKeepsFanoutCount(w: World, s: Step, n: Id)
    requires Structured(w) && Enabled(w, s) && OwnerDone(w, n)
    ensures OwnerDone(Apply(w, s), n) && Apply(w, s).h.fanouts[n] == w.h.fanouts[n]
  {
    if OnSendSide(s) {
      StepSendSide(w, s);
    } else if s.CreateStep? {
      CreateKeepsFanoutCount(w, s.call, s.createReply, n);
    }
  }

  /** Once the inserting call has returned, no other call and no retry enqueues the fanout. */
  lemma {:induction false} FanoutCountIsFinal(w: World, steps: seq<Step>, n: Id)
    requires Structured(w) && Valid(w, steps) && OwnerDone(w, n)
    ensures OwnerDone(Run(w, steps), n) && Run(w, steps).h.fanouts[n] == w.h.fanouts[n]
    decreases |steps|
  {
    if steps != [] {
      StepKeepsFanoutCount(w, steps[0], n);
      StepStructured(w, steps[0]);
      FanoutCountIsFinal(Apply(w, steps[0]), steps[1..], n);
    }
  }

  // ----- the completion test -----

  function RowsOf(t: Tables, n: Id): set<Id> {
    set r | r in t.recipients && t.recipients[r].notification == n
  }

  /** notificationDone: total_recipients against the terminal entries of the counts. */
  predicate NotificationDone(t: Tables, n: Id)
    requires n in t.notifications
  {
    var total := t.notifications[n].total;
    total != 0 && CountOf(t, n, Sent) + CountOf(t, n, Delivered) + CountOf(t, n, Status.Failed) >= total
  }

  function TerminalRows(t: Tables, n: Id): set<Id> {
    set r | r in t.recipients && t.recipients[r].notification == n && Terminal(t.recipients[r].status)
  }

  lemma CountsAddUp(t: Tables, n: Id)
    ensures CountOf(t, n, Sent) + CountOf(t, n, Delivered) + CountOf(t, n, Status.Failed) == |TerminalRows(t, n)|
  {
    var a, b, c := RowsWith(t, n, Sent), RowsWith(t, n, Delivered), RowsWith(t, n, Status.Failed);
    assert a !! b && (a + b) !! c;
    assert TerminalRows(t, n) == a + b + c;
  }

  /** Rows of one notification are told apart by their devices. */
  lemma {:induction false} RowsFit(t: Tables, n: Id, rs: set<Id>, ds: set<Id>)
    requires FanoutHandler.PairsUnique(t) && rs <= RowsOf(t, n)
    requires forall r :: r in rs ==> t.recipients[r].device in ds
    ensures |rs| <= |ds|
    decreases |rs|
  {
    if r :| r in rs {
      var d := t.recipients[r].device;
      assert t.pairIndex[(n, d)] == r;
      forall b | b in rs - {r} ensures t.recipients[b].device in ds - {d} {
        assert t.pairIndex[(n, t.recipients[b].device)] == b;
      }
      RowsFit(t, n, rs - {r}, ds - {d});
    }
  }

  lemma {:induction false} DevicesFit(t: Tables, n: Id, rs: set<Id>, ds: set<Id>)
    requires FanoutHandler.PairsUnique(t)
    requires forall d :: d in ds ==> (n, d) in t.pairIndex && t.pairIndex[(n, d)] in rs
    ensures |ds| <= |rs|
    decreases |ds|
  {
    if d :| d in ds {
      var r := t.pairIndex[(n, d)];
      forall e | e in ds - {d} ensures t.pairIndex[(n, e)] in rs - {r} {
        assert t.recipients[t.pairIndex[(n, e)]].device == e;
      }
      DevicesFit(t, n, rs - {r}, ds - {d});
    }
  }

  /** A stored total never exceeds the rows there are. */
  lemma TotalIsBacked(policy: FailurePolicy, w: World, n: Id)
    requires Reachable(policy, w) && n in w.t.notifications
    ensures w.t.notifications[n].total <= |RowsOf(w.t, n)|
  {
    ReachableSane(policy, w);
    var total := w.t.notifications[n].total;
    if total != 0 {
      var ds :| Backs(w, n, total, ds);
      DevicesFit(w.t, n, RowsOf(w.t, n), ds);
    }
  }

  /** Every fanout run that fetched devices for the notification fetched the same set. */
  ghost predicate OneAudience(h: History, n: Id) {
    forall a, b :: (n, a) in h.fetched && (n, b) in h.fetched ==> a == b
  }

  lemma TotalIsRowCount(w: World, n: Id)
    requires Structured(w) && n in w.t.notifications && OneAudience(w.h, n)
    requires w.t.notifications[n].total != 0
    ensures w.t.notifications[n].total == |RowsOf(w.t, n)|
  {
    var total := w.t.notifications[n].total;
    var ds :| Backs(w, n, total, ds);
    DevicesFit(w.t, n, RowsOf(w.t, n), ds);
    forall r | r in RowsOf(w.t, n) ensures w.t.recipients[r].device in ds {
      assert (n, w.t.recipients[r].device) in w.t.pairIndex;
      assert Fetched(w, n, w.t.recipients[r].device);
      var other :| (n, other) in w.h.fetched && w.t.recipients[r].device in other;
    }
    RowsFit(w.t, n, RowsOf(w.t, n), ds);
  }

  lemma DoneMeansAllTerminal(w: World, n: Id)
    requires Structured(w) && n in w.t.notifications && OneAudience(w.h, n)
    ensures NotificationDone(w.t, n)
       <==> w.t.notifications[n].total != 0 && forall r :: r in RowsOf(w.t, n) ==> Resolved(w, r)
  {
    CountsAddUp(w.t, n);
    if w.t.notifications[n].total != 0 {
      TotalIsRowCount(w, n);
      var rows, done := RowsOf(w.t, n), TerminalRows(w.t, n);
      assert done <= rows;
      if |done| >= |rows| {
        SubsetOfSameSize(done, rows);
      } else {
        assert done != rows;
      }
    }
  }

  /** With one audience, the completion test says exactly that every recipient row is terminal. */
  lemma CompletionIsExact(policy: FailurePolicy, w: World, n: Id)
    requires Reachable(policy, w) && n in w.t.notifications && OneAudience(w.h, n)
    ensures NotificationDone(w.t, n)
       <==> w.t.notifications[n].total != 0 && forall r :: r in RowsOf(w.t, n) ==> Resolved(w, r)
  {
    ReachableSane(policy, w);
    DoneMeansAllTerminal(w, n);
  }

  /** The dashboard's test on the same counts, without the guard against a total of 0. */
  predicate DashboardTerminal(t: Tables, n: Id)
    requires n in t.notifications
  {
    CountOf(t, n, Sent) + CountOf(t, n, Delivered) + CountOf(t, n, Status.Failed) >= t.notifications[n].total
  }

  /**
   With one audience, the dashboard's test is right exactly if a total has been stored or every
   row is terminal anyway: until the fanout loop ends the total is 0 and the test succeeds.
   */
  lemma DashboardIsExactOnceTotalled(policy: FailurePolicy, w: World, n: Id)
    requires Reachable(policy, w) && n in w.t.notifications && OneAudience(w.h, n)
    ensures (DashboardTerminal(w.t, n) <==> forall r :: r in RowsOf(w.t, n) ==> Resolved(w, r))
       <==> w.t.notifications[n].total != 0 || forall r :: r in RowsOf(w.t, n) ==> Resolved(w, r)
  {
    CompletionIsExact(policy, w, n);
  }

  lemma SubsetOfSameSize<T>(a: set<T>, b: set<T>)
    requires a <= b && |a| >= |b|
    ensures a == b
  {
    assert |b - a| == |b| - |a|;
  }

  ghost predicate Spent(w: World, r: Id)
    requires r in w.t.recipients
  {
    Lifecycle.Spent(SliceOf(w, r))
  }

  lemma StepStaysSpent(policy: FailurePolicy, w: World, s: Step, r: Id)
    requires Reachable(policy, w) && Enabled(w, s) && r in w.t.recipients && Spent(w, r)
    requires OneQueue(Apply(w, s).h, r)
    ensures var w1 := Apply(w, s);
      && r in w1.t.recipients && w1.t.recipients[r] == w.t.recipients[r]
      && w1.h.accepted[r] == w.h.accepted[r] && Spent(w1, r)
  {
    ReachableSane(policy, w);
    StructuredKnown(w);
    var m := StepIsMove(w, s, r);
    OneQueueSlice(Apply(w, s), r);
    if m.Some? { Lifecycle.SpentStays(w.policy, SliceOf(w, r), m.value); }
  }

  /** With one queue, nothing happens any more to a recipient that is spent. */
  lemma {:induction false} StaysSpent(policy: FailurePolicy, w: World, steps: seq<Step>, r: Id)
    requires Reachable(policy, w) && Valid(w, steps) && r in w.t.recipients && Spent(w, r)
    requires OneQueue(Run(w, steps).h, r)
    ensures r in Run(w, steps).t.recipients && Run(w, steps).t.recipients[r] == w.t.recipients[r]
    ensures Run(w, steps).h.accepted[r] == w.h.accepted[r]
    decreases |steps|
  {
    if steps != [] {
      var w1 := Apply(w, steps[0]);
      RunGrows(w1, steps[1..]);
      StepStaysSpent(policy, w, steps[0], r);
      ReachableStep(policy, w, steps[0]);
      StaysSpent(policy, w1, steps[1..], r);
    }
  }

  /** Once terminal, a row stays as it is while its recipient has one queue. */
  lemma TerminalIsFinal(policy: FailurePolicy, w: World, steps: seq<Step>, r: Id)
    requires Reachable(policy, w) && Valid(w, steps) && r in w.t.recipients && Resolved(w, r)
    requires OneQueue(Run(w, steps).h, r)
    ensures r in Run(w, steps).t.recipients && Run(w, steps).t.recipients[r] == w.t.recipients[r]
  {
    StaysSpent(policy, w, steps, r);
  }

  /** Once the task is archived, its row stays as it is, while devices keep their providers. */
  lemma ArchivedIsFinal(policy: FailurePolicy, before: seq<Step>, after: seq<Step>, k: TaskKey)
    requires Valid(Start(policy), before + after) && StableRun(Start(policy), before + after)
    requires Valid(Start(policy), before) && k in Run(Start(policy), before).q
    requires Run(Start(policy), before).q[k].state.Archived?
    ensures var w, w' := Run(Start(policy), before), Run(Start(policy), before + after);
      && k.recipient in w.t.recipients && k.recipient in w'.t.recipients
      && w'.t.recipients[k.recipient] == w.t.recipients[k.recipient]
  {
    var w, r := Run(Start(policy), before), k.recipient;
    RunSplits(Start(policy), before, after);
    ReachableKeys(policy, w);
    StableProvidersMeanOneQueue(policy, before + after, r);
    assert k == TaskKey(k.queue, r);
    assert k.queue in SliceOf(w, r).tasks && Lifecycle.Dead(SliceOf(w, r).tasks[k.queue]);
    StaysSpent(policy, w, after, r);
  }

  /** A fanout step changes a total only by storing the size of a fetched set. */
  lemma FanoutTotal(w: World, run: Id, r: FanoutHandler.Reply, n: Id)
    requires FanoutEnabled(w, run, r) && RunOk(w, w.fanouts[run]) && n in w.t.notifications
    ensures var w' := ApplyFanout(w, run, r);
            && n in w'.t.notifications
            && (w'.t.notifications[n].total == w.t.notifications[n].total
                || exists ds :: (n, ds) in w.h.fetched && w'.t.notifications[n].total == |ds|)
  {
    var f := w.fanouts[run];
    if f.pc.SetTotals? && f.notification == n {
      RowIdsCount(f.pc.devs);
      assert (n, RowIds(f.pc.devs)) in w.h.fetched;
    }
  }

  lemma OtherTotals(w: World, s: Step, n: Id)
    requires Enabled(w, s) && !s.FanoutStep? && n in w.t.notifications
    ensures n in Apply(w, s).t.notifications
            && Apply(w, s).t.notifications[n].total == w.t.notifications[n].total
  {
    if OnSendSide(s) { StepSendSide(w, s); }
  }

  lemma StepKeepsTotal(w: World, s: Step, n: Id)
    requires Structured(w) && n in w.t.notifications && Enabled(w, s)
    requires w.t.notifications[n].total != 0 && OneAudience(w.h, n)
    ensures n in Apply(w, s).t.notifications
            && Apply(w, s).t.notifications[n].total == w.t.notifications[n].total
  {
    if s.FanoutStep? {
      FanoutTotal(w, s.run, s.fanoutReply, n);
      var ds :| Backs(w, n, w.t.notifications[n].total, ds);
    } else {
      OtherTotals(w, s, n);
    }
  }

  lemma {:induction false} TotalStays(w: World, steps: seq<Step>, n: Id)
    requires Structured(w) && n in w.t.notifications && Valid(w, steps)
    requires w.t.notifications[n].total != 0 && OneAudience(Run(w, steps).h, n)
    ensures n in Run(w, steps).t.notifications
            && Run(w, steps).t.notifications[n].total == w.t.notifications[n].total
    decreases |steps|
  {
    if steps != [] {
      RunGrows(w, steps);
      StepKeepsTotal(w, steps[0], n);
      StepStructured(w, steps[0]);
      TotalStays(Apply(w, steps[0]), steps[1..], n);
    }
  }

  lemma SameRows(w: World, w': World, n: Id)
    requires Grows(w, w') && |RowsOf(w.t, n)| == |RowsOf(w'.t, n)|
    ensures RowsOf(w.t, n) == RowsOf(w'.t, n)
  {
    SubsetOfSameSize(RowsOf(w.t, n), RowsOf(w'.t, n));
  }

  /** A completion test that has succeeded keeps succeeding. */
  lemma CompletionIsFinal(policy: FailurePolicy, w: World, steps: seq<Step>, n: Id)
    requires Reachable(policy, w) && n in w.t.notifications && Valid(w, steps)
    requires OneAudience(Run(w, steps).h, n)
    requires forall r :: r in RowsOf(Run(w, steps).t, n) ==> OneQueue(Run(w, steps).h, r)
    requires NotificationDone(w.t, n)
    ensures n in Run(w, steps).t.notifications && NotificationDone(Run(w, steps).t, n)
  {
    var w' := Run(w, steps);
    ReachableSane(policy, w);
    RunStructured(w, steps);
    RunGrows(w, steps);
    TotalStays(w, steps, n);
    DoneMeansAllTerminal(w, n);
    TotalIsRowCount(w, n);
    TotalIsRowCount(w', n);
    SameRows(w, w', n);
    forall r | r in RowsOf(w'.t, n) ensures Resolved(w', r) {
      assert r in RowsOf(w.t, n);
      TerminalIsFinal(policy, w, steps, r);
    }
    DoneMeansAllTerminal(w', n);
  }
}
