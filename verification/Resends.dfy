/** Exactly when a recipient can get a second push accepted. */
module Resends {
  import opened Prelude
  import opened Store
  import opened TaskQueue
  import opened SendQueue
  import opened Pipeline
  import opened Structure
  import opened Simulation
  import opened Guarantees
  import opened Outcomes
  import opened Traces
  import SendHandler
  import Lifecycle

  // ----- one queue -----

  /** Some further run, still with one queue, gets another push to the recipient accepted. */
  ghost predicate AcceptsAgain(w: World, r: Id) {
    exists steps :: Valid(w, steps) && OneQueue(Run(w, steps).h, r) && Run(w, steps).h.accepted[r] > w.h.accepted[r]
  }

  /** The step is the statement recording an acceptance, or a crash in its place. */
  predicate Records(w: World, s: Step, k: TaskKey) {
    && ActiveAt(w, k) && w.q[k].state.pc.MarkSent?
    && (s == SendCrash(k) || (s.SendStep? && s.key == k))
  }

  /** The acceptance does not get recorded. */
  predicate LosesAcceptance(s: Step) {
    s.SendCrash? || (s.SendStep? && !s.env.sentUp)
  }

  lemma AcceptingRow(policy: FailurePolicy, w: World, k: TaskKey)
    requires Reachable(policy, w) && ActiveAt(w, k) && w.q[k].state.pc.MarkSent? && OneQueue(w.h, k.recipient)
    ensures Known(w, k) && !Terminal(w.t.recipients[k.recipient].status)
  {
    var r := k.recipient;
    ReachableKeys(policy, w);
    ReachableStructured(policy, w);
    StructuredKnown(w);
    ReachableLife(policy, w, r);
    OneQueueSlice(w, r);
    assert k == TaskKey(k.queue, r);
    assert Lifecycle.ActiveIn(SliceOf(w, r), k.queue);
  }

  /** A recorded acceptance, or one lost on the last attempt, leaves the recipient spent. */
  lemma RecordedIsSpent(policy: FailurePolicy, w: World, s: Step, k: TaskKey)
    requires Reachable(policy, w) && Records(w, s, k) && OneQueue(w.h, k.recipient) && Enabled(w, s)
    requires !(LosesAcceptance(s) && w.q[k].retried < MAX_RETRY)
    ensures k.recipient in Apply(w, s).t.recipients && Spent(Apply(w, s), k.recipient)
  {
    AcceptingRow(policy, w, k);
    var w1, r := Apply(w, s), k.recipient;
    assert k == TaskKey(k.queue, r);
    if LosesAcceptance(s) {
      assert k in w1.q && Lifecycle.Dead(w1.q[k]);
      assert Lifecycle.Dead(SliceOf(w1, r).tasks[k.queue]);
    }
  }

  function Retried(w: World, k: TaskKey): World
    requires k in w.q
  {
    Conclude(w, k, Failure)
  }

  /** A lost acceptance with a retry left puts the task back, the row as it was. */
  lemma LostIsReady(w: World, s: Step, k: TaskKey) returns (w1: World)
    requires Records(w, s, k) && Enabled(w, s) && LosesAcceptance(s) && w.q[k].retried < MAX_RETRY
    requires Known(w, k) && !Terminal(w.t.recipients[k.recipient].status)
    ensures Leads(Apply(w, s), w1, false) && Ready(w1, k)
    ensures w1.h.accepted == Apply(w, s).h.accepted && w1.h.enqueued == w.h.enqueued
  {
    w1 := Apply(w, s);
    LeadsToSelf(w1, false);
    if s.SendStep? {
      Ends(w1, w1, k);
      w1 := Conclude(w1, k, w1.q[k].state.pc.outcome);
    }
  }

  /**
   With one queue, after a push was accepted another can be accepted if and only if the `sent`
   write of the first is lost, by an error or a crash, with a retry left.
   */
  lemma AcceptedAgainIffLost(policy: FailurePolicy, w: World, s: Step, k: TaskKey)
    requires Reachable(policy, w) && Records(w, s, k) && OneQueue(w.h, k.recipient) && Enabled(w, s)
    ensures AcceptsAgain(Apply(w, s), k.recipient) <==> LosesAcceptance(s) && w.q[k].retried < MAX_RETRY
  {
    var r := k.recipient;
    ReachableStep(policy, w, s);
    if LosesAcceptance(s) && w.q[k].retried < MAX_RETRY {
      AcceptingRow(policy, w, k);
      var w1 := LostIsReady(w, s, k);
      AttemptIsAccepted(Apply(w, s), false, w1, k);
      var steps :| Valid(Apply(w, s), steps) && Run(Apply(w, s), steps) == PushAccepted(w1, k);
      assert Run(Apply(w, s), steps).h.enqueued == w.h.enqueued;
    } else {
      RecordedIsSpent(policy, w, s, k);
      forall steps | Valid(Apply(w, s), steps) && OneQueue(Run(Apply(w, s), steps).h, r)
        ensures Run(Apply(w, s), steps).h.accepted[r] == Apply(w, s).h.accepted[r]
      {
        StaysSpent(policy, Apply(w, s), steps, r);
      }
    }
  }

  // ----- two tasks -----

  /** No fanout step, and no acceptance lost. */
  predicate AttemptsOnly(w: World, steps: seq<Step>)
    requires Valid(w, steps)
    decreases steps
  {
    || steps == []
    || (!steps[0].FanoutStep? && RecordsAcceptance(w, steps[0]) && AttemptsOnly(Apply(w, steps[0]), steps[1..]))
  }

  /** Attempts alone, none of them losing an acceptance, get two more pushes accepted. */
  ghost predicate TwoMore(w: World, r: Id) {
    exists steps ::
      && Valid(w, steps) && AttemptsOnly(w, steps)
      && Run(w, steps).h.accepted[r] >= w.h.accepted[r] + 2
  }

  /** Two tasks of the recipient are waiting, in two queues. */
  predicate TwoWaiting(w: World, r: Id) {
    exists a, b :: a in w.q && b in w.q && TwoTasks(w, a, b, r)
  }

  predicate TwoTasks(w: World, a: TaskKey, b: TaskKey, r: Id)
    requires a in w.q && b in w.q
  {
    a != b && a.recipient == r && b.recipient == r && w.q[a].state.Waiting? && w.q[b].state.Waiting?
  }

  lemma {:induction false} GoingRecords(w: World, steps: seq<Step>)
    requires Valid(w, steps) && AllGoing(steps)
    ensures AttemptsOnly(w, steps)
    decreases |steps|
  {
    if steps != [] {
      assert Going(steps[0]);
      assert forall i :: 0 <= i < |steps| - 1 ==> steps[1..][i] == steps[i + 1];
      GoingRecords(Apply(w, steps[0]), steps[1..]);
    }
  }

  lemma BothAccepted(w: World, a: TaskKey, b: TaskKey)
    requires Ready(w, a) && Ready(w, b) && a != b && a.recipient == b.recipient
    ensures TwoMore(w, a.recipient)
  {
    LeadsToSelf(w, true);
    AttemptIsAccepted(w, true, w, a);
    var w1 := PushAccepted(w, a);
    AttemptIsAccepted(w, true, w1, b);
    var w2 := PushAccepted(w1, b);
    var steps :| Valid(w, steps) && Run(w, steps) == w2 && (true ==> AllGoing(steps));
    GoingRecords(w, steps);
    assert w2.h.accepted[a.recipient] == w.h.accepted[a.recipient] + 2;
  }

  lemma StepKeepsOneMore(w: World, s: Step, r: Id, p: Provider, base: nat)
    requires AllKnown(w) && Enabled(w, s) && r in w.t.recipients && RecordsAcceptance(w, s) && !s.FanoutStep?
    requires Lifecycle.OneMore(SliceOf(w, r), p, base)
    ensures r in Apply(w, s).t.recipients && Lifecycle.OneMore(SliceOf(Apply(w, s), r), p, base)
  {
    var m := StepIsMove(w, s, r);
    if m.Some? {
      assert Lifecycle.Recorded(SliceOf(w, r), m.value);
      Lifecycle.MoveKeepsOneMore(w.policy, SliceOf(w, r), m.value, p, base);
    }
  }

  lemma {:induction false} RunKeepsOneMore(policy: FailurePolicy, w: World, steps: seq<Step>,
                                           r: Id, p: Provider, base: nat)
    requires Reachable(policy, w) && Valid(w, steps) && AttemptsOnly(w, steps)
    requires r in w.t.recipients && Lifecycle.OneMore(SliceOf(w, r), p, base)
    ensures Run(w, steps).h.accepted[r] <= base + 1
    decreases |steps|
  {
    if steps != [] {
      ReachableStructured(policy, w);
      StructuredKnown(w);
      StepKeepsOneMore(w, steps[0], r, p, base);
      ReachableStep(policy, w, steps[0]);
      RunKeepsOneMore(policy, Apply(w, steps[0]), steps[1..], r, p, base);
    }
  }

  lemma OneLiveTask(w: World, r: Id) returns (p: Provider)
    requires r in w.t.recipients && BetweenRuns(w, r) && !TwoWaiting(w, r)
    ensures Lifecycle.OneMore(SliceOf(w, r), p, w.h.accepted[r])
  {
    var s := SliceOf(w, r);
    if a :| a in w.q && a.recipient == r && w.q[a].state.Waiting? {
      p := a.queue;
      forall q | q in s.tasks && q != p ensures s.tasks[q].state.Archived? {
        assert !TwoTasks(w, a, TaskKey(q, r), r);
      }
      assert a == TaskKey(p, r);
    } else {
      p := Fcm;
      forall q | q in s.tasks ensures s.tasks[q].state.Archived? {
        assert TaskKey(q, r) in w.q;
      }
    }
  }

  /**
   Between runs, a recipient that is not terminal can get two pushes accepted by attempts alone,
   every acceptance recorded, if and only if it has tasks waiting in two queues.
   */
  lemma TwoMoreIffTwoWaiting(policy: FailurePolicy, w: World, r: Id)
    requires Reachable(policy, w) && r in w.t.recipients && !Resolved(w, r) && BetweenRuns(w, r)
    ensures TwoMore(w, r) <==> TwoWaiting(w, r)
  {
    if TwoWaiting(w, r) {
      var a, b :| a in w.q && b in w.q && TwoTasks(w, a, b, r);
      ReachableStructured(policy, w);
      StructuredKnown(w);
      assert Known(w, a) && Known(w, b);
      BothAccepted(w, a, b);
    } else {
      var p := OneLiveTask(w, r);
      forall steps | Valid(w, steps) && AttemptsOnly(w, steps)
        ensures Run(w, steps).h.accepted[r] <= w.h.accepted[r] + 1
      {
        RunKeepsOneMore(policy, w, steps, r, p, w.h.accepted[r]);
      }
    }
  }
}
