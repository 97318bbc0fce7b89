/** A send task runs out: every step of its own lowers a measure, one denial allowance apart. */
module Budget {
  import opened Store
  import opened TaskQueue
  import opened SendQueue
  import opened Pipeline
  import opened Structure
  import opened Guarantees
  import SendHandler

  predicate InQueue(w: World, k: TaskKey) {
    k in w.q && !w.q[k].state.Archived?
  }

  /** Steps left to the task if at most `allowance` of its runs are ever denied. */
  function Measure(task: SendTask, allowance: nat): int {
    11 * (MAX_RETRY - task.retried + allowance - task.denials)
    + match task.state
      case Waiting => 10
      case Active(pc) => SendHandler.Rank(pc)
      case Archived(_) => 0
  }

  const QUIET: SendHandler.Environment :=
    SendHandler.Environment(true, true, true, true, true, true, SendHandler.StatusUnknown, true, true, true)

  predicate IsOwnStep(s: Step, k: TaskKey) {
    (s.SendBegin? || s.SendStep? || s.SendEnd? || s.SendCrash?) && s.key == k
  }

  lemma ConcludeLowers(w: World, k: TaskKey, o: Outcome, allowance: nat)
    requires ActiveAt(w, k) && InQueue(Conclude(w, k, o), k)
    ensures var task := Conclude(w, k, o).q[k];
            Measure(task, allowance) < Measure(w.q[k], allowance) && task.denials >= w.q[k].denials
  {
  }

  lemma StatementLowers(w: World, k: TaskKey, e: SendHandler.Environment, allowance: nat)
    requires ActiveAt(w, k) && !w.q[k].state.pc.Returned?
    ensures var task := ApplySend(w, k, e).q[k];
            Measure(task, allowance) < Measure(w.q[k], allowance) && task.denials == w.q[k].denials
  {
    SendHandler.StepLowersRank(w.t, w.q[k].payload, LastAttempt(w.q[k]), w.q[k].state.pc, e);
  }

  lemma OwnStepLowers(w: World, s: Step, k: TaskKey, allowance: nat)
    requires Enabled(w, s) && IsOwnStep(s, k) && InQueue(Apply(w, s), k)
    ensures var task := Apply(w, s).q[k];
            Measure(task, allowance) < Measure(w.q[k], allowance) && task.denials >= w.q[k].denials
  {
    match s
    case SendBegin(_) =>
    case SendStep(_, e) => StatementLowers(w, k, e, allowance);
    case SendEnd(_) => ConcludeLowers(w, k, w.q[k].state.pc.outcome, allowance);
    case SendCrash(_) => CrashLowers(w, k, allowance);
  }

  lemma CrashLowers(w: World, k: TaskKey, allowance: nat)
    requires ActiveAt(w, k) && InQueue(ApplyCrash(w, k), k)
    ensures var task := ApplyCrash(w, k).q[k];
            Measure(task, allowance) < Measure(w.q[k], allowance) && task.denials >= w.q[k].denials
  {
  }

  lemma OtherStepKeeps(w: World, s: Step, k: TaskKey)
    requires Enabled(w, s) && !IsOwnStep(s, k) && k in w.q
    ensures k in Apply(w, s).q && Apply(w, s).q[k] == w.q[k]
  {
    match s
    case SendEnd(other) =>
    case SendCrash(other) =>
    case SendStep(other, e) =>
    case FanoutStep(run, r) =>
    case CreateStep(c, r) =>
    case _ =>
  }

  /** The task is in its queue, not archived, before each step and at the end. */
  predicate StaysInQueue(w: World, steps: seq<Step>, k: TaskKey)
    requires Valid(w, steps)
    decreases steps
  {
    InQueue(w, k) && (steps == [] || StaysInQueue(Apply(w, steps[0]), steps[1..], k))
  }

  function OwnSteps(steps: seq<Step>, k: TaskKey): nat {
    if steps == [] then 0 else (if IsOwnStep(steps[0], k) then 1 else 0) + OwnSteps(steps[1..], k)
  }

  lemma {:induction false} OwnStepsLowerMeasure(w: World, steps: seq<Step>, k: TaskKey, allowance: nat)
    requires Valid(w, steps) && StaysInQueue(w, steps, k)
    ensures InQueue(Run(w, steps), k)
    ensures OwnSteps(steps, k) + Measure(Run(w, steps).q[k], allowance) <= Measure(w.q[k], allowance)
    decreases |steps|
  {
    if steps != [] {
      var w1 := Apply(w, steps[0]);
      if IsOwnStep(steps[0], k) { OwnStepLowers(w, steps[0], k, allowance); } else { OtherStepKeeps(w, steps[0], k); }
      OwnStepsLowerMeasure(w1, steps[1..], k, allowance);
    }
  }

  /** A step of the task's own other than a crash. */
  predicate CanMove(w: World, k: TaskKey, s: Step) {
    Enabled(w, s) && IsOwnStep(s, k) && !s.SendCrash?
  }

  /** Until it leaves its queue, a task always has a step to take. */
  lemma NeverStuck(w: World, k: TaskKey, e: SendHandler.Environment)
    requires InQueue(w, k)
    ensures exists s :: CanMove(w, k, s)
  {
    if w.q[k].state.Waiting? {
      assert CanMove(w, k, SendBegin(k));
    } else if w.q[k].state.pc.Returned? {
      assert CanMove(w, k, SendEnd(k));
    } else {
      assert CanMove(w, k, SendStep(k, e));
    }
  }

  /**
   A task that was just enqueued and is still in its queue has taken at most eleven steps per
   handler run, and it gets six runs plus one for each denial. It can always take another step, so
   with finitely many denials it leaves the queue or is archived, if the queue keeps giving it turns.
   */
  lemma TaskRunsOut(policy: FailurePolicy, w: World, steps: seq<Step>, k: TaskKey)
    requires Reachable(policy, w) && Valid(w, steps) && StaysInQueue(w, steps, k)
    requires w.q[k].state.Waiting? && w.q[k].runs == 0
    ensures InQueue(Run(w, steps), k)
    ensures OwnSteps(steps, k) <= 11 * (Run(w, steps).q[k].denials + MAX_RETRY + 1) - 1
    ensures exists s :: CanMove(Run(w, steps), k, s)
  {
    ReachableSane(policy, w);
    RunStructured(w, steps);
    OwnStepsLowerMeasure(w, steps, k, 0);
    var allowance := Run(w, steps).q[k].denials;
    OwnStepsLowerMeasure(w, steps, k, allowance);
    NeverStuck(Run(w, steps), k, QUIET);
  }
}
