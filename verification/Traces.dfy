/** Runs built step by step, and the attempts that theorems about further runs are made of. */
module Traces {
  import opened Prelude
  import opened Store
  import opened TaskQueue
  import opened SendQueue
  import opened Pipeline
  import opened Guarantees
  import opened SendHandler

  /** Every statement reaches the database, the limiter allows, the provider accepts. */
  const GOOD: Environment := Environment(true, true, true, true, true, true, StatusSent("m"), true, true, true)

  /** An attempt begun, or moved on by a statement that goes well. */
  predicate Going(s: Step) {
    s.SendBegin? || (s.SendStep? && s.env == GOOD)
  }

  predicate AllGoing(steps: seq<Step>) {
    forall i :: 0 <= i < |steps| ==> Going(steps[i])
  }

  /** Some run leads from `w0` to `w`; a quiet one, by attempts that go well alone. */
  ghost predicate Leads(w0: World, w: World, quiet: bool) {
    exists steps :: Valid(w0, steps) && Run(w0, steps) == w && (quiet ==> AllGoing(steps))
  }

  lemma LeadsToSelf(w: World, quiet: bool)
    ensures Leads(w, w, quiet)
  {
    assert Valid(w, []) && Run(w, []) == w;
  }

  lemma LeadsOn(w0: World, w: World, quiet: bool, s: Step)
    requires Leads(w0, w, quiet) && Enabled(w, s) && (quiet ==> Going(s))
    ensures Leads(w0, Apply(w, s), quiet)
  {
    var steps :| Valid(w0, steps) && Run(w0, steps) == w && (quiet ==> AllGoing(steps));
    RunAppend(w0, steps, s);
    assert quiet ==> AllGoing(steps + [s]);
  }

  // ----- one attempt at task `k`, begun in `w` -----

  function Running(task: SendTask, pc: Pc): SendTask {
    task.(state := TaskState.Active(pc), runs := task.runs + 1)
  }

  /** `w` with the attempt at `pc`, the tables `t` and the history `h`. */
  function Mid(w: World, k: TaskKey, t: Tables, pc: Pc, h: History): World
    requires k in w.q
  {
    w.(t := t, q := w.q[k := Running(w.q[k], pc)], h := h)
  }

  lemma Begins(w0: World, quiet: bool, w: World, k: TaskKey)
    requires Leads(w0, w, quiet) && k in w.q && w.q[k].state.Waiting?
    ensures Leads(w0, Mid(w, k, w.t, Fetch, w.h), quiet)
  {
    LeadsOn(w0, w, quiet, SendBegin(k));
    assert Apply(w, SendBegin(k)) == Mid(w, k, w.t, Fetch, w.h);
  }

  function NextHistory(w: World, k: TaskKey, t: Tables, pc: Pc, h: History, e: Environment): History
    requires k in w.q
  {
    SendHistory(Mid(w, k, t, pc, h), k, e)
  }

  lemma Moves(w0: World, quiet: bool, w: World, k: TaskKey, t: Tables, pc: Pc, h: History, e: Environment,
              t': Tables, pc': Pc, h': History)
    requires k in w.q && Leads(w0, Mid(w, k, t, pc, h), quiet) && !pc.Returned? && (quiet ==> e == GOOD)
    requires (t', pc') == SendHandler.Step(t, w.q[k].payload, LastAttempt(w.q[k]), pc, e)
    requires h' == NextHistory(w, k, t, pc, h, e)
    ensures Leads(w0, Mid(w, k, t', pc', h'), quiet)
  {
    var mid := Mid(w, k, t, pc, h);
    LeadsOn(w0, mid, quiet, SendStep(k, e));
    MidMoves(w, k, t, pc, h, e);
    assert Apply(mid, SendStep(k, e)) == ApplySend(mid, k, e);
  }

  lemma MidMoves(w: World, k: TaskKey, t: Tables, pc: Pc, h: History, e: Environment)
    requires k in w.q
    ensures var (t', pc') := SendHandler.Step(t, w.q[k].payload, LastAttempt(w.q[k]), pc, e);
      ApplySend(Mid(w, k, t, pc, h), k, e) == Mid(w, k, t', pc', NextHistory(w, k, t, pc, h, e))
  {
  }

  /** A statement that meets no error and is not the provider call leaves no history. */
  lemma NoHistory(w: World, k: TaskKey, t: Tables, pc: Pc, h: History, e: Environment)
    requires k in w.q && !pc.Call? && !Faulty(k.recipient in t.recipients, pc, e)
    ensures NextHistory(w, k, t, pc, h, e) == h
  {
  }

  /** A statement that changes the cursor only. */
  lemma Passes(w0: World, quiet: bool, w: World, k: TaskKey, t: Tables, pc: Pc, h: History, pc': Pc)
    requires k in w.q && Leads(w0, Mid(w, k, t, pc, h), quiet) && !pc.Returned? && !pc.Call?
    requires k.recipient in t.recipients
    requires SendHandler.Step(t, w.q[k].payload, LastAttempt(w.q[k]), pc, GOOD) == (t, pc')
    ensures Leads(w0, Mid(w, k, t, pc', h), quiet)
  {
    NoHistory(w, k, t, pc, h, GOOD);
    Moves(w0, quiet, w, k, t, pc, h, GOOD, t, pc', h);
  }

  /** The task can begin an attempt at a row that is not terminal. */
  predicate Ready(w: World, k: TaskKey) {
    && k in w.q && w.q[k].state.Waiting? && KeyOf(w.q[k].payload) == k
    && k.recipient in w.t.recipients && !Terminal(w.t.recipients[k.recipient].status)
  }

  lemma ReachesSending(w0: World, quiet: bool, w: World, k: TaskKey)
    requires Leads(w0, w, quiet) && Ready(w, k)
    ensures Leads(w0, Mid(w, k, w.t, MarkSending, w.h), quiet)
  {
    Begins(w0, quiet, w, k);
    Passes(w0, quiet, w, k, w.t, Fetch, w.h, Limit);
    Passes(w0, quiet, w, k, w.t, Limit, w.h, MarkSending);
  }

  lemma Sends(w0: World, quiet: bool, w: World, k: TaskKey)
    requires Ready(w, k) && Leads(w0, Mid(w, k, w.t, MarkSending, w.h), quiet)
    ensures Leads(w0, Mid(w, k, MarkRecipientSending(w.t, k.recipient), Credential, w.h), quiet)
  {
    NoHistory(w, k, w.t, MarkSending, w.h, GOOD);
    Moves(w0, quiet, w, k, w.t, MarkSending, w.h, GOOD, MarkRecipientSending(w.t, k.recipient), Credential, w.h);
  }

  lemma ReachesCall(w0: World, quiet: bool, w: World, k: TaskKey, t: Tables)
    requires Ready(w, k) && k.recipient in t.recipients && Leads(w0, Mid(w, k, t, Credential, w.h), quiet)
    ensures Leads(w0, Mid(w, k, t, Call, w.h), quiet)
  {
    Passes(w0, quiet, w, k, t, Credential, w.h, Decrypt);
    Passes(w0, quiet, w, k, t, Decrypt, w.h, Adapter);
    Passes(w0, quiet, w, k, t, Adapter, w.h, Call);
  }

  /** The state once the provider has accepted the push, before the row says so. */
  function PushAccepted(w: World, k: TaskKey): World
    requires k in w.q
  {
    Mid(w, k, MarkRecipientSending(w.t, k.recipient), MarkSent("m"),
        w.h.(accepted := w.h.accepted + multiset{k.recipient}))
  }

  lemma Accepts(w0: World, quiet: bool, w: World, k: TaskKey, t: Tables)
    requires Ready(w, k) && k.recipient in t.recipients && Leads(w0, Mid(w, k, t, Call, w.h), quiet)
    ensures Leads(w0, Mid(w, k, t, MarkSent("m"), w.h.(accepted := w.h.accepted + multiset{k.recipient})), quiet)
  {
    var h := w.h.(accepted := w.h.accepted + multiset{k.recipient});
    assert NextHistory(w, k, t, Call, w.h, GOOD) == h;
    Moves(w0, quiet, w, k, t, Call, w.h, GOOD, t, MarkSent("m"), h);
  }

  /** From any state, a waiting task of a row that is not terminal can get a push accepted. */
  lemma AttemptIsAccepted(w0: World, quiet: bool, w: World, k: TaskKey)
    requires Leads(w0, w, quiet) && Ready(w, k)
    ensures Leads(w0, PushAccepted(w, k), quiet)
  {
    ReachesSending(w0, quiet, w, k);
    Sends(w0, quiet, w, k);
    ReachesCall(w0, quiet, w, k, MarkRecipientSending(w.t, k.recipient));
    Accepts(w0, quiet, w, k, MarkRecipientSending(w.t, k.recipient));
  }

  /** A run that has returned is concluded by the queue. */
  lemma Ends(w0: World, w: World, k: TaskKey)
    requires Leads(w0, w, false) && ActiveAt(w, k) && w.q[k].state.pc.Returned?
    ensures Leads(w0, Conclude(w, k, w.q[k].state.pc.outcome), false)
  {
    LeadsOn(w0, w, false, SendEnd(k));
  }

  /** The state once the acceptance is recorded and the task complete. */
  function PushRecorded(w: World, k: TaskKey): World {
    w.(t := MarkRecipientSent(MarkRecipientSending(w.t, k.recipient), k.recipient, "m"), q := w.q - {k},
       h := w.h.(accepted := w.h.accepted + multiset{k.recipient}))
  }

  lemma AttemptIsDelivered(w0: World, w: World, k: TaskKey)
    requires Leads(w0, w, false) && Ready(w, k)
    ensures Leads(w0, PushRecorded(w, k), false)
  {
    var r := k.recipient;
    var t := MarkRecipientSending(w.t, r);
    var h := w.h.(accepted := w.h.accepted + multiset{r});
    AttemptIsAccepted(w0, false, w, k);
    NoHistory(w, k, t, MarkSent("m"), h, GOOD);
    var mid := Mid(w, k, MarkRecipientSent(t, r, "m"), Returned(Nil), h);
    Moves(w0, false, w, k, t, MarkSent("m"), h, GOOD, MarkRecipientSent(t, r, "m"), Returned(Nil), h);
    Ends(w0, mid, k);
    assert mid.q - {k} == w.q - {k};
  }

  lemma LeadsIsReachable(policy: FailurePolicy, w: World)
    requires Leads(Start(policy), w, false)
    ensures Reachable(policy, w)
  {
  }
}
