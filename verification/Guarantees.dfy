/**
 What the dispatch pipeline guarantees in every reachable state, for every interleaving of
 create calls, fanout runs and send attempts, with failures and crashes anywhere.
 */
module Guarantees {
  import opened Prelude
  import opened Store
  import opened TaskQueue
  import opened SendQueue
  import opened Pipeline
  import opened Structure
  import opened Simulation
  import SendHandler
  import FanoutHandler
  import Lifecycle

  ghost predicate Reachable(policy: FailurePolicy, w: World) {
    exists steps :: Valid(Start(policy), steps) && Run(Start(policy), steps) == w
  }

  lemma ReachableSane(policy: FailurePolicy, w: World)
    requires Reachable(policy, w)
    ensures Sane(w) && w.policy == policy
  {
    var steps :| Valid(Start(policy), steps) && Run(Start(policy), steps) == w;
    StartSane(policy);
    RunSane(Start(policy), steps);
    RunGrows(Start(policy), steps);
  }

  lemma {:induction false} RunAppend(w: World, steps: seq<Step>, s: Step)
    requires Valid(w, steps) && Enabled(Run(w, steps), s)
    ensures Valid(w, steps + [s]) && Run(w, steps + [s]) == Apply(Run(w, steps), s)
    decreases |steps|
  {
    if steps == [] {
      assert Valid(Apply(w, s), []);
    } else {
      assert (steps + [s])[1..] == steps[1..] + [s];
      RunAppend(Apply(w, steps[0]), steps[1..], s);
    }
  }

  lemma {:induction false} RunSplits(w: World, a: seq<Step>, b: seq<Step>)
    requires Valid(w, a)
    ensures Valid(w, a + b) <==> Valid(Run(w, a), b)
    ensures Valid(w, a + b) ==> Run(w, a + b) == Run(Run(w, a), b)
    decreases |a|
  {
    if a == [] {
      assert a + b == b;
    } else {
      assert (a + b)[1..] == a[1..] + b;
      RunSplits(Apply(w, a[0]), a[1..], b);
    }
  }

  lemma ReachableStep(policy: FailurePolicy, w: World, s: Step)
    requires Reachable(policy, w) && Enabled(w, s)
    ensures Reachable(policy, Apply(w, s))
  {
    var steps :| Valid(Start(policy), steps) && Run(Start(policy), steps) == w;
    RunAppend(Start(policy), steps, s);
  }

  lemma ReachableRun(policy: FailurePolicy, w: World, steps: seq<Step>)
    requires Reachable(policy, w) && Valid(w, steps)
    ensures Reachable(policy, Run(w, steps))
  {
    var before :| Valid(Start(policy), before) && Run(Start(policy), before) == w;
    RunSplits(Start(policy), before, steps);
  }

  lemma ReachableLife(policy: FailurePolicy, w: World, r: Id)
    requires Reachable(policy, w) && r in w.t.recipients
    ensures Lifecycle.Ok(policy, SliceOf(w, r)) && w.policy == policy
  {
    ReachableSane(policy, w);
  }

  lemma ReachableKeys(policy: FailurePolicy, w: World)
    requires Reachable(policy, w)
    ensures forall k :: k in w.h.enqueued ==> k.recipient in w.t.recipients
    ensures forall k :: k in w.q ==> k in w.h.enqueued && WithinBudget(w.q[k])
  {
    ReachableSane(policy, w);
  }

  // ----- at most one accepted push -----

  /** No two queues have been given this recipient. */
  ghost predicate OneQueue(h: History, r: Id) {
    forall a, b :: a in h.enqueued && b in h.enqueued && a.recipient == r && b.recipient == r ==> a.queue == b.queue
  }

  lemma OneQueueSlice(w: World, r: Id)
    requires r in w.t.recipients
    ensures OneQueue(w.h, r) <==> Lifecycle.OneQueue(SliceOf(w, r))
  {
    if Lifecycle.OneQueue(SliceOf(w, r)) {
      forall a, b | a in w.h.enqueued && b in w.h.enqueued && a.recipient == r && b.recipient == r
        ensures a.queue == b.queue
      {
        assert a == TaskKey(a.queue, r) && b == TaskKey(b.queue, r);
        assert a.queue in SliceOf(w, r).enqueued && b.queue in SliceOf(w, r).enqueued;
      }
    }
  }

  /** The recipients of one device under one (project, idempotency key). */
  function Audience(w: World, project: Id, key: string, device: Id): set<Id> {
    set r | r in w.t.recipients
            && w.t.recipients[r].device == device
            && w.t.recipients[r].notification in w.t.notifications
            && w.t.notifications[w.t.recipients[r].notification].project == project
            && w.t.notifications[w.t.recipients[r].notification].key == Some(key)
  }

  /** Pushes the provider has accepted for any of these recipients. */
  ghost function Accepted(h: History, rs: set<Id>): nat {
    if rs == {} then 0 else var r :| r in rs; h.accepted[r] + Accepted(h, rs - {r})
  }

  lemma AudienceIsOne(w: World, project: Id, key: string, device: Id, a: Id, b: Id)
    requires Structured(w)
    requires a in Audience(w, project, key, device) && b in Audience(w, project, key, device)
    ensures a == b
  {
    var l, na, nb := LedgerOf(w), w.t.recipients[a].notification, w.t.recipients[b].notification;
    assert l.ids[na] == (project, Some(key)) && l.ids[nb] == (project, Some(key));
    assert na == l.keyIndex[(project, key)] == nb;
  }

  lemma AudienceIs(w: World, project: Id, key: string, device: Id, r: Id)
    requires Structured(w) && r in Audience(w, project, key, device)
    ensures Audience(w, project, key, device) == {r}
  {
    forall b | b in Audience(w, project, key, device) ensures b == r {
      AudienceIsOne(w, project, key, device, r, b);
    }
  }

  lemma AcceptedOnce(policy: FailurePolicy, w: World, r: Id)
    requires Reachable(policy, w) && r in w.t.recipients && OneQueue(w.h, r) && r !in w.h.unacked
    ensures w.h.accepted[r] <= 1
  {
    ReachableLife(policy, w, r);
    OneQueueSlice(w, r);
    assert Lifecycle.AtMostOnce(SliceOf(w, r));
  }

  lemma ReachableStructured(policy: FailurePolicy, w: World)
    requires Reachable(policy, w)
    ensures Structured(w)
  {
    ReachableSane(policy, w);
  }

  lemma AcceptedOfOne(h: History, rs: set<Id>, r: Id)
    requires rs == {r}
    ensures Accepted(h, rs) == h.accepted[r]
  {
    assert rs - {r} == {};
  }

  /**
   However often a notification with this key was created, fanned out or attempted, the
   provider has accepted at most one push to the device, provided its recipient was never
   given to two queues and no acceptance went unrecorded.
   */
  lemma AtMostOncePerKey(policy: FailurePolicy, w: World, project: Id, key: string, device: Id)
    requires Reachable(policy, w)
    requires forall r :: r in Audience(w, project, key, device) ==> OneQueue(w.h, r) && r !in w.h.unacked
    ensures Accepted(w.h, Audience(w, project, key, device)) <= 1
  {
    ReachableStructured(policy, w);
    if r :| r in Audience(w, project, key, device) {
      AudienceIs(w, project, key, device, r);
      AcceptedOfOne(w.h, {r}, r);
      AcceptedOnce(policy, w, r);
    }
  }

  // ----- providers that do not change -----

  predicate KeepsProviders(w: World, s: Step) {
    s.DeviceChange? && s.id in w.t.devices ==> s.device.provider == w.t.devices[s.id].provider
  }

  predicate StableRun(w: World, steps: seq<Step>)
    requires Valid(w, steps)
    decreases steps
  {
    steps == [] || (KeepsProviders(w, steps[0]) && StableRun(Apply(w, steps[0]), steps[1..]))
  }

  /** Every enqueued task, and every fetched device row, agrees with its device's provider. */
  ghost predicate ProvidersAgree(w: World) {
    && (forall k :: k in w.h.enqueued ==>
          && k.recipient in w.t.recipients && w.t.recipients[k.recipient].device in w.t.devices
          && k.queue == w.t.devices[w.t.recipients[k.recipient].device].provider)
    && (forall run :: run in w.fanouts ==> RowsAgree(w.t, w.fanouts[run].pc))
  }

  predicate RowsAgree(t: Tables, pc: FanoutHandler.Pc) {
    pc.Insert? || pc.Select? || pc.EnqueueOne? ==>
      forall i :: 0 <= i < |pc.devs| ==>
        pc.devs[i].id in t.devices && pc.devs[i].provider == t.devices[pc.devs[i].id].provider
  }

  lemma DevicesKeepProviders(w: World, s: Step)
    requires Enabled(w, s) && KeepsProviders(w, s)
    ensures forall d :: d in w.t.devices ==>
              d in Apply(w, s).t.devices && Apply(w, s).t.devices[d].provider == w.t.devices[d].provider
  {
    match s
    case SendStep(k, e) => SendHandlerProviders(w.t, w.q[k].payload, LastAttempt(w.q[k]), w.q[k].state.pc, e);
    case FanoutStep(run, r) =>
      FanoutHandlerNotifications(w.fanouts[run].notification, w.fanouts[run].project, FanoutView(w, run), r);
    case CreateStep(c, r) =>
    case SendEnd(k) =>
    case SendCrash(k) =>
    case _ =>
  }

  lemma SendHandlerProviders(t: Tables, p: SendPayload, last: bool, pc: SendHandler.Pc, e: SendHandler.Environment)
    ensures var t' := SendHandler.Step(t, p, last, pc, e).0;
            forall d :: d in t.devices ==> d in t'.devices && t'.devices[d].provider == t.devices[d].provider
  {
  }

  lemma ProvidersStillAgree(w: World, w': World)
    requires ProvidersAgree(w) && Grows(w, w')
    requires forall d :: d in w.t.devices ==> d in w'.t.devices && w'.t.devices[d].provider == w.t.devices[d].provider
    requires w'.h.enqueued == w.h.enqueued
    requires forall run :: run in w'.fanouts ==>
               RowsAgree(w'.t, w'.fanouts[run].pc) || (run in w.fanouts && w'.fanouts[run] == w.fanouts[run])
    ensures ProvidersAgree(w')
  {
    forall run | run in w'.fanouts ensures RowsAgree(w'.t, w'.fanouts[run].pc) {
      if run in w.fanouts && w'.fanouts[run] == w.fanouts[run] { assert RowsAgree(w.t, w.fanouts[run].pc); }
    }
  }

  lemma FanoutKeepsAgreement(w: World, run: Id, r: FanoutHandler.Reply)
    requires RowsOk(w.t) && ProvidersAgree(w) && FanoutEnabled(w, run, r) && RunOk(w, w.fanouts[run])
    ensures ProvidersAgree(ApplyFanout(w, run, r))
  {
    var w' := ApplyFanout(w, run, r);
    var f := w.fanouts[run];
    FanoutStepGrows(w, run, r);
    FanoutHandlerNotifications(f.notification, f.project, FanoutView(w, run), r);
    assert RowsAgree(w.t, f.pc);
    assert RowsAgree(w'.t, w'.fanouts[run].pc);
    if f.pc.EnqueueOne? && (r.up || r.applied) {
      assert w.t.recipients[f.pc.recipient].device == f.pc.devs[f.pc.i].id;
      forall k | k in w'.h.enqueued
        ensures k.recipient in w'.t.recipients && w'.t.recipients[k.recipient].device in w'.t.devices
        ensures k.queue == w'.t.devices[w'.t.recipients[k.recipient].device].provider
      {
      }
    } else {
      ProvidersStillAgree(w, w');
    }
  }

  lemma StepKeepsAgreement(w: World, s: Step)
    requires Structured(w) && ProvidersAgree(w) && Enabled(w, s) && KeepsProviders(w, s)
    ensures ProvidersAgree(Apply(w, s))
  {
    if s.FanoutStep? {
      FanoutKeepsAgreement(w, s.run, s.fanoutReply);
    } else {
      OtherKeepsAgreement(w, s);
    }
  }

  lemma OtherKeepsAgreement(w: World, s: Step)
    requires ProvidersAgree(w) && Enabled(w, s) && KeepsProviders(w, s) && !s.FanoutStep?
    ensures ProvidersAgree(Apply(w, s))
  {
    DevicesKeepProviders(w, s);
    StepGrows(w, s);
    SameFanouts(w, s);
    ProvidersStillAgree(w, Apply(w, s));
  }

  lemma SameFanouts(w: World, s: Step)
    requires Enabled(w, s) && !s.FanoutStep?
    ensures Apply(w, s).h.enqueued == w.h.enqueued
    ensures forall run :: run in Apply(w, s).fanouts ==>
              Apply(w, s).fanouts[run].pc.GetNotification?
              || (run in w.fanouts && Apply(w, s).fanouts[run] == w.fanouts[run])
  {
    if OnSendSide(s) { StepSendSide(w, s); }
  }

  lemma {:induction false} StableRunAgrees(w: World, steps: seq<Step>)
    requires Structured(w) && ProvidersAgree(w) && Valid(w, steps) && StableRun(w, steps)
    ensures ProvidersAgree(Run(w, steps))
    decreases |steps|
  {
    if steps != [] {
      StepStructured(w, steps[0]);
      StepKeepsAgreement(w, steps[0]);
      StableRunAgrees(Apply(w, steps[0]), steps[1..]);
    }
  }

  /** If no device changes provider during the run, no recipient ever meets two queues. */
  lemma StableProvidersMeanOneQueue(policy: FailurePolicy, steps: seq<Step>, r: Id)
    requires Valid(Start(policy), steps) && StableRun(Start(policy), steps)
    ensures OneQueue(Run(Start(policy), steps).h, r)
  {
    StartStructured(policy);
    StableRunAgrees(Start(policy), steps);
  }

  // ----- end to end -----

  /** No `sent` write fails, and no worker crashes between an acceptance and its `sent` write. */
  predicate RecordsAcceptance(w: World, s: Step) {
    match s
    case SendStep(k, e) => ActiveAt(w, k) && w.q[k].state.pc.MarkSent? ==> e.sentUp
    case SendCrash(k) => !(ActiveAt(w, k) && w.q[k].state.pc.MarkSent?)
    case _ => true
  }

  predicate RecordingRun(w: World, steps: seq<Step>)
    requires Valid(w, steps)
    decreases steps
  {
    steps == [] || (RecordsAcceptance(w, steps[0]) && RecordingRun(Apply(w, steps[0]), steps[1..]))
  }

  lemma StatementRecords(w: World, k: TaskKey, e: SendHandler.Environment)
    requires AllKnown(w) && ActiveAt(w, k) && (w.q[k].state.pc.MarkSent? ==> e.sentUp)
    ensures ApplySend(w, k, e).h.unacked == w.h.unacked
  {
    assert Known(w, k);
  }

  lemma StepRecords(w: World, s: Step)
    requires AllKnown(w) && Enabled(w, s) && RecordsAcceptance(w, s)
    ensures Apply(w, s).h.unacked == w.h.unacked
  {
    if s.SendStep? { StatementRecords(w, s.key, s.env); }
  }

  lemma {:induction false} RunRecords(w: World, steps: seq<Step>)
    requires Structured(w) && Valid(w, steps) && RecordingRun(w, steps)
    ensures Run(w, steps).h.unacked == w.h.unacked
    decreases |steps|
  {
    if steps != [] {
      StructuredKnown(w);
      StepRecords(w, steps[0]);
      StepStructured(w, steps[0]);
      RunRecords(Apply(w, steps[0]), steps[1..]);
    }
  }

  /**
   At most one accepted push per (project, idempotency key, device): any creates, fanouts cut
   short and rerun, retries and lost failure writes, as long as devices keep their providers and
   every acceptance gets recorded.
   */
  lemma EndToEndAtMostOnce(policy: FailurePolicy, steps: seq<Step>, project: Id, key: string, device: Id)
    requires Valid(Start(policy), steps) && StableRun(Start(policy), steps) && RecordingRun(Start(policy), steps)
    ensures var w := Run(Start(policy), steps);
      Accepted(w.h, Audience(w, project, key, device)) <= 1
  {
    var w := Run(Start(policy), steps);
    StartStructured(policy);
    RunRecords(Start(policy), steps);
    forall r | r in Audience(w, project, key, device) ensures OneQueue(w.h, r) {
      StableProvidersMeanOneQueue(policy, steps, r);
    }
    AtMostOncePerKey(policy, w, project, key, device);
  }

  // ----- runs without database errors or crashes on the send side -----

  predicate Undisturbed(w: World, s: Step) {
    match s
    case SendStep(k, e) => ActiveAt(w, k) ==> !DatabaseFault(w, k, e)
    case SendCrash(_) => false
    case _ => true
  }

  predicate UndisturbedRun(w: World, steps: seq<Step>)
    requires Valid(w, steps)
    decreases steps
  {
    steps == [] || (Undisturbed(w, steps[0]) && UndisturbedRun(Apply(w, steps[0]), steps[1..]))
  }

  ghost predicate SameMarks(g: History, h: History) {
    g.unacked == h.unacked && g.dropped == h.dropped && g.disturbed == h.disturbed
  }

  lemma ConcludeKeepsMarks(w: World, k: TaskKey, o: Outcome)
    requires k in w.q
    ensures SameMarks(Conclude(w, k, o).h, w.h)
  {
  }

  lemma StepKeepsMarks(w: World, s: Step)
    requires Enabled(w, s) && Undisturbed(w, s)
    ensures SameMarks(Apply(w, s).h, w.h)
  {
    if s.SendEnd? { ConcludeKeepsMarks(w, s.key, w.q[s.key].state.pc.outcome); }
  }

  lemma {:induction false} UndisturbedRunKeepsMarks(w: World, steps: seq<Step>)
    requires Valid(w, steps) && UndisturbedRun(w, steps)
    ensures SameMarks(Run(w, steps).h, w.h)
    decreases |steps|
  {
    if steps != [] {
      StepKeepsMarks(w, steps[0]);
      UndisturbedRunKeepsMarks(Apply(w, steps[0]), steps[1..]);
    }
  }

  /**
   Where no send-side statement fails and no worker crashes, no recipient is ever marked: the
   conditions on `unacked`, `dropped` and `disturbed` above and in Outcomes all hold, whatever
   fails in create calls and fanout runs.
   */
  lemma UndisturbedRunMarksNothing(policy: FailurePolicy, steps: seq<Step>)
    requires Valid(Start(policy), steps) && UndisturbedRun(Start(policy), steps)
    ensures var h := Run(Start(policy), steps).h;
      h.unacked == {} && h.dropped == {} && h.disturbed == {}
  {
    UndisturbedRunKeepsMarks(Start(policy), steps);
  }
}
