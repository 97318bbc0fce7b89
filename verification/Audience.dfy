/**
 Notifications that name their devices: if all of these are registered before the fanout, every
 fanout run fetches the same set, and the completion test is exact without further conditions.
 */
module Audience {
  import opened Prelude
  import opened Store
  import opened Pipeline
  import opened Structure
  import opened Guarantees
  import opened Outcomes
  import opened TaskQueue
  import FanoutHandler

  function Named(spec: TargetSpec): set<Id>
    requires spec.Targets?
  {
    set d | d in spec.deviceIds
  }

  /** The named devices of the notification's project. */
  function AudienceOf(t: Tables, n: Id): set<Id>
    requires n in t.notifications && t.notifications[n].spec.Targets?
  {
    DevicesByIds(t, t.notifications[n].project, Named(t.notifications[n].spec))
  }

  /** The notification names devices, and every one of them is registered, in whatever project. */
  predicate AllRegistered(t: Tables, n: Id) {
    && n in t.notifications && t.notifications[n].spec.Targets? && |t.notifications[n].spec.deviceIds| > 0
    && forall d :: d in t.notifications[n].spec.deviceIds ==> d in t.devices
  }

  lemma AudienceStays(t: Tables, t': Tables, n: Id)
    requires AllRegistered(t, n) && TablesGrow(t, t')
    ensures AllRegistered(t', n) && AudienceOf(t', n) == AudienceOf(t, n)
  {
    assert t'.notifications[n].spec == t.notifications[n].spec;
  }

  /** A run that has resolved its targets has resolved them to `audience`. */
  predicate Aimed(pc: FanoutHandler.Pc, spec: TargetSpec, audience: set<Id>) {
    match pc
    case Resolve(s) => s == spec
    case FetchDevices(ids) => ids == audience
    case CompleteEmpty => audience == {}
    case Insert(devs, _) => RowIds(devs) == audience
    case Select(devs, _) => RowIds(devs) == audience
    case EnqueueOne(devs, _, _) => RowIds(devs) == audience
    case SetTotals(devs) => RowIds(devs) == audience
    case SetProcessing(devs) => RowIds(devs) == audience
    case Ended(true, devs) => RowIds(devs) == audience
    case _ => true
  }

  ghost predicate AllAimed(w: World, n: Id)
    requires AllRegistered(w.t, n)
  {
    && (forall run :: run in w.fanouts && w.fanouts[run].notification == n ==>
          w.fanouts[run].project == w.t.notifications[n].project
          && Aimed(w.fanouts[run].pc, w.t.notifications[n].spec, AudienceOf(w.t, n)))
    && (forall ds :: (n, ds) in w.h.fetched ==> ds == AudienceOf(w.t, n))
  }

  /** A step that leaves fanout runs alone, or begins one. */
  lemma StillAimed(w: World, w': World, n: Id)
    requires AllRegistered(w.t, n) && AllAimed(w, n) && Grows(w, w') && w'.h.fetched == w.h.fetched
    requires forall run :: run in w'.fanouts && w'.fanouts[run].notification == n ==>
               (run in w.fanouts && w'.fanouts[run] == w.fanouts[run])
               || (w'.fanouts[run].pc.GetNotification? && w'.fanouts[run].project == w.t.notifications[n].project)
    ensures AllRegistered(w'.t, n) && AllAimed(w', n)
  {
    AudienceStays(w.t, w'.t, n);
  }

  lemma FetchedIsAudience(t: Tables, n: Id, rows: seq<DeviceRow>)
    requires AllRegistered(t, n) && IsFetchOf(t, t.notifications[n].project, AudienceOf(t, n), rows)
    ensures RowIds(rows) == AudienceOf(t, n)
  {
    assert DevicesByIds(t, t.notifications[n].project, AudienceOf(t, n)) == AudienceOf(t, n);
  }

  lemma NextAimed(n: Id, t: Tables, pc: FanoutHandler.Pc, s: FanoutHandler.State, r: FanoutHandler.Reply)
    requires AllRegistered(t, n) && s.t == t && s.pc == pc && Aimed(pc, t.notifications[n].spec, AudienceOf(t, n))
    requires FanoutHandler.Enabled(t.notifications[n].project, s, r)
    ensures Aimed(FanoutHandler.Step(n, t.notifications[n].project, s, r).pc, t.notifications[n].spec, AudienceOf(t, n))
  {
    match pc
    case FetchDevices(_) => if r.up { FetchedIsAudience(t, n, r.rows); }
    case CompleteEmpty => assert RowIds([]) == {};
    case _ =>
  }

  lemma OwnRunAimed(w: World, run: Id, r: FanoutHandler.Reply)
    requires FanoutEnabled(w, run, r) && AllRegistered(w.t, w.fanouts[run].notification)
    requires AllAimed(w, w.fanouts[run].notification)
    ensures var f := w.fanouts[run];
      Aimed(ApplyFanout(w, run, r).fanouts[run].pc, w.t.notifications[f.notification].spec,
            AudienceOf(w.t, f.notification))
  {
    NextAimed(w.fanouts[run].notification, w.t, w.fanouts[run].pc, FanoutView(w, run), r);
  }

  lemma FanoutKeepsAimed(w: World, run: Id, r: FanoutHandler.Reply, n: Id)
    requires AllRegistered(w.t, n) && AllAimed(w, n) && FanoutEnabled(w, run, r)
    ensures AllRegistered(ApplyFanout(w, run, r).t, n) && AllAimed(ApplyFanout(w, run, r), n)
  {
    var w', f := ApplyFanout(w, run, r), w.fanouts[run];
    FanoutStepGrows(w, run, r);
    AudienceStays(w.t, w'.t, n);
    if f.notification == n {
      OwnRunAimed(w, run, r);
      if f.pc.FetchDevices? && r.up { FetchedIsAudience(w.t, n, r.rows); }
    }
  }

  lemma StepKeepsAimed(w: World, s: Step, n: Id)
    requires AllRegistered(w.t, n) && AllAimed(w, n) && Enabled(w, s)
    ensures AllRegistered(Apply(w, s).t, n) && AllAimed(Apply(w, s), n)
  {
    StepGrows(w, s);
    if s.FanoutStep? {
      FanoutKeepsAimed(w, s.run, s.fanoutReply, n);
    } else {
      if OnSendSide(s) { StepSendSide(w, s); }
      StillAimed(w, Apply(w, s), n);
    }
  }

  lemma {:induction false} RunKeepsAimed(w: World, steps: seq<Step>, n: Id)
    requires AllRegistered(w.t, n) && AllAimed(w, n) && Valid(w, steps)
    ensures AllRegistered(Run(w, steps).t, n) && AllAimed(Run(w, steps), n)
    decreases |steps|
  {
    if steps != [] {
      StepKeepsAimed(w, steps[0], n);
      RunKeepsAimed(Apply(w, steps[0]), steps[1..], n);
    }
  }

  // ----- before the first fanout task -----

  ghost predicate Unfanned(w: World, n: Id) {
    w.h.fanouts[n] == 0 ==>
      (forall run :: run in w.fanouts ==> w.fanouts[run].notification != n) && (forall ds :: (n, ds) !in w.h.fetched)
  }

  lemma FanoutStaysUnfanned(w: World, run: Id, r: FanoutHandler.Reply, n: Id)
    requires Unfanned(w, n) && FanoutEnabled(w, run, r)
    ensures Unfanned(ApplyFanout(w, run, r), n)
  {
  }

  lemma StepStaysUnfanned(w: World, s: Step, n: Id)
    requires Unfanned(w, n) && Enabled(w, s)
    ensures Unfanned(Apply(w, s), n)
  {
    StepGrows(w, s);
    assert Apply(w, s).h.fanouts[n] == 0 ==> w.h.fanouts[n] == 0;
    if s.FanoutStep? {
      FanoutStaysUnfanned(w, s.run, s.fanoutReply, n);
    } else if OnSendSide(s) {
      StepSendSide(w, s);
    }
  }

  lemma {:induction false} RunStaysUnfanned(w: World, steps: seq<Step>, n: Id)
    requires Unfanned(w, n) && Valid(w, steps)
    ensures Unfanned(Run(w, steps), n)
    decreases |steps|
  {
    if steps != [] {
      StepStaysUnfanned(w, steps[0], n);
      RunStaysUnfanned(Apply(w, steps[0]), steps[1..], n);
    }
  }

  // ----- what follows -----

  /** All fanout runs of such a notification fetch the same devices, whatever else is registered later. */
  lemma NamedAudienceIsOne(policy: FailurePolicy, w: World, steps: seq<Step>, n: Id)
    requires Reachable(policy, w) && Valid(w, steps) && AllRegistered(w.t, n) && w.h.fanouts[n] == 0
    ensures OneAudience(Run(w, steps).h, n)
  {
    var before :| Valid(Start(policy), before) && Run(Start(policy), before) == w;
    RunStaysUnfanned(Start(policy), before, n);
    RunKeepsAimed(w, steps, n);
  }

  /** So its completion test says exactly that every recipient row is terminal. */
  lemma NamedCompletionIsExact(policy: FailurePolicy, w: World, steps: seq<Step>, n: Id)
    requires Reachable(policy, w) && Valid(w, steps) && AllRegistered(w.t, n) && w.h.fanouts[n] == 0
    ensures n in Run(w, steps).t.notifications
    ensures NotificationDone(Run(w, steps).t, n)
       <==> Run(w, steps).t.notifications[n].total != 0
            && forall r :: r in RowsOf(Run(w, steps).t, n) ==> Resolved(Run(w, steps), r)
  {
    NamedAudienceIsOne(policy, w, steps, n);
    RunGrows(w, steps);
    ReachableRun(policy, w, steps);
    CompletionIsExact(policy, Run(w, steps), n);
  }

  // ----- from the request to the recipients -----

  /** What a notification's owner asked for is what is stored. */
  lemma StoredAsRequested(policy: FailurePolicy, w: World, n: Id)
    requires Reachable(policy, w) && n in w.t.notifications
    ensures n in w.h.owner && w.h.owner[n] in w.calls
    ensures var req := w.calls[w.h.owner[n]].req;
      && w.t.notifications[n].project == req.project && w.t.notifications[n].key == req.key
      && w.t.notifications[n].spec == req.spec
  {
    ReachableStructured(policy, w);
    var l := LedgerOf(w);
    assert n in l.ids && OwnerOk(l, n);
  }

  /** A run that succeeded went over exactly the audience. */
  lemma FinishedRunIsAimed(policy: FailurePolicy, w: World, steps: seq<Step>, n: Id, run: Id)
    requires Reachable(policy, w) && Valid(w, steps) && AllRegistered(w.t, n) && w.h.fanouts[n] == 0
    requires run in Run(w, steps).fanouts && Run(w, steps).fanouts[run].notification == n
    requires Run(w, steps).fanouts[run].pc.Ended? && Run(w, steps).fanouts[run].pc.ok
    ensures RowIds(Run(w, steps).fanouts[run].pc.devs) == AudienceOf(w.t, n)
  {
    var before :| Valid(Start(policy), before) && Run(Start(policy), before) == w;
    RunStaysUnfanned(Start(policy), before, n);
    RunKeepsAimed(w, steps, n);
    RunGrows(w, steps);
    AudienceStays(w.t, Run(w, steps).t, n);
  }

  /** Recipient `r` is the notification's row for the device, and was given a task in queue `p`. */
  predicate HasTask(w: World, n: Id, d: Id, r: Id, p: Provider) {
    && r in w.t.recipients && w.t.recipients[r].notification == n && w.t.recipients[r].device == d
    && TaskKey(p, r) in w.h.enqueued
  }

  /**
   A create call's devices, if all are registered and before the fanout begins: once a fanout run
   succeeds, every one of them that belongs to the call's project has a recipient row of its own
   for the notification, and was given a send task.
   */
  lemma NamedDevicesAreServed(policy: FailurePolicy, w: World, steps: seq<Step>, n: Id, run: Id, d: Id)
    requires Reachable(policy, w) && Valid(w, steps) && n in w.t.notifications && w.h.fanouts[n] == 0
    requires n in w.h.owner && w.h.owner[n] in w.calls
    requires var spec := w.calls[w.h.owner[n]].req.spec;
      && spec.Targets? && d in spec.deviceIds && forall x :: x in spec.deviceIds ==> x in w.t.devices
    requires w.t.devices[d].project == w.calls[w.h.owner[n]].req.project
    requires run in Run(w, steps).fanouts && Run(w, steps).fanouts[run].notification == n
    requires Run(w, steps).fanouts[run].pc.Ended? && Run(w, steps).fanouts[run].pc.ok
    ensures exists r, p :: HasTask(Run(w, steps), n, d, r, p)
  {
    StoredAsRequested(policy, w, n);
    FinishedRunIsAimed(policy, w, steps, n, run);
    assert d in AudienceOf(w.t, n);
    ReachableRun(policy, w, steps);
    ReachableStructured(policy, Run(w, steps));
    ServedByRun(Run(w, steps), Run(w, steps).fanouts[run], d);
  }

  lemma ServedByRun(w: World, f: FanoutRun, d: Id)
    requires Structured(w) && RunOk(w, f) && f.pc.Ended? && d in RowIds(f.pc.devs)
    ensures exists r, p :: HasTask(w, f.notification, d, r, p)
  {
    var i :| 0 <= i < |f.pc.devs| && f.pc.devs[i].id == d;
    assert Linked(w, f.notification, f.pc.devs[i]);
    assert HasTask(w, f.notification, d, w.t.pairIndex[(f.notification, d)], f.pc.devs[i].provider);
  }
}
