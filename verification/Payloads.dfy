/** What the queued send tasks carry, and what an attempt at one can do to devices. */
module Payloads {
  import opened Prelude
  import opened Store
  import opened TaskQueue
  import opened SendQueue
  import opened Pipeline
  import opened Structure
  import opened Guarantees
  import SendHandler
  import FanoutHandler
  import CreateHandler

  /** The payload names its recipient's device and notification, that one's project, and the device's token. */
  predicate PayloadOk(t: Tables, k: TaskKey, p: SendPayload) {
    && p.recipient == k.recipient && p.provider == k.queue
    && k.recipient in t.recipients
    && p.notification == t.recipients[k.recipient].notification && p.device == t.recipients[k.recipient].device
    && p.notification in t.notifications && p.project == t.notifications[p.notification].project
    && p.device in t.devices && p.token == t.devices[p.device].token
  }

  ghost predicate QueuedOk(w: World) {
    forall k :: k in w.q ==> PayloadOk(w.t, k, w.q[k].payload)
  }

  /** A fetched device row still carries its device's token. */
  predicate TokensOk(t: Tables, pc: FanoutHandler.Pc) {
    pc.Insert? || pc.Select? || pc.EnqueueOne? ==>
      forall i :: 0 <= i < |pc.devs| ==>
                    pc.devs[i].id in t.devices && pc.devs[i].token == t.devices[pc.devs[i].id].token
  }

  ghost predicate FetchedOk(w: World) {
    forall run :: run in w.fanouts ==> TokensOk(w.t, w.fanouts[run].pc)
  }

  lemma StillPayloadOk(t: Tables, t': Tables, k: TaskKey, p: SendPayload)
    requires PayloadOk(t, k, p) && TablesGrow(t, t')
    ensures PayloadOk(t', k, p)
  {
  }

  lemma OwnTokensOk(w: World, run: Id, r: FanoutHandler.Reply)
    requires FanoutEnabled(w, run, r) && TokensOk(w.t, w.fanouts[run].pc)
    ensures TokensOk(w.t, ApplyFanout(w, run, r).fanouts[run].pc)
  {
  }

  lemma StepKeepsTokens(w: World, s: Step)
    requires Enabled(w, s) && FetchedOk(w)
    ensures FetchedOk(Apply(w, s))
  {
    StepGrows(w, s);
    var w' := Apply(w, s);
    forall run | run in w'.fanouts ensures TokensOk(w'.t, w'.fanouts[run].pc) {
      if s.FanoutStep? && run == s.run {
        OwnTokensOk(w, run, s.fanoutReply);
      } else {
        if !s.FanoutStep? { SameFanouts(w, s); }
        assert w'.fanouts[run].pc.GetNotification? || (run in w.fanouts && w'.fanouts[run] == w.fanouts[run]);
      }
    }
  }

  /** The task a fanout step adds, if any. */
  lemma FanoutQueue(w: World, run: Id, r: FanoutHandler.Reply)
    requires FanoutEnabled(w, run, r)
    ensures var f := w.fanouts[run];
      ApplyFanout(w, run, r).q
      == if f.pc.EnqueueOne? && (r.up || r.applied)
         then Enqueue(w.q, FanoutHandler.PayloadFor(f.notification, f.project, f.pc.devs[f.pc.i], f.pc.recipient))
         else w.q
  {
  }

  lemma NewPayloadOk(w: World, run: Id, r: FanoutHandler.Reply)
    requires RowsOk(w.t) && FanoutEnabled(w, run, r) && RunOk(w, w.fanouts[run]) && TokensOk(w.t, w.fanouts[run].pc)
    requires w.fanouts[run].pc.EnqueueOne?
    ensures var f := w.fanouts[run];
      var p := FanoutHandler.PayloadFor(f.notification, f.project, f.pc.devs[f.pc.i], f.pc.recipient);
      PayloadOk(w.t, KeyOf(p), p)
  {
  }

  lemma FanoutKeepsPayloads(w: World, run: Id, r: FanoutHandler.Reply)
    requires RowsOk(w.t) && FanoutEnabled(w, run, r) && RunOk(w, w.fanouts[run]) && TokensOk(w.t, w.fanouts[run].pc)
    requires QueuedOk(w)
    ensures QueuedOk(ApplyFanout(w, run, r))
  {
    var w' := ApplyFanout(w, run, r);
    FanoutStepGrows(w, run, r);
    FanoutQueue(w, run, r);
    if w.fanouts[run].pc.EnqueueOne? { NewPayloadOk(w, run, r); }
    forall k | k in w'.q ensures PayloadOk(w'.t, k, w'.q[k].payload) {
      StillPayloadOk(w.t, w'.t, k, w'.q[k].payload);
    }
  }

  lemma StepKeepsPayloads(w: World, s: Step)
    requires Structured(w) && Enabled(w, s) && FetchedOk(w) && QueuedOk(w)
    ensures QueuedOk(Apply(w, s))
  {
    var w' := Apply(w, s);
    if s.FanoutStep? {
      FanoutKeepsPayloads(w, s.run, s.fanoutReply);
    } else {
      StepGrows(w, s);
      if OnSendSide(s) { StepTasks(w, s); }
      forall k | k in w'.q ensures PayloadOk(w'.t, k, w'.q[k].payload) {
        assert k in w.q && w'.q[k].payload == w.q[k].payload;
        StillPayloadOk(w.t, w'.t, k, w.q[k].payload);
      }
    }
  }

  lemma {:induction false} RunKeepsPayloads(w: World, steps: seq<Step>)
    requires Structured(w) && Valid(w, steps) && FetchedOk(w) && QueuedOk(w)
    ensures FetchedOk(Run(w, steps)) && QueuedOk(Run(w, steps))
    decreases |steps|
  {
    if steps != [] {
      StepStructured(w, steps[0]);
      StepKeepsTokens(w, steps[0]);
      StepKeepsPayloads(w, steps[0]);
      RunKeepsPayloads(Apply(w, steps[0]), steps[1..]);
    }
  }

  lemma ReachablePayloads(policy: FailurePolicy, w: World)
    requires Reachable(policy, w)
    ensures QueuedOk(w)
  {
    var steps :| Valid(Start(policy), steps) && Run(Start(policy), steps) == w;
    StartStructured(policy);
    RunKeepsPayloads(Start(policy), steps);
  }

  /**
   Every queued task is about the recipient its id names: that recipient's device, with its token,
   its notification and that one's project, and the provider of the queue it is in.
   */
  lemma QueuedPayloads(policy: FailurePolicy, w: World, k: TaskKey)
    requires Reachable(policy, w) && k in w.q
    ensures var p := w.q[k].payload;
      && p.recipient == k.recipient && p.provider == k.queue && k.recipient in w.t.recipients
      && p.notification == w.t.recipients[k.recipient].notification
      && p.device == w.t.recipients[k.recipient].device
      && p.notification in w.t.notifications && p.project == w.t.notifications[p.notification].project
      && p.device in w.t.devices && p.project == w.t.devices[p.device].project
      && p.token == w.t.devices[p.device].token
  {
    ReachablePayloads(policy, w);
    ReachableStructured(policy, w);
    assert Isolated(w.t, w.t.recipients[k.recipient]);
  }

  lemma StatementDevices(w: World, k: TaskKey, e: SendHandler.Environment)
    requires ActiveAt(w, k)
    ensures var p, pc := w.q[k].payload, w.q[k].state.pc;
      ApplySend(w, k, e).t.devices
      == if pc.MarkInvalid? && e.invalidUp && p.device in w.t.devices
         then w.t.devices[p.device := w.t.devices[p.device].(status := DeviceStatus.Invalid)] else w.t.devices
  {
  }

  /** No step of an attempt touches a device other than its own recipient's, and only ever to invalidate it. */
  lemma AttemptsTouchOwnDevice(policy: FailurePolicy, w: World, k: TaskKey, s: Step, d: Id)
    requires Reachable(policy, w) && k in w.q && k.recipient in w.t.recipients && Enabled(w, s)
    requires s == SendBegin(k) || s == SendEnd(k) || s == SendCrash(k) || (s.SendStep? && s.key == k)
    requires d in w.t.devices
    ensures d in Apply(w, s).t.devices
    ensures Apply(w, s).t.devices[d] != w.t.devices[d] ==>
              d == w.t.recipients[k.recipient].device
              && Apply(w, s).t.devices[d] == w.t.devices[d].(status := DeviceStatus.Invalid)
  {
    ReachablePayloads(policy, w);
    assert PayloadOk(w.t, k, w.q[k].payload);
    match s
    case SendStep(_, e) => StatementDevices(w, k, e);
    case SendEnd(_) => ConcludeHistory(w, k, w.q[k].state.pc.outcome);
    case SendCrash(_) => CrashTables(w, k);
    case SendBegin(_) =>
  }

  lemma CrashTables(w: World, k: TaskKey)
    requires ActiveAt(w, k)
    ensures ApplyCrash(w, k).t == w.t
  {
  }
}
