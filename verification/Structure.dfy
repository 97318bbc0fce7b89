/**
 What the tables, the queue and the running fanouts satisfy in every reachable state: row
 identity, project isolation, the links a fanout run has established, stored totals, and the
 ownership of idempotency keys.
 */
module Structure {
  import opened Prelude
  import opened Store
  import opened TaskQueue
  import opened SendQueue
  import opened Pipeline
  import SendHandler
  import FanoutHandler
  import CreateHandler

  // ----- what never changes once it is there -----

  ghost predicate TablesGrow(t: Tables, t': Tables) {
    && (forall n :: n in t.notifications ==>
          && n in t'.notifications
          && t'.notifications[n].project == t.notifications[n].project
          && t'.notifications[n].key == t.notifications[n].key
          && t'.notifications[n].spec == t.notifications[n].spec)
    && (forall key :: key in t.keyIndex ==> key in t'.keyIndex && t'.keyIndex[key] == t.keyIndex[key])
    && (forall r :: r in t.recipients ==>
          && r in t'.recipients
          && t'.recipients[r].notification == t.recipients[r].notification
          && t'.recipients[r].device == t.recipients[r].device)
    && (forall p :: p in t.pairIndex ==> p in t'.pairIndex && t'.pairIndex[p] == t.pairIndex[p])
    && (forall d :: d in t.devices ==>
          d in t'.devices && t'.devices[d].project == t.devices[d].project && t'.devices[d].token == t.devices[d].token)
  }

  ghost predicate HistoryGrows(h: History, h': History) {
    && h.accepted <= h'.accepted && h.fanouts <= h'.fanouts
    && h.enqueued <= h'.enqueued && h.fetched <= h'.fetched
    && h.unacked <= h'.unacked && h.dropped <= h'.dropped && h.disturbed <= h'.disturbed
    && (forall n :: n in h.owner ==> n in h'.owner)
  }

  ghost predicate Grows(w: World, w': World) {
    TablesGrow(w.t, w'.t) && HistoryGrows(w.h, w'.h) && w'.policy == w.policy
  }

  /** The part of a step that send attempts and device changes leave alone. */
  ghost predicate SameStructure(t: Tables, t': Tables) {
    && t'.notifications == t.notifications && t'.keyIndex == t.keyIndex && t'.pairIndex == t.pairIndex
    && t'.recipients.Keys == t.recipients.Keys
    && TablesGrow(t, t')
  }

  lemma SendHandlerTables(t: Tables, p: SendPayload, last: bool, pc: SendHandler.Pc, e: SendHandler.Environment)
    ensures SameStructure(t, SendHandler.Step(t, p, last, pc, e).0)
  {
  }

  lemma FanoutHandlerTables(n: Id, project: Id, s: FanoutHandler.State, r: FanoutHandler.Reply)
    requires FanoutHandler.Enabled(project, s, r)
    ensures TablesGrow(s.t, FanoutHandler.Step(n, project, s, r).t)
  {
    FanoutHandler.StepTables(n, project, s, r);
    TablesAfterGrow(n, s, r);
  }

  lemma TablesAfterGrow(n: Id, s: FanoutHandler.State, r: FanoutHandler.Reply)
    requires s.pc.Insert? ==> s.pc.i < |s.pc.devs| && r.freshId !in s.t.recipients
    ensures TablesGrow(s.t, FanoutHandler.TablesAfter(n, s, r))
  {
    if r.up || r.applied {
      match s.pc
      case Insert(devs, i) => InsertGrows(s.t, r.freshId, n, devs[i].id, devs[i].provider);
      case SetTotals(devs) => TotalsGrow(s.t, n, |devs|);
      case SetProcessing(_) => StatusGrows(s.t, n, Processing);
      case MarkFailed => StatusGrows(s.t, n, NotificationStatus.Failed);
      case CompleteEmpty => StatusGrows(s.t, n, Completed);
      case _ =>
    }
  }

  lemma InsertGrows(t: Tables, id: Id, n: Id, d: Id, provider: Provider)
    requires id !in t.recipients
    ensures TablesGrow(t, InsertRecipient(t, id, n, d, provider))
  {
  }

  lemma TotalsGrow(t: Tables, n: Id, total: nat)
    ensures TablesGrow(t, SetNotificationTotals(t, n, total))
  {
  }

  lemma StatusGrows(t: Tables, n: Id, status: NotificationStatus)
    ensures TablesGrow(t, SetNotificationStatus(t, n, status))
  {
  }

  lemma CreateHandlerTables(req: CreateHandler.Request, s: CreateHandler.State, r: CreateHandler.Reply)
    requires CreateHandler.Enabled(s, r)
    ensures TablesGrow(s.t, CreateHandler.Step(req, s, r).t)
    ensures s.fanouts <= CreateHandler.Step(req, s, r).fanouts
  {
  }

  /** Everything but recipients' progress, the tasks and the attempt history is as before. */
  ghost predicate SendSide(w: World, w': World) {
    && SameStructure(w.t, w'.t)
    && w'.fanouts == w.fanouts && w'.calls == w.calls && w'.policy == w.policy
    && w'.h.enqueued == w.h.enqueued && w'.h.fetched == w.h.fetched
    && w'.h.fanouts == w.h.fanouts && w'.h.owner == w.h.owner
    && HistoryGrows(w.h, w'.h)
  }

  lemma ConcludeSendSide(w: World, k: TaskKey, o: Outcome)
    requires k in w.q
    ensures SendSide(w, Conclude(w, k, o))
  {
    ConcludeHistory(w, k, o);
  }

  lemma ConcludeHistory(w: World, k: TaskKey, o: Outcome)
    requires k in w.q
    ensures Conclude(w, k, o) == w.(q := Conclude(w, k, o).q, h := w.h.(retries := Conclude(w, k, o).h.retries))
  {
  }

  lemma SendStepSendSide(w: World, k: TaskKey, e: SendHandler.Environment)
    requires ActiveAt(w, k)
    ensures SendSide(w, ApplySend(w, k, e))
  {
    SendHandlerTables(w.t, w.q[k].payload, LastAttempt(w.q[k]), w.q[k].state.pc, e);
    var h := SendHistory(w, k, e);
    assert HistoryGrows(w.h, h);
  }

  predicate OnSendSide(s: Step) {
    s.SendBegin? || s.SendStep? || s.SendEnd? || s.SendCrash? || s.DeviceChange?
  }

  lemma StepSendSide(w: World, s: Step)
    requires Enabled(w, s) && OnSendSide(s)
    ensures SendSide(w, Apply(w, s))
  {
    match s
    case SendStep(k, e) => SendStepSendSide(w, k, e);
    case SendEnd(k) => ConcludeSendSide(w, k, w.q[k].state.pc.outcome);
    case SendCrash(k) =>
    case SendBegin(k) =>
    case DeviceChange(d, device) =>
  }

  /** A row keeps its notification and its device, an index entry its row, whatever happens. */
  lemma StepGrows(w: World, s: Step)
    requires Enabled(w, s)
    ensures Grows(w, Apply(w, s))
  {
    match s
    case CreateStep(c, r) => CreateHandlerTables(w.calls[c].req, CreateView(w, c), r);
    case FanoutStep(run, r) =>
      FanoutHandlerTables(w.fanouts[run].notification, w.fanouts[run].project, FanoutView(w, run), r);
    case CreateBegin(_, _) =>
    case FanoutBegin(_, _) =>
    case _ => StepSendSide(w, s);
  }

  lemma {:induction false} RunGrows(w: World, steps: seq<Step>)
    requires Valid(w, steps)
    ensures Grows(w, Run(w, steps))
    decreases |steps|
  {
    if steps != [] {
      StepGrows(w, steps[0]);
      RunGrows(Apply(w, steps[0]), steps[1..]);
      GrowsOn(w, Apply(w, steps[0]), Run(w, steps));
    }
  }

  lemma GrowsOn(w0: World, w1: World, w2: World)
    requires Grows(w0, w1) && Grows(w1, w2)
    ensures Grows(w0, w2)
  {
  }

  // ----- rows -----

  /** Unique (notification, device) pairs, and every recipient's device in its notification's project. */
  ghost predicate RowsOk(t: Tables) {
    && FanoutHandler.PairsUnique(t)
    && forall r :: r in t.recipients ==> Isolated(t, t.recipients[r])
  }

  predicate Isolated(t: Tables, row: Recipient) {
    && row.notification in t.notifications && row.device in t.devices
    && t.devices[row.device].project == t.notifications[row.notification].project
  }

  // ----- the queue -----

  /** The budget arithmetic of one task: every run begun is a counted retry, a denial or the current run. */
  predicate WithinBudget(task: SendTask) {
    && task.retried <= MAX_RETRY
    && (task.state == Archived(Exhausted) ==> task.retried == MAX_RETRY)
    && task.runs == task.retried + task.denials + (if task.state.Waiting? then 0 else 1)
  }

  ghost predicate QueueOk(w: World) {
    && (forall k :: k in w.h.enqueued ==> k.recipient in w.t.recipients)
    && (forall k :: k in w.q ==>
          && k in w.h.enqueued
          && KeyOf(w.q[k].payload) == k
          && WithinBudget(w.q[k]))
  }

  // ----- fanout runs -----

  ghost predicate DevsOk(w: World, f: FanoutRun, devs: seq<DeviceRow>) {
    && (forall i, j :: 0 <= i < j < |devs| ==> devs[i].id != devs[j].id)
    && (forall i :: 0 <= i < |devs| ==> devs[i].id in w.t.devices && w.t.devices[devs[i].id].project == f.project)
    && (f.notification, RowIds(devs)) in w.h.fetched
  }

  /** The device has a row whose send task has been enqueued. */
  ghost predicate Linked(w: World, n: Id, d: DeviceRow) {
    (n, d.id) in w.t.pairIndex && TaskKey(d.provider, w.t.pairIndex[(n, d.id)]) in w.h.enqueued
  }

  ghost predicate LinkedUpTo(w: World, n: Id, devs: seq<DeviceRow>, k: nat) {
    forall j :: 0 <= j < k && j < |devs| ==> Linked(w, n, devs[j])
  }

  ghost predicate RunOk(w: World, f: FanoutRun) {
    && f.notification in w.t.notifications && w.t.notifications[f.notification].project == f.project
    && match f.pc
       case Insert(devs, i) => i < |devs| && DevsOk(w, f, devs) && LinkedUpTo(w, f.notification, devs, i)
       case Select(devs, i) => i < |devs| && DevsOk(w, f, devs) && LinkedUpTo(w, f.notification, devs, i)
       case EnqueueOne(devs, i, r) =>
         && i < |devs| && DevsOk(w, f, devs) && LinkedUpTo(w, f.notification, devs, i)
         && (f.notification, devs[i].id) in w.t.pairIndex && w.t.pairIndex[(f.notification, devs[i].id)] == r
       case SetTotals(devs) => DevsOk(w, f, devs) && LinkedUpTo(w, f.notification, devs, |devs|)
       case SetProcessing(devs) => LinkedUpTo(w, f.notification, devs, |devs|)
       case Ended(ok, devs) => LinkedUpTo(w, f.notification, devs, |devs|)
       case _ => true
  }

  ghost predicate FanoutOk(w: World) {
    forall run :: run in w.fanouts ==> RunOk(w, w.fanouts[run])
  }

  // ----- totals -----

  ghost predicate Backs(w: World, n: Id, total: nat, ds: set<Id>) {
    && (n, ds) in w.h.fetched && |ds| == total
    && forall d :: d in ds ==> (n, d) in w.t.pairIndex
  }

  /** A stored total counts a fetched device set all of which has rows. */
  ghost predicate TotalBacked(w: World, n: Id)
    requires n in w.t.notifications
  {
    w.t.notifications[n].total == 0 || exists ds :: Backs(w, n, w.t.notifications[n].total, ds)
  }

  ghost predicate Fetched(w: World, n: Id, d: Id) {
    exists ds :: (n, ds) in w.h.fetched && d in ds
  }

  ghost predicate TotalsOk(w: World) {
    && (forall n :: n in w.t.notifications ==> TotalBacked(w, n))
    && (forall p :: p in w.t.pairIndex ==> Fetched(w, p.0, p.1))
  }

  // ----- idempotency keys -----

  /** The part of the world the idempotency argument is about. */
  datatype Ledger = Ledger(
    ids: map<Id, (Id, Option<string>)>, specs: map<Id, TargetSpec>, keyIndex: map<(Id, string), Id>,
    owner: map<Id, Id>, fanouts: multiset<Id>, calls: map<Id, CreateCall>)

  function LedgerOf(w: World): Ledger {
    Ledger(map n | n in w.t.notifications :: (w.t.notifications[n].project, w.t.notifications[n].key),
           map n | n in w.t.notifications :: w.t.notifications[n].spec,
           w.t.keyIndex, w.h.owner, w.h.fanouts, w.calls)
  }

  predicate CallMatches(l: Ledger, c: Id, n: Id)
    requires c in l.calls
  {
    n in l.ids && l.ids[n] == (l.calls[c].req.project, l.calls[c].req.key)
  }

  predicate Owns(l: Ledger, c: Id, n: Id) {
    n in l.owner && l.owner[n] == c
  }

  predicate CallOk(l: Ledger, c: Id)
    requires c in l.calls
  {
    match l.calls[c].pc
    case Insert => true
    case SelectExisting => l.calls[c].req.key.Some?
    case EnqueueFanout(n) => CallMatches(l, c, n) && Owns(l, c, n) && l.fanouts[n] == 0
    case Done(None) => true
    case Done(Some(n)) =>
      && CallMatches(l, c, n)
      && (l.calls[c].req.key.None? ==> Owns(l, c, n))
      && (Owns(l, c, n) ==> l.fanouts[n] == 1)
  }

  predicate OwnerOk(l: Ledger, n: Id)
    requires n in l.owner
  {
    var c := l.owner[n];
    && c in l.calls && CallMatches(l, c, n) && n in l.specs && l.specs[n] == l.calls[c].req.spec
    && (l.calls[c].pc == CreateHandler.EnqueueFanout(n) || l.calls[c].pc == CreateHandler.Done(Some(n))
        || l.calls[c].pc == CreateHandler.Done(None))
  }

  ghost predicate IndexOk(l: Ledger) {
    && (forall n :: n in l.ids && l.ids[n].1.Some? ==>
          var key := (l.ids[n].0, l.ids[n].1.value);
          key in l.keyIndex && l.keyIndex[key] == n)
    && (forall key :: key in l.keyIndex ==>
          l.keyIndex[key] in l.ids && l.ids[l.keyIndex[key]] == (key.0, Some(key.1)))
  }

  ghost predicate KeysOk(l: Ledger) {
    && IndexOk(l)
    && l.owner.Keys == l.ids.Keys
    && (forall n :: n in l.owner ==> OwnerOk(l, n))
    && (forall n :: n in l.fanouts ==> n in l.ids && l.fanouts[n] <= 1)
    && (forall c :: c in l.calls ==> CallOk(l, c))
  }

  // ----- preservation -----

  ghost predicate Structured(w: World) {
    RowsOk(w.t) && QueueOk(w) && FanoutOk(w) && TotalsOk(w) && KeysOk(LedgerOf(w))
  }

  lemma StartStructured(policy: FailurePolicy)
    ensures Structured(Start(policy))
  {
  }

  lemma RunStillOk(w: World, w': World, f: FanoutRun)
    requires RunOk(w, f) && Grows(w, w')
    ensures RunOk(w', f)
  {
  }

  lemma StillBacked(w: World, w': World, n: Id)
    requires n in w.t.notifications && TotalBacked(w, n) && Grows(w, w')
    requires w'.t.notifications[n].total == w.t.notifications[n].total
    ensures TotalBacked(w', n)
  {
    if w.t.notifications[n].total != 0 {
      var ds :| Backs(w, n, w.t.notifications[n].total, ds);
      assert Backs(w', n, w.t.notifications[n].total, ds);
    }
  }

  lemma StillFetched(w: World, w': World, n: Id, d: Id)
    requires Fetched(w, n, d) && Grows(w, w')
    ensures Fetched(w', n, d)
  {
    var ds :| (n, ds) in w.h.fetched && d in ds;
    assert (n, ds) in w'.h.fetched;
  }

  /** Steps that leave notifications and index alone keep the totals backed. */
  lemma TotalsStillOk(w: World, w': World)
    requires TotalsOk(w) && Grows(w, w')
    requires w'.t.pairIndex == w.t.pairIndex
    requires forall n :: n in w'.t.notifications ==>
               if n in w.t.notifications then w'.t.notifications[n].total == w.t.notifications[n].total
               else w'.t.notifications[n].total == 0
    ensures TotalsOk(w')
  {
    forall n | n in w'.t.notifications ensures TotalBacked(w', n) {
      if n in w.t.notifications { StillBacked(w, w', n); }
    }
    forall p | p in w'.t.pairIndex ensures Fetched(w', p.0, p.1) {
      StillFetched(w, w', p.0, p.1);
    }
  }

  // ----- steps of send attempts, and device changes -----

  /** Tasks are not created by these steps, and keep their payload. */
  ghost predicate TasksFollow(q: Tasks, q': Tasks) {
    forall k :: k in q' ==> k in q && q'[k].payload == q[k].payload && WithinBudget(q'[k])
  }

  lemma PutFollows(q: Tasks, k: TaskKey, task: SendTask)
    requires forall x :: x in q ==> WithinBudget(q[x])
    requires k in q && task.payload == q[k].payload && WithinBudget(task)
    ensures TasksFollow(q, q[k := task])
  {
  }

  lemma ConcludeTasks(w: World, k: TaskKey, o: Outcome)
    requires QueueOk(w) && ActiveAt(w, k)
    ensures TasksFollow(w.q, Conclude(w, k, o).q)
  {
    var q' := Conclude(w, k, o).q;
    if k in q' {
      assert q' == w.q[k := q'[k]];
      PutFollows(w.q, k, q'[k]);
    } else {
      assert q' == w.q - {k};
    }
  }

  lemma CrashConcludes(w: World, k: TaskKey)
    requires ActiveAt(w, k)
    ensures ApplyCrash(w, k).q == Conclude(w, k, Failure).q
  {
  }

  lemma StepTasks(w: World, s: Step)
    requires QueueOk(w) && Enabled(w, s) && OnSendSide(s)
    ensures TasksFollow(w.q, Apply(w, s).q)
  {
    match s
    case SendEnd(k) => ConcludeTasks(w, k, w.q[k].state.pc.outcome);
    case SendCrash(k) => CrashConcludes(w, k); ConcludeTasks(w, k, Failure);
    case SendStep(k, e) => PutFollows(w.q, k, ApplySend(w, k, e).q[k]);
    case SendBegin(k) => PutFollows(w.q, k, Apply(w, s).q[k]);
    case DeviceChange(d, device) =>
  }

  lemma RowsStillOk(t: Tables, t': Tables)
    requires RowsOk(t) && SameStructure(t, t')
    ensures RowsOk(t')
  {
  }

  lemma SendSideKeepsTotals(w: World, w': World)
    requires TotalsOk(w) && SendSide(w, w')
    ensures TotalsOk(w')
  {
    forall n | n in w'.t.notifications ensures TotalBacked(w', n) { StillBacked(w, w', n); }
    forall p | p in w'.t.pairIndex ensures Fetched(w', p.0, p.1) { StillFetched(w, w', p.0, p.1); }
  }

  lemma SendSideKeeps(w: World, w': World)
    requires Structured(w) && SendSide(w, w') && TasksFollow(w.q, w'.q)
    ensures Structured(w')
  {
    RowsStillOk(w.t, w'.t);
    SendSideKeepsTotals(w, w');
    forall run | run in w'.fanouts ensures RunOk(w', w'.fanouts[run]) { RunStillOk(w, w', w.fanouts[run]); }
    assert LedgerOf(w') == LedgerOf(w);
  }

  lemma SendSideStructured(w: World, s: Step)
    requires Structured(w) && Enabled(w, s) && OnSendSide(s)
    ensures Structured(Apply(w, s))
  {
    StepSendSide(w, s);
    StepTasks(w, s);
    SendSideKeeps(w, Apply(w, s));
  }

  // ----- steps of create calls -----

  /** A create call touches only notifications, its own record and the fanout queue. */
  ghost predicate CreateSide(w: World, w': World) {
    && Grows(w, w')
    && w'.q == w.q && w'.fanouts == w.fanouts && w'.h.enqueued == w.h.enqueued && w'.h.fetched == w.h.fetched
    && w'.t.recipients == w.t.recipients && w'.t.pairIndex == w.t.pairIndex && w'.t.devices == w.t.devices
    && forall n :: n in w'.t.notifications ==>
         w'.t.notifications[n].total == if n in w.t.notifications then w.t.notifications[n].total else 0
  }

  lemma CreateSideKeeps(w: World, w': World)
    requires Structured(w) && CreateSide(w, w') && KeysOk(LedgerOf(w'))
    ensures Structured(w')
  {
    TotalsStillOk(w, w');
    forall run | run in w'.fanouts ensures RunOk(w', w'.fanouts[run]) { RunStillOk(w, w', w.fanouts[run]); }
  }

  lemma StepCreateSide(w: World, c: Id, r: CreateHandler.Reply)
    requires CreateEnabled(w, c, r)
    ensures CreateSide(w, ApplyCreate(w, c, r))
  {
    CreateHandlerTables(w.calls[c].req, CreateView(w, c), r);
  }

  /** What a create step does to the ledger. */
  function LedgerStep(l: Ledger, c: Id, pc: CreateHandler.Pc, r: CreateHandler.Reply): Ledger
    requires c in l.calls
  {
    var call := l.calls[c];
    var l' := l.(calls := l.calls[c := call.(pc := pc)]);
    if call.pc.Insert? && !CreateHandler.NoTargets(call.req.spec)
       && !(call.req.key.Some? && (call.req.project, call.req.key.value) in l.keyIndex) && (r.up || r.applied)
    then l'.(ids := l.ids[r.freshId := (call.req.project, call.req.key)],
             specs := l.specs[r.freshId := call.req.spec],
             keyIndex := if call.req.key.Some? then l.keyIndex[(call.req.project, call.req.key.value) := r.freshId]
                         else l.keyIndex,
             owner := l.owner[r.freshId := c])
    else if call.pc.EnqueueFanout? && (r.up || r.applied) then l'.(fanouts := l.fanouts + multiset{call.pc.id})
    else l'
  }

  lemma CreateStepLedger(w: World, c: Id, r: CreateHandler.Reply)
    requires CreateEnabled(w, c, r)
    ensures var w' := ApplyCreate(w, c, r);
            LedgerOf(w') == LedgerStep(LedgerOf(w), c, w'.calls[c].pc, r)
  {
    var w' := ApplyCreate(w, c, r);
    if Inserts(w, c, r) {
      assert r.freshId in w'.t.notifications && r.freshId !in w.t.notifications;
      InsertLedger(w, c, r);
    } else {
      assert w'.t == w.t;
    }
  }

  lemma InsertLedger(w: World, c: Id, r: CreateHandler.Reply)
    requires CreateEnabled(w, c, r) && Inserts(w, c, r)
    ensures var w' := ApplyCreate(w, c, r);
            LedgerOf(w') == AfterInsert(LedgerOf(w), c, r.freshId, w'.calls[c].pc)
  {
  }

  function AfterInsert(l: Ledger, c: Id, id: Id, pc: CreateHandler.Pc): Ledger
    requires c in l.calls
  {
    var req := l.calls[c].req;
    l.(ids := l.ids[id := (req.project, req.key)], specs := l.specs[id := req.spec],
       keyIndex := if req.key.Some? then l.keyIndex[(req.project, req.key.value) := id] else l.keyIndex,
       owner := l.owner[id := c], calls := l.calls[c := l.calls[c].(pc := pc)])
  }

  lemma InsertKeepsIndex(l: Ledger, c: Id, id: Id, pc: CreateHandler.Pc)
    requires IndexOk(l) && c in l.calls && id !in l.ids
    requires var req := l.calls[c].req; !(req.key.Some? && (req.project, req.key.value) in l.keyIndex)
    ensures IndexOk(AfterInsert(l, c, id, pc))
  {
  }

  lemma InsertKeepsKeys(l: Ledger, c: Id, id: Id, pc: CreateHandler.Pc)
    requires KeysOk(l) && c in l.calls && l.calls[c].pc.Insert? && id !in l.ids
    requires var req := l.calls[c].req; !(req.key.Some? && (req.project, req.key.value) in l.keyIndex)
    requires pc == CreateHandler.EnqueueFanout(id) || pc == CreateHandler.Done(None)
    ensures KeysOk(AfterInsert(l, c, id, pc))
  {
    InsertKeepsIndex(l, c, id, pc);
    InsertKeepsOwners(l, c, id, pc);
    InsertKeepsCalls(l, c, id, pc);
  }

  lemma InsertKeepsOwners(l: Ledger, c: Id, id: Id, pc: CreateHandler.Pc)
    requires KeysOk(l) && c in l.calls && l.calls[c].pc.Insert? && id !in l.ids
    requires pc == CreateHandler.EnqueueFanout(id) || pc == CreateHandler.Done(None)
    ensures var l' := AfterInsert(l, c, id, pc); forall n :: n in l'.owner ==> OwnerOk(l', n)
  {
    var l' := AfterInsert(l, c, id, pc);
    forall n | n in l'.owner ensures OwnerOk(l', n) { assert n != id ==> OwnerOk(l, n); }
  }

  lemma InsertKeepsCalls(l: Ledger, c: Id, id: Id, pc: CreateHandler.Pc)
    requires KeysOk(l) && c in l.calls && l.calls[c].pc.Insert? && id !in l.ids
    requires pc == CreateHandler.EnqueueFanout(id) || pc == CreateHandler.Done(None)
    ensures var l' := AfterInsert(l, c, id, pc); forall x :: x in l'.calls ==> CallOk(l', x)
  {
    var l' := AfterInsert(l, c, id, pc);
    assert id !in l.fanouts;
    forall x | x in l'.calls ensures CallOk(l', x) { assert CallOk(l, x); }
  }

  function AfterEnqueue(l: Ledger, c: Id, n: Id, pc: CreateHandler.Pc): Ledger
    requires c in l.calls
  {
    l.(fanouts := l.fanouts + multiset{n}, calls := l.calls[c := l.calls[c].(pc := pc)])
  }

  lemma EnqueueKeepsKeys(l: Ledger, c: Id, n: Id, pc: CreateHandler.Pc)
    requires KeysOk(l) && c in l.calls && l.calls[c].pc == CreateHandler.EnqueueFanout(n)
    requires pc == CreateHandler.Done(Some(n)) || pc == CreateHandler.Done(None)
    ensures KeysOk(AfterEnqueue(l, c, n, pc))
  {
    var l' := AfterEnqueue(l, c, n, pc);
    assert CallOk(l, c);
    assert IndexOk(l');
    forall m | m in l'.owner ensures OwnerOk(l', m) { assert OwnerOk(l, m); }
    forall x | x in l'.calls ensures CallOk(l', x) {
      assert CallOk(l, x);
      if x != c && l.calls[x].pc.Done? && l.calls[x].pc.result == Some(n) {
        assert !Owns(l, x, n);
      }
    }
  }

  /** Steps that only move a call's cursor. */
  lemma MoveKeepsKeys(l: Ledger, c: Id, pc: CreateHandler.Pc)
    requires KeysOk(l) && c in l.calls && !l.calls[c].pc.Done?
    requires l.calls[c].pc.EnqueueFanout? ==> pc == CreateHandler.Done(None)
    requires CallOk(l.(calls := l.calls[c := l.calls[c].(pc := pc)]), c)
    ensures KeysOk(l.(calls := l.calls[c := l.calls[c].(pc := pc)]))
  {
    var l' := l.(calls := l.calls[c := l.calls[c].(pc := pc)]);
    assert IndexOk(l');
    forall m | m in l'.owner ensures OwnerOk(l', m) { assert OwnerOk(l, m); }
    forall x | x in l'.calls ensures CallOk(l', x) { assert CallOk(l, x); }
  }

  predicate CreateEnabled(w: World, c: Id, r: CreateHandler.Reply) {
    c in w.calls && CreateHandler.Enabled(CreateView(w, c), r)
  }

  predicate Inserts(w: World, c: Id, r: CreateHandler.Reply)
    requires c in w.calls
  {
    var req := w.calls[c].req;
    && w.calls[c].pc.Insert? && !CreateHandler.NoTargets(req.spec) && !KeyTaken(w.t, req.project, req.key)
    && (r.up || r.applied)
  }

  lemma CreateStepKeys(w: World, c: Id, r: CreateHandler.Reply)
    requires KeysOk(LedgerOf(w)) && CreateEnabled(w, c, r)
    ensures KeysOk(LedgerOf(ApplyCreate(w, c, r)))
  {
    var l, call := LedgerOf(w), w.calls[c];
    var pc := CreateHandler.Step(call.req, CreateView(w, c), r).pc;
    CreateStepLedger(w, c, r);
    if Inserts(w, c, r) {
      InsertKeepsKeys(l, c, r.freshId, pc);
    } else if call.pc.EnqueueFanout? && (r.up || r.applied) {
      EnqueueKeepsKeys(l, c, call.pc.id, pc);
    } else {
      MovedCallOk(w, c, r);
      MoveKeepsKeys(l, c, pc);
    }
  }

  lemma MovedCallOk(w: World, c: Id, r: CreateHandler.Reply)
    requires KeysOk(LedgerOf(w)) && CreateEnabled(w, c, r)
    requires !Inserts(w, c, r) && !(w.calls[c].pc.EnqueueFanout? && (r.up || r.applied))
    ensures var l := LedgerOf(w);
            var pc := CreateHandler.Step(w.calls[c].req, CreateView(w, c), r).pc;
            && CallOk(l.(calls := l.calls[c := l.calls[c].(pc := pc)]), c)
            && (w.calls[c].pc.EnqueueFanout? ==> pc == CreateHandler.Done(None))
  {
    assert CallOk(LedgerOf(w), c);
    if w.calls[c].pc.SelectExisting? { FoundCallOk(w, c, r); }
  }

  lemma FoundCallOk(w: World, c: Id, r: CreateHandler.Reply)
    requires IndexOk(LedgerOf(w)) && CreateEnabled(w, c, r) && w.calls[c].pc.SelectExisting?
    requires w.calls[c].req.key.Some?
    ensures var l := LedgerOf(w);
            var pc := CreateHandler.Step(w.calls[c].req, CreateView(w, c), r).pc;
            pc.Done? && (pc.result.Some? ==> CallMatches(l, c, pc.result.value))
  {
    var l, call := LedgerOf(w), w.calls[c];
    if r.up && KeyTaken(w.t, call.req.project, call.req.key) {
      var n := w.t.keyIndex[(call.req.project, call.req.key.value)];
      assert l.ids[n] == (call.req.project, call.req.key);
    }
  }

  lemma CreateStepStructured(w: World, c: Id, r: CreateHandler.Reply)
    requires Structured(w) && CreateEnabled(w, c, r)
    ensures Structured(ApplyCreate(w, c, r))
  {
    StepCreateSide(w, c, r);
    CreateStepKeys(w, c, r);
    CreateSideKeeps(w, ApplyCreate(w, c, r));
  }

  lemma NewCallKeepsKeys(l: Ledger, c: Id, call: CreateCall)
    requires KeysOk(l) && c !in l.calls && call.pc.Insert?
    ensures KeysOk(l.(calls := l.calls[c := call]))
  {
    var l' := l.(calls := l.calls[c := call]);
    assert IndexOk(l');
    forall n | n in l'.owner ensures OwnerOk(l', n) { assert OwnerOk(l, n); }
    forall x | x in l'.calls ensures CallOk(l', x) { assert x != c ==> CallOk(l, x); }
  }

  lemma CreateBeginStructured(w: World, c: Id, req: CreateHandler.Request)
    requires Structured(w) && c !in w.calls
    ensures Structured(w.(calls := w.calls[c := CreateCall(req, CreateHandler.Insert)]))
  {
    var w' := w.(calls := w.calls[c := CreateCall(req, CreateHandler.Insert)]);
    assert LedgerOf(w') == LedgerOf(w).(calls := w'.calls);
    NewCallKeepsKeys(LedgerOf(w), c, CreateCall(req, CreateHandler.Insert));
    CreateSideKeeps(w, w');
  }

  // ----- steps of fanout runs -----

  predicate FanoutEnabled(w: World, run: Id, r: FanoutHandler.Reply) {
    run in w.fanouts && FanoutHandler.Enabled(w.fanouts[run].project, FanoutView(w, run), r)
  }

  lemma FanoutStepGrows(w: World, run: Id, r: FanoutHandler.Reply)
    requires FanoutEnabled(w, run, r)
    ensures Grows(w, ApplyFanout(w, run, r))
  {
    FanoutHandlerTables(w.fanouts[run].notification, w.fanouts[run].project, FanoutView(w, run), r);
  }

  lemma InsertKeepsRows(t: Tables, id: Id, n: Id, d: Id, provider: Provider)
    requires RowsOk(t) && id !in t.recipients
    requires n in t.notifications && d in t.devices && t.devices[d].project == t.notifications[n].project
    ensures RowsOk(InsertRecipient(t, id, n, d, provider))
  {
  }

  lemma FanoutStepRows(w: World, run: Id, r: FanoutHandler.Reply)
    requires RowsOk(w.t) && FanoutEnabled(w, run, r) && RunOk(w, w.fanouts[run])
    ensures RowsOk(ApplyFanout(w, run, r).t)
  {
    var f, t := w.fanouts[run], w.t;
    if f.pc.Insert? {
      var d := f.pc.devs[f.pc.i];
      InsertKeepsRows(t, r.freshId, f.notification, d.id, d.provider);
    }
  }

  lemma FanoutHandlerNotifications(n: Id, project: Id, s: FanoutHandler.State, r: FanoutHandler.Reply)
    requires FanoutHandler.Enabled(project, s, r)
    ensures var t' := FanoutHandler.Step(n, project, s, r).t;
            && t'.notifications.Keys == s.t.notifications.Keys && t'.keyIndex == s.t.keyIndex
            && t'.devices == s.t.devices
  {
    FanoutHandler.StepTables(n, project, s, r);
    TablesKeepKeys(n, s, r);
  }

  lemma TablesKeepKeys(n: Id, s: FanoutHandler.State, r: FanoutHandler.Reply)
    requires s.pc.Insert? ==> s.pc.i < |s.pc.devs|
    ensures var t' := FanoutHandler.TablesAfter(n, s, r);
            && t'.notifications.Keys == s.t.notifications.Keys && t'.keyIndex == s.t.keyIndex
            && t'.devices == s.t.devices
  {
  }

  lemma FanoutStepLedger(w: World, run: Id, r: FanoutHandler.Reply)
    requires FanoutEnabled(w, run, r)
    ensures LedgerOf(ApplyFanout(w, run, r)) == LedgerOf(w)
  {
    FanoutHandlerTables(w.fanouts[run].notification, w.fanouts[run].project, FanoutView(w, run), r);
    FanoutHandlerNotifications(w.fanouts[run].notification, w.fanouts[run].project, FanoutView(w, run), r);
    SameLedger(w, ApplyFanout(w, run, r));
  }

  lemma SameLedger(w: World, w': World)
    requires TablesGrow(w.t, w'.t) && w'.t.notifications.Keys == w.t.notifications.Keys
    requires w'.t.keyIndex == w.t.keyIndex
    requires w'.h.owner == w.h.owner && w'.h.fanouts == w.h.fanouts && w'.calls == w.calls
    ensures LedgerOf(w') == LedgerOf(w)
  {
  }

  lemma FanoutStepQueue(w: World, run: Id, r: FanoutHandler.Reply)
    requires RowsOk(w.t) && QueueOk(w) && FanoutEnabled(w, run, r) && RunOk(w, w.fanouts[run])
    ensures QueueOk(ApplyFanout(w, run, r))
  {
    FanoutStepGrows(w, run, r);
  }

  lemma InsertKeepsRun(w: World, run: Id, r: FanoutHandler.Reply)
    requires FanoutEnabled(w, run, r) && RunOk(w, w.fanouts[run]) && w.fanouts[run].pc.Insert?
    requires Grows(w, ApplyFanout(w, run, r))
    ensures RunOk(ApplyFanout(w, run, r), ApplyFanout(w, run, r).fanouts[run])
  {
    RunStillOk(w, ApplyFanout(w, run, r), w.fanouts[run]);
  }

  lemma EnqueueKeepsRun(w: World, run: Id, r: FanoutHandler.Reply)
    requires FanoutEnabled(w, run, r) && RunOk(w, w.fanouts[run]) && w.fanouts[run].pc.EnqueueOne?
    requires Grows(w, ApplyFanout(w, run, r))
    ensures RunOk(ApplyFanout(w, run, r), ApplyFanout(w, run, r).fanouts[run])
  {
    RunStillOk(w, ApplyFanout(w, run, r), w.fanouts[run]);
  }

  lemma OtherKeepsRun(w: World, run: Id, r: FanoutHandler.Reply)
    requires FanoutEnabled(w, run, r) && RunOk(w, w.fanouts[run])
    requires !w.fanouts[run].pc.EnqueueOne? && !w.fanouts[run].pc.Insert?
    requires Grows(w, ApplyFanout(w, run, r))
    ensures RunOk(ApplyFanout(w, run, r), ApplyFanout(w, run, r).fanouts[run])
  {
    RunStillOk(w, ApplyFanout(w, run, r), w.fanouts[run]);
  }

  lemma FanoutStepRun(w: World, run: Id, r: FanoutHandler.Reply)
    requires FanoutEnabled(w, run, r) && RunOk(w, w.fanouts[run])
    ensures var w' := ApplyFanout(w, run, r); RunOk(w', w'.fanouts[run])
  {
    FanoutStepGrows(w, run, r);
    match w.fanouts[run].pc
    case Insert(_, _) => InsertKeepsRun(w, run, r);
    case EnqueueOne(_, _, _) => EnqueueKeepsRun(w, run, r);
    case _ => OtherKeepsRun(w, run, r);
  }

  lemma {:induction false} RowIdsCount(devs: seq<DeviceRow>)
    requires forall i, j :: 0 <= i < j < |devs| ==> devs[i].id != devs[j].id
    ensures |RowIds(devs)| == |devs|
  {
    if devs != [] {
      var k := |devs| - 1;
      RowIdsCount(devs[..k]);
      AppendRowId(devs[..k], devs[k]);
      assert devs == devs[..k] + [devs[k]];
      assert devs[k].id !in RowIds(devs[..k]);
    }
  }

  lemma FanoutStepTotals(w: World, run: Id, r: FanoutHandler.Reply)
    requires TotalsOk(w) && FanoutEnabled(w, run, r) && RunOk(w, w.fanouts[run])
    ensures TotalsOk(ApplyFanout(w, run, r))
  {
    var w' := ApplyFanout(w, run, r);
    var f := w.fanouts[run];
    FanoutStepGrows(w, run, r);
    forall n | n in w'.t.notifications ensures TotalBacked(w', n) {
      if f.pc.SetTotals? && n == f.notification && (r.up || r.applied) {
        RowIdsCount(f.pc.devs);
        assert LinkedUpTo(w, n, f.pc.devs, |f.pc.devs|);
        assert Backs(w', n, |f.pc.devs|, RowIds(f.pc.devs));
      } else {
        StillBacked(w, w', n);
      }
    }
    forall p | p in w'.t.pairIndex ensures Fetched(w', p.0, p.1) {
      if p in w.t.pairIndex {
        StillFetched(w, w', p.0, p.1);
      } else {
        AppendRowId(f.pc.devs, f.pc.devs[f.pc.i]);
        assert (p.0, RowIds(f.pc.devs)) in w'.h.fetched;
      }
    }
  }

  lemma FanoutStepStructured(w: World, run: Id, r: FanoutHandler.Reply)
    requires Structured(w) && FanoutEnabled(w, run, r)
    ensures Structured(ApplyFanout(w, run, r))
  {
    var w' := ApplyFanout(w, run, r);
    FanoutStepGrows(w, run, r);
    forall x | x in w'.fanouts ensures RunOk(w', w'.fanouts[x]) {
      if x == run { FanoutStepRun(w, run, r); } else { RunStillOk(w, w', w.fanouts[x]); }
    }
    FanoutStepRows(w, run, r);
    FanoutStepQueue(w, run, r);
    FanoutStepTotals(w, run, r);
    FanoutStepLedger(w, run, r);
  }

  lemma FanoutBeginStructured(w: World, run: Id, n: Id)
    requires Structured(w) && run !in w.fanouts && n in w.t.notifications
    ensures var f := FanoutRun(n, w.t.notifications[n].project, FanoutHandler.GetNotification);
            Structured(w.(fanouts := w.fanouts[run := f]))
  {
    var f := FanoutRun(n, w.t.notifications[n].project, FanoutHandler.GetNotification);
    var w' := w.(fanouts := w.fanouts[run := f]);
    TotalsStillOk(w, w');
    assert LedgerOf(w') == LedgerOf(w);
    forall x | x in w'.fanouts ensures RunOk(w', w'.fanouts[x]) {
      if x != run { RunStillOk(w, w', w.fanouts[x]); }
    }
  }

  // ----- every reachable state -----

  lemma StepStructured(w: World, s: Step)
    requires Structured(w) && Enabled(w, s)
    ensures Structured(Apply(w, s))
  {
    match s
    case CreateBegin(c, req) => CreateBeginStructured(w, c, req);
    case CreateStep(c, r) => CreateStepStructured(w, c, r);
    case FanoutBegin(run, n) => FanoutBeginStructured(w, run, n);
    case FanoutStep(run, r) => FanoutStepStructured(w, run, r);
    case _ => SendSideStructured(w, s);
  }

  lemma {:induction false} RunStructured(w: World, steps: seq<Step>)
    requires Structured(w) && Valid(w, steps)
    ensures Structured(Run(w, steps))
    decreases |steps|
  {
    if steps != [] {
      StepStructured(w, steps[0]);
      RunStructured(Apply(w, steps[0]), steps[1..]);
    }
  }
}
