/** Whatever a recipient row says about its push, some attempt at it was told so. */
module Reasons {
  import opened Prelude
  import opened Store
  import opened TaskQueue
  import opened SendQueue
  import opened Pipeline
  import opened Simulation
  import opened Structure
  import opened Guarantees
  import opened SendHandler
  import L = Lifecycle
  import FanoutHandler

  // ----- one recipient -----

  /** The answer or the missing piece that leads to the code. */
  predicate ReasonFor(code: ErrorCode, pc: Pc, last: bool, e: Environment) {
    match code
    case NoCredential => pc.Credential? && !e.credentialOk
    case CredentialDecryptFailed => pc.Decrypt? && !e.decryptOk
    case UnknownProvider => pc.Adapter? && !e.adapterKnown
    case InvalidToken => pc.Call? && e.result == StatusInvalidToken
    case TransientErrorExhausted =>
      pc.Call? && last && (e.result == StatusTransientError || e.result == StatusUnknown)
  }

  /** The cursor is on its way to writing the code. */
  predicate Carries(code: ErrorCode, pc: Pc) {
    (pc.Fail? && pc.code == code) || (code == InvalidToken && pc.MarkInvalid?)
  }

  predicate Blames(s: L.Slice, code: ErrorCode) {
    s.row.error == Some(code) || exists p :: L.ActiveIn(s, p) && Carries(code, s.tasks[p].state.pc)
  }

  lemma StatementCarries(row: Recipient, last: bool, pc: Pc, e: Environment, code: ErrorCode)
    ensures Carries(code, L.RowStep(row, last, pc, e).1) ==> Carries(code, pc) || ReasonFor(code, pc, last, e)
    ensures L.RowStep(row, last, pc, e).0.error == Some(code) ==> row.error == Some(code) || Carries(code, pc)
  {
  }

  lemma StatementBlames(s: L.Slice, p: Provider, e: Environment, code: ErrorCode)
    requires L.ActiveIn(s, p) && Blames(L.DoStatement(s, p, e), code)
    ensures Blames(s, code) || ReasonFor(code, s.tasks[p].state.pc, LastAttempt(s.tasks[p]), e)
  {
    var s' := L.DoStatement(s, p, e);
    StatementCarries(s.row, LastAttempt(s.tasks[p]), s.tasks[p].state.pc, e, code);
    if s'.row.error != Some(code) {
      var q :| L.ActiveIn(s', q) && Carries(code, s'.tasks[q].state.pc);
      assert q != p ==> L.ActiveIn(s, q) && s.tasks[q] == s'.tasks[q];
    }
  }

  lemma ConcludedMoves(policy: FailurePolicy, s: L.Slice, q: Provider, o: Outcome, p: Provider)
    requires q in s.tasks
    ensures L.Conclude(policy, s, q, o).row == s.row
    ensures L.ActiveIn(L.Conclude(policy, s, q, o), p) ==>
              L.ActiveIn(s, p) && s.tasks[p].state == L.Conclude(policy, s, q, o).tasks[p].state
  {
    var s' := L.Conclude(policy, s, q, o);
    if q in s'.tasks {
      assert s'.tasks == s.tasks[q := s'.tasks[q]] && !s'.tasks[q].state.Active?;
    } else {
      assert s'.tasks == s.tasks - {q};
    }
  }

  /** Moves other than statements leave the row alone, and put no cursor past its fetch. */
  lemma OtherMoves(policy: FailurePolicy, s: L.Slice, m: L.Move, p: Provider)
    requires L.Possible(s, m) && !m.Statement?
    ensures L.Do(policy, s, m).row == s.row
    ensures L.ActiveIn(L.Do(policy, s, m), p) && !L.Do(policy, s, m).tasks[p].state.pc.Fetch? ==>
              L.ActiveIn(s, p) && s.tasks[p].state == L.Do(policy, s, m).tasks[p].state
  {
    match m
    case End(q) => ConcludedMoves(policy, s, q, s.tasks[q].state.pc.outcome, p);
    case Crash(q) => ConcludedMoves(policy, L.CrashMarked(policy, s, q), q, Failure, p);
    case Begin(_) =>
    case Enqueued(_, _) =>
  }

  lemma MoveBlames(policy: FailurePolicy, s: L.Slice, m: L.Move, code: ErrorCode)
    requires L.Possible(s, m) && Blames(L.Do(policy, s, m), code)
    ensures Blames(s, code)
         || (m.Statement? && ReasonFor(code, s.tasks[m.queue].state.pc, LastAttempt(s.tasks[m.queue]), m.env))
  {
    if m.Statement? {
      StatementBlames(s, m.queue, m.env, code);
    } else {
      var s' := L.Do(policy, s, m);
      OtherMoves(policy, s, m, m.queue);
      if s'.row.error != Some(code) {
        var p :| L.ActiveIn(s', p) && Carries(code, s'.tasks[p].state.pc);
        OtherMoves(policy, s, m, p);
        assert L.ActiveIn(s, p);
      }
    }
  }

  /** The row names the provider's message, or a running attempt is about to write it. */
  predicate Confirms(s: L.Slice, id: string) {
    s.row.messageId == Some(id) || exists p :: L.ActiveIn(s, p) && s.tasks[p].state.pc == MarkSent(id)
  }

  lemma StatementConfirms(row: Recipient, last: bool, pc: Pc, e: Environment, id: string)
    ensures L.RowStep(row, last, pc, e).1 == MarkSent(id) ==> pc.Call? && e.result == StatusSent(id)
    ensures L.RowStep(row, last, pc, e).0.messageId == Some(id) ==> row.messageId == Some(id) || pc == MarkSent(id)
    ensures L.RowStep(row, last, pc, e).0.status == Sent ==>
              row.status == Sent || L.RowStep(row, last, pc, e).0.messageId.Some?
    ensures row.messageId.Some? ==> L.RowStep(row, last, pc, e).0.messageId.Some?
  {
  }

  lemma StatementKeepsConfirming(s: L.Slice, p: Provider, e: Environment, id: string)
    requires L.ActiveIn(s, p) && Confirms(L.DoStatement(s, p, e), id)
    ensures Confirms(s, id) || (s.tasks[p].state.pc.Call? && e.result == StatusSent(id))
  {
    var s' := L.DoStatement(s, p, e);
    StatementConfirms(s.row, LastAttempt(s.tasks[p]), s.tasks[p].state.pc, e, id);
    if s'.row.messageId != Some(id) {
      var q :| L.ActiveIn(s', q) && s'.tasks[q].state.pc == MarkSent(id);
      assert q != p ==> L.ActiveIn(s, q) && s.tasks[q] == s'.tasks[q];
    }
  }

  lemma MoveConfirms(policy: FailurePolicy, s: L.Slice, m: L.Move, id: string)
    requires L.Possible(s, m) && Confirms(L.Do(policy, s, m), id)
    ensures Confirms(s, id) || (m.Statement? && s.tasks[m.queue].state.pc.Call? && m.env.result == StatusSent(id))
  {
    if m.Statement? {
      StatementKeepsConfirming(s, m.queue, m.env, id);
    } else {
      var s' := L.Do(policy, s, m);
      OtherMoves(policy, s, m, m.queue);
      if s'.row.messageId != Some(id) {
        var p :| L.ActiveIn(s', p) && s'.tasks[p].state.pc == MarkSent(id);
        OtherMoves(policy, s, m, p);
        assert L.ActiveIn(s, p);
      }
    }
  }

  lemma MoveKeepsId(policy: FailurePolicy, s: L.Slice, m: L.Move)
    requires L.Possible(s, m) && (s.row.status == Sent ==> s.row.messageId.Some?)
    ensures L.Do(policy, s, m).row.status == Sent ==> L.Do(policy, s, m).row.messageId.Some?
  {
    if m.Statement? {
      var task := s.tasks[m.queue];
      StatementConfirms(s.row, LastAttempt(task), task.state.pc, m.env, "");
    }
  }

  // ----- runs -----

  /** In this step an attempt at recipient `r` meets the reason for the code. */
  predicate Gives(w: World, s: Step, r: Id, code: ErrorCode) {
    && s.SendStep? && s.key.recipient == r && ActiveAt(w, s.key)
    && ReasonFor(code, w.q[s.key].state.pc, w.q[s.key].retried >= 5, s.env)
  }

  predicate GivenIn(w: World, steps: seq<Step>, r: Id, code: ErrorCode)
    requires Valid(w, steps)
    decreases steps
  {
    steps != [] && (Gives(w, steps[0], r, code) || GivenIn(Apply(w, steps[0]), steps[1..], r, code))
  }

  /** In this step the provider accepts a push to recipient `r` under the id. */
  predicate Accepts(w: World, s: Step, r: Id, id: string) {
    && s.SendStep? && s.key.recipient == r && ActiveAt(w, s.key)
    && w.q[s.key].state.pc.Call? && s.env.result == StatusSent(id)
  }

  predicate AcceptedIn(w: World, steps: seq<Step>, r: Id, id: string)
    requires Valid(w, steps)
    decreases steps
  {
    steps != [] && (Accepts(w, steps[0], r, id) || AcceptedIn(Apply(w, steps[0]), steps[1..], r, id))
  }

  lemma Born(w: World, s: Step, r: Id)
    requires Sane(w) && Enabled(w, s) && r !in w.t.recipients && r in Apply(w, s).t.recipients
    ensures L.Newborn(SliceOf(Apply(w, s), r)) && Apply(w, s).t.recipients[r].messageId == None
  {
    if s.FanoutStep? {
      BornClean(w, s.run, s.fanoutReply, r);
      BornUnsent(w, s.run, s.fanoutReply, r);
    } else {
      SendBirths(w, s);
    }
  }

  lemma BornUnsent(w: World, run: Id, reply: FanoutHandler.Reply, r: Id)
    requires FanoutEnabled(w, run, reply) && r !in w.t.recipients && r in ApplyFanout(w, run, reply).t.recipients
    ensures ApplyFanout(w, run, reply).t.recipients[r].messageId == None
  {
    FanoutHandler.StepTables(w.fanouts[run].notification, w.fanouts[run].project, FanoutView(w, run), reply);
  }

  lemma StepBlames(w: World, s: Step, r: Id, code: ErrorCode)
    requires Sane(w) && Enabled(w, s) && r in Apply(w, s).t.recipients && Blames(SliceOf(Apply(w, s), r), code)
    ensures (r in w.t.recipients && Blames(SliceOf(w, r), code)) || Gives(w, s, r, code)
  {
    if r in w.t.recipients {
      StructuredKnown(w);
      var m := StepIsMove(w, s, r);
      if m.Some? { MoveBlames(w.policy, SliceOf(w, r), m.value, code); }
    } else {
      Born(w, s, r);
    }
  }

  lemma {:induction false} RunBlames(w: World, steps: seq<Step>, r: Id, code: ErrorCode)
    requires Sane(w) && Valid(w, steps) && r in Run(w, steps).t.recipients && Blames(SliceOf(Run(w, steps), r), code)
    ensures (r in w.t.recipients && Blames(SliceOf(w, r), code)) || GivenIn(w, steps, r, code)
    decreases |steps|
  {
    if steps != [] {
      var w1 := Apply(w, steps[0]);
      StepSane(w, steps[0]);
      RunBlames(w1, steps[1..], r, code);
      if r in w1.t.recipients && Blames(SliceOf(w1, r), code) { StepBlames(w, steps[0], r, code); }
    }
  }

  /**
   A row carries an error code only if an attempt at it met the reason for that very code:
   `invalid_token` the provider's answer, `transient_error_exhausted` a failure on the sixth
   counted run, and the rest what was missing.
   */
  lemma ErrorsHaveReasons(policy: FailurePolicy, steps: seq<Step>, r: Id, code: ErrorCode)
    requires Valid(Start(policy), steps) && r in Run(Start(policy), steps).t.recipients
    requires Run(Start(policy), steps).t.recipients[r].error == Some(code)
    ensures GivenIn(Start(policy), steps, r, code)
  {
    StartSane(policy);
    RunBlames(Start(policy), steps, r, code);
  }

  lemma StepConfirms(w: World, s: Step, r: Id, id: string)
    requires Sane(w) && Enabled(w, s) && r in Apply(w, s).t.recipients && Confirms(SliceOf(Apply(w, s), r), id)
    ensures (r in w.t.recipients && Confirms(SliceOf(w, r), id)) || Accepts(w, s, r, id)
  {
    if r in w.t.recipients {
      StructuredKnown(w);
      var m := StepIsMove(w, s, r);
      if m.Some? { MoveConfirms(w.policy, SliceOf(w, r), m.value, id); }
    } else {
      Born(w, s, r);
    }
  }

  lemma {:induction false} RunConfirms(w: World, steps: seq<Step>, r: Id, id: string)
    requires Sane(w) && Valid(w, steps) && r in Run(w, steps).t.recipients && Confirms(SliceOf(Run(w, steps), r), id)
    ensures (r in w.t.recipients && Confirms(SliceOf(w, r), id)) || AcceptedIn(w, steps, r, id)
    decreases |steps|
  {
    if steps != [] {
      var w1 := Apply(w, steps[0]);
      StepSane(w, steps[0]);
      RunConfirms(w1, steps[1..], r, id);
      if r in w1.t.recipients && Confirms(SliceOf(w1, r), id) { StepConfirms(w, steps[0], r, id); }
    }
  }

  predicate HasId(t: Tables, r: Id)
    requires r in t.recipients
  {
    t.recipients[r].status == Sent ==> t.recipients[r].messageId.Some?
  }

  lemma StepKeepsId(w: World, s: Step, r: Id)
    requires Sane(w) && Enabled(w, s) && r in Apply(w, s).t.recipients && (r in w.t.recipients ==> HasId(w.t, r))
    ensures HasId(Apply(w, s).t, r)
  {
    if r in w.t.recipients {
      StructuredKnown(w);
      var m := StepIsMove(w, s, r);
      if m.Some? { MoveKeepsId(w.policy, SliceOf(w, r), m.value); }
    } else {
      Born(w, s, r);
    }
  }

  lemma {:induction false} RunKeepsId(w: World, steps: seq<Step>, r: Id)
    requires Sane(w) && Valid(w, steps) && r in Run(w, steps).t.recipients && (r in w.t.recipients ==> HasId(w.t, r))
    ensures HasId(Run(w, steps).t, r)
    decreases |steps|
  {
    if steps != [] {
      StepSane(w, steps[0]);
      if r in Apply(w, steps[0]).t.recipients { StepKeepsId(w, steps[0], r); }
      RunKeepsId(Apply(w, steps[0]), steps[1..], r);
    }
  }

  /** A row is `sent` only under a message id that the provider gave when it accepted a push to it. */
  lemma SentMeansAccepted(policy: FailurePolicy, steps: seq<Step>, r: Id)
    requires Valid(Start(policy), steps) && r in Run(Start(policy), steps).t.recipients
    requires Run(Start(policy), steps).t.recipients[r].status == Sent
    ensures var id := Run(Start(policy), steps).t.recipients[r].messageId;
      id.Some? && AcceptedIn(Start(policy), steps, r, id.value)
  {
    StartSane(policy);
    RunKeepsId(Start(policy), steps, r);
    RunConfirms(Start(policy), steps, r, Run(Start(policy), steps).t.recipients[r].messageId.value);
  }

  // ----- a failure that may be retried -----

  lemma CallStep(w: World, k: TaskKey, e: Environment)
    requires ActiveAt(w, k) && w.q[k].state.pc.Call? && w.q[k].retried < 5
    requires e.result == StatusTransientError || e.result == StatusUnknown
    ensures var w' := ApplySend(w, k, e);
      w'.t == w.t && w'.q == w.q[k := w.q[k].(state := TaskState.Active(Returned(Failure)))]
  {
  }

  /**
   A transient answer with a retry left changes no row and no device; the queue puts the task back
   with one retry more.
   */
  lemma TransientIsRetried(w: World, k: TaskKey, e: Environment)
    requires ActiveAt(w, k) && w.q[k].state.pc.Call? && w.q[k].retried < 5
    requires e.result == StatusTransientError || e.result == StatusUnknown
    ensures Valid(w, [SendStep(k, e), SendEnd(k)])
    ensures var w' := Run(w, [SendStep(k, e), SendEnd(k)]);
      w'.t == w.t && w'.q == w.q[k := w.q[k].(state := Waiting, retried := w.q[k].retried + 1)]
  {
    var steps := [SendStep(k, e), SendEnd(k)];
    var w1 := Apply(w, SendStep(k, e));
    CallStep(w, k, e);
    assert steps[1..] == [SendEnd(k)];
    var w2 := Apply(w1, SendEnd(k));
    assert Run(w1, steps[1..]) == w2;
    var task := w.q[k].(state := Waiting, retried := w.q[k].retried + 1);
    assert w2.q == w1.q[k := task];
  }
}
