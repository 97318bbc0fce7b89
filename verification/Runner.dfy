/**
 The load tester's bounded runner and what it collects (cmd/server/loadtest.go): runConcurrent,
 latencyResult.record and registerDevices, with every interleaving of the spawning loop and the
 goroutines it starts.
 */
module Runner {
  import opened Prelude

  // ----- latencyResult -----

  const MAX_SAMPLES: nat := 5

  /** One call of record: how long it took, and its error if it failed. */
  datatype Record = Record(latency: int, error: Option<string>)

  datatype Tally = Tally(latencies: seq<int>, errors: nat, sampleErrs: seq<string>)

  function Latencies(records: seq<Record>): seq<int> {
    if records == [] then []
    else
      var last := records[|records| - 1];
      Latencies(records[..|records| - 1]) + (if last.error.None? then [last.latency] else [])
  }

  function Errors(records: seq<Record>): seq<string> {
    if records == [] then []
    else
      var last := records[|records| - 1];
      Errors(records[..|records| - 1]) + (if last.error.Some? then [last.error.value] else [])
  }

  function FirstFew(errors: seq<string>): seq<string> {
    if |errors| <= MAX_SAMPLES then errors else errors[..MAX_SAMPLES]
  }

  /** What the accumulator must hold after these calls, in the order they took the lock. */
  function TallyOf(records: seq<Record>): Tally {
    Tally(Latencies(records), |Errors(records)|, FirstFew(Errors(records)))
  }

  class LatencyResult {
    var latencies: seq<int>
    var errors: nat
    var sampleErrs: seq<string>

    function View(): Tally
      reads this
    {
      Tally(latencies, errors, sampleErrs)
    }

    constructor ()
      ensures View() == TallyOf([])
    {
      latencies, errors, sampleErrs := [], 0, [];
    }

    method Add(r: Record, ghost earlier: seq<Record>)
      requires View() == TallyOf(earlier)
      modifies this
      ensures View() == TallyOf(earlier + [r])
      ensures r.error.None? ==>
                latencies == old(latencies) + [r.latency] && errors == old(errors) && sampleErrs == old(sampleErrs)
      ensures r.error.Some? ==>
                && latencies == old(latencies) && errors == old(errors) + 1
                && sampleErrs == if old(errors) < 5 then old(sampleErrs) + [r.error.value] else old(sampleErrs)
    {
      assert (earlier + [r])[..|earlier|] == earlier;
      if r.error.Some? {
        errors := errors + 1;
        if |sampleErrs| < 5 {
          sampleErrs := sampleErrs + [r.error.value];
        }
        return;
      }
      latencies := latencies + [r.latency];
    }
  }

  lemma {:induction false} EveryCallIsCounted(records: seq<Record>)
    ensures |Latencies(records)| + |Errors(records)| == |records|
  {
    if records != [] {
      EveryCallIsCounted(records[..|records| - 1]);
    }
  }

  /** The errors are those of the calls that failed, in their order. */
  lemma {:induction false} ErrorsAreInOrder(a: seq<Record>, b: seq<Record>)
    ensures Errors(a + b) == Errors(a) + Errors(b)
    ensures Latencies(a + b) == Latencies(a) + Latencies(b)
  {
    if b == [] {
      assert a + b == a;
    } else {
      var init := b[..|b| - 1];
      assert (a + b)[..|a + b| - 1] == a + init;
      ErrorsAreInOrder(a, init);
    }
  }

  // ----- runConcurrent, running registerDevices' function -----

  datatype Main = Loop(i: nat) | Acquiring(i: nat) | Spawning(i: nat) | Returned(i: nat)

  /** fn runs from Running to Recorded; then the semaphore is released, then the wait group. */
  datatype Worker = Started | Running | Recorded(id: string) | Ran | Released | Finished

  datatype Reply = Id(id: string) | Failed(error: string)

  /**
   `sem` and `wg` are the semaphore's and the wait group's counts. History: the calls of fn, the
   record calls in lock order, the replies by index, and the index each id came from.
   */
  datatype State = State(
    main: Main, workers: map<nat, Worker>, sem: nat, wg: nat, ids: seq<string>,
    calls: multiset<nat>, records: seq<Record>, replies: map<nat, Reply>, from: seq<nat>)

  const START: State := State(Loop(0), map[], 0, 0, [], multiset{}, [], map[], [])

  datatype Step =
    | AddOne | Acquire | Go | Return
    | Call(k: nat) | RecordReply(k: nat, latency: int, reply: Reply) | Append(k: nat) | Release(k: nat) | Done(k: nat)

  predicate At(s: State, k: nat, stage: nat) {
    k in s.workers && Stage(s.workers[k]) == stage
  }

  /** A send on the semaphore blocks while it is full. */
  predicate Enabled(n: int, concurrency: nat, s: State, step: Step) {
    match step
    case AddOne => s.main.Loop? && s.main.i < n
    case Acquire => s.main.Acquiring? && s.sem < concurrency
    case Go => s.main.Spawning?
    case Return => s.main.Loop? && s.main.i >= n && s.wg == 0
    case Call(k) => At(s, k, 0)
    case RecordReply(k, _, _) => At(s, k, 1)
    case Append(k) => At(s, k, 2)
    case Release(k) => At(s, k, 3) && s.sem > 0
    case Done(k) => At(s, k, 4) && s.wg > 0
  }

  function Move(s: State, k: nat, w: Worker): State {
    s.(workers := s.workers[k := w])
  }

  function Apply(n: int, concurrency: nat, s: State, step: Step): State
    requires Enabled(n, concurrency, s, step)
  {
    match step
    case AddOne => s.(main := Acquiring(s.main.i), wg := s.wg + 1)
    case Acquire => s.(main := Spawning(s.main.i), sem := s.sem + 1)
    case Go => Move(s.(main := Loop(s.main.i + 1)), s.main.i, Started)
    case Return => s.(main := Returned(s.main.i))
    case Call(k) => Move(s.(calls := s.calls + multiset{k}), k, Running)
    case RecordReply(k, latency, reply) =>
      var error := if reply.Failed? then Some(reply.error) else None;
      Move(s.(records := s.records + [Record(latency, error)], replies := s.replies[k := reply]),
           k, if reply.Id? then Recorded(reply.id) else Ran)
    case Append(k) => Move(s.(ids := s.ids + [s.workers[k].id], from := s.from + [k]), k, Ran)
    case Release(k) => Move(s.(sem := s.sem - 1), k, Released)
    case Done(k) => Move(s.(wg := s.wg - 1), k, Finished)
  }

  predicate Valid(n: int, concurrency: nat, s: State, steps: seq<Step>)
    decreases steps
  {
    || steps == []
    || (Enabled(n, concurrency, s, steps[0]) && Valid(n, concurrency, Apply(n, concurrency, s, steps[0]), steps[1..]))
  }

  function Run(n: int, concurrency: nat, s: State, steps: seq<Step>): State
    requires Valid(n, concurrency, s, steps)
    decreases steps
  {
    if steps == [] then s else Run(n, concurrency, Apply(n, concurrency, s, steps[0]), steps[1..])
  }

  // ----- how far the goroutines are -----

  function Stage(w: Worker): nat {
    match w
    case Started => 0
    case Running => 1
    case Recorded(_) => 2
    case Ran => 3
    case Released => 4
    case Finished => 5
  }

  function Past(workers: map<nat, Worker>, stage: nat): set<nat> {
    set k | k in workers && Stage(workers[k]) >= stage
  }

  function InFlight(s: State): set<nat> {
    set k | k in s.workers && 1 <= Stage(s.workers[k]) <= 2
  }

  function Below(i: nat): (below: set<nat>)
    ensures forall k: nat :: k in below <==> k < i
    ensures |below| == i
  {
    if i == 0 then {} else Below(i - 1) + {i - 1}
  }

  lemma Smaller<T>(a: set<T>, b: set<T>)
    requires a <= b
    ensures |a| <= |b| && |b - a| == |b| - |a|
  {
    assert b == a + (b - a);
  }

  lemma PastSmaller(workers: map<nat, Worker>, low: nat, high: nat)
    requires low <= high
    ensures |Past(workers, high)| <= |Past(workers, low)|
  {
    Smaller(Past(workers, high), Past(workers, low));
  }

  /** Moving one goroutine forward adds it to exactly the stages it passes. */
  lemma Advance(workers: map<nat, Worker>, k: nat, w: Worker, stage: nat)
    requires k in workers ==> Stage(workers[k]) < Stage(w)
    ensures var passed := (k in workers ==> Stage(workers[k]) < stage) && stage <= Stage(w);
      |Past(workers[k := w], stage)| == |Past(workers, stage)| + (if passed then 1 else 0)
  {
    if (k in workers ==> Stage(workers[k]) < stage) && stage <= Stage(w) {
      assert Past(workers[k := w], stage) == Past(workers, stage) + {k};
    } else {
      assert Past(workers[k := w], stage) == Past(workers, stage);
    }
  }

  function Count(s: State, stage: nat): nat {
    |Past(s.workers, stage)|
  }

  // ----- the counts -----

  predicate Counted(n: int, concurrency: nat, s: State) {
    && s.workers.Keys == Below(s.main.i)
    && (s.main.Acquiring? || s.main.Spawning? ==> s.main.i < n)
    && (s.main.i > 0 ==> s.main.i <= n)
    && s.sem + Count(s, 4) == s.main.i + (if s.main.Spawning? then 1 else 0)
    && s.wg + Count(s, 5) == s.main.i + (if s.main.Acquiring? || s.main.Spawning? then 1 else 0)
    && s.sem <= concurrency
    && (s.main.Returned? ==> s.main.i >= n && s.wg == 0)
  }

  lemma GoCounted(n: int, concurrency: nat, s: State)
    requires Counted(n, concurrency, s) && s.main.Spawning?
    ensures Counted(n, concurrency, Move(s.(main := Loop(s.main.i + 1)), s.main.i, Started))
  {
    Advance(s.workers, s.main.i, Started, 4);
    Advance(s.workers, s.main.i, Started, 5);
    assert (s.workers[s.main.i := Started]).Keys == Below(s.main.i) + {s.main.i};
    assert Below(s.main.i) + {s.main.i} == Below(s.main.i + 1);
  }

  /** A goroutine moving on; it gives back its slot on passing Ran, and its wait on passing Released. */
  lemma MoveCounted(n: int, concurrency: nat, s: State, k: nat, w: Worker, t: State)
    requires Counted(n, concurrency, s) && k in s.workers && Stage(s.workers[k]) < Stage(w)
    requires t.main == s.main && t.workers == s.workers[k := w]
    requires t.sem == s.sem - (if Stage(s.workers[k]) < 4 <= Stage(w) then 1 else 0)
    requires t.wg == s.wg - (if Stage(s.workers[k]) < 5 <= Stage(w) then 1 else 0)
    ensures Counted(n, concurrency, t)
  {
    Advance(s.workers, k, w, 4);
    Advance(s.workers, k, w, 5);
    assert t.workers.Keys == s.workers.Keys;
  }

  lemma StepCounted(n: int, concurrency: nat, s: State, step: Step)
    requires Counted(n, concurrency, s) && Enabled(n, concurrency, s, step)
    ensures Counted(n, concurrency, Apply(n, concurrency, s, step))
  {
    var t := Apply(n, concurrency, s, step);
    match step
    case AddOne | Acquire | Return =>
    case Go => GoCounted(n, concurrency, s);
    case _ => MoveCounted(n, concurrency, s, step.k, t.workers[step.k], t);
  }

  lemma PastAll(s: State, i: nat)
    requires s.workers.Keys == Below(i)
    ensures Count(s, 0) == i
  {
    assert Past(s.workers, 0) == Below(i);
  }

  lemma FlightWithinSemaphore(n: int, concurrency: nat, s: State)
    requires Counted(n, concurrency, s)
    ensures |InFlight(s)| <= s.sem <= concurrency
  {
    PastAll(s, s.main.i);
    PastSmaller(s.workers, 0, 1);
    PastSmaller(s.workers, 3, 4);
    Smaller(Past(s.workers, 3), Past(s.workers, 1));
    assert InFlight(s) == Past(s.workers, 1) - Past(s.workers, 3);
  }

  // ----- the records -----

  predicate Distinct<T(==)>(s: seq<T>) {
    forall a, b :: 0 <= a < b < |s| ==> s[a] != s[b]
  }

  ghost predicate CalledOnce(calls: multiset<nat>, workers: map<nat, Worker>) {
    forall k: nat :: calls[k] == if k in workers && Stage(workers[k]) >= 1 then 1 else 0
  }

  ghost predicate Replied(replies: map<nat, Reply>, workers: map<nat, Worker>) {
    && (forall k :: k in replies <==> k in workers && Stage(workers[k]) >= 2)
    && (forall k :: k in workers && workers[k].Recorded? ==> replies[k] == Id(workers[k].id))
  }

  ghost predicate Enumerated(s: State) {
    && Distinct(s.from)
    && |s.ids| == |s.from|
    && (forall j :: 0 <= j < |s.from| ==> s.from[j] in s.replies && s.replies[s.from[j]] == Id(s.ids[j]))
    && (forall k :: k in s.from <==> k in s.replies && s.replies[k].Id? && !At(s, k, 2))
  }

  predicate Tallied(s: State) {
    && Oks(s.replies) !! Bads(s.replies)
    && |Latencies(s.records)| == |Oks(s.replies)|
    && |Errors(s.records)| == |Bads(s.replies)|
  }

  function Oks(replies: map<nat, Reply>): set<nat> {
    set k | k in replies && replies[k].Id?
  }

  function Bads(replies: map<nat, Reply>): set<nat> {
    set k | k in replies && replies[k].Failed?
  }

  lemma MoveCalledOnce(calls: multiset<nat>, workers: map<nat, Worker>, k: nat, w: Worker)
    requires CalledOnce(calls, workers)
    requires if k in workers then 1 <= Stage(workers[k]) <= Stage(w) else w.Started?
    ensures CalledOnce(calls, workers[k := w])
  {
  }

  lemma StepCalledOnce(n: int, concurrency: nat, s: State, step: Step)
    requires step.Go? ==> s.main.i !in s.workers
    requires CalledOnce(s.calls, s.workers) && Enabled(n, concurrency, s, step)
    ensures var t := Apply(n, concurrency, s, step);
      CalledOnce(t.calls, t.workers)
  {
    var t := Apply(n, concurrency, s, step);
    match step
    case AddOne | Acquire | Return =>
    case Go => MoveCalledOnce(s.calls, s.workers, s.main.i, Started);
    case Call(k) => assert t.calls == s.calls + multiset{k};
    case _ => MoveCalledOnce(s.calls, s.workers, step.k, t.workers[step.k]);
  }

  lemma MoveReplied(replies: map<nat, Reply>, workers: map<nat, Worker>, k: nat, w: Worker)
    requires Replied(replies, workers) && !w.Recorded?
    requires (Stage(w) >= 2) == (k in workers && Stage(workers[k]) >= 2)
    ensures Replied(replies, workers[k := w])
  {
  }

  lemma RecordReplied(replies: map<nat, Reply>, workers: map<nat, Worker>, k: nat, reply: Reply)
    requires Replied(replies, workers) && k in workers
    ensures Replied(replies[k := reply], workers[k := if reply.Id? then Recorded(reply.id) else Ran])
  {
  }

  lemma StepReplied(n: int, concurrency: nat, s: State, step: Step)
    requires step.Go? ==> s.main.i !in s.workers
    requires Replied(s.replies, s.workers) && Enabled(n, concurrency, s, step)
    ensures var t := Apply(n, concurrency, s, step);
      Replied(t.replies, t.workers)
  {
    match step
    case AddOne | Acquire | Return =>
    case Go => MoveReplied(s.replies, s.workers, s.main.i, Started);
    case Call(k) => MoveReplied(s.replies, s.workers, k, Running);
    case RecordReply(k, _, reply) => RecordReplied(s.replies, s.workers, k, reply);
    case Append(k) => MoveReplied(s.replies, s.workers, k, Ran);
    case Release(k) => MoveReplied(s.replies, s.workers, k, Released);
    case Done(k) => MoveReplied(s.replies, s.workers, k, Finished);
  }

  lemma RecordEnumerated(s: State, k: nat, reply: Reply, t: State)
    requires Replied(s.replies, s.workers) && Enumerated(s) && At(s, k, 1)
    requires t.ids == s.ids && t.from == s.from && t.replies == s.replies[k := reply]
    requires t.workers == s.workers[k := if reply.Id? then Recorded(reply.id) else Ran]
    ensures Enumerated(t)
  {
    assert k !in s.replies;
  }

  lemma AppendEnumerated(s: State, k: nat, t: State)
    requires Replied(s.replies, s.workers) && Enumerated(s) && At(s, k, 2)
    requires t.replies == s.replies && t.workers == s.workers[k := Ran]
    requires t.ids == s.ids + [s.workers[k].id] && t.from == s.from + [k]
    ensures Enumerated(t)
  {
    assert k !in s.from;
    assert forall x :: x in t.from <==> x == k || x in s.from;
  }

  lemma OtherEnumerated(s: State, t: State)
    requires Enumerated(s) && t.replies == s.replies && t.ids == s.ids && t.from == s.from
    requires forall k :: k in s.replies ==> (At(t, k, 2) == At(s, k, 2))
    ensures Enumerated(t)
  {
  }

  lemma StepEnumerated(n: int, concurrency: nat, s: State, step: Step)
    requires step.Go? ==> s.main.i !in s.workers
    requires Replied(s.replies, s.workers) && Enumerated(s) && Enabled(n, concurrency, s, step)
    ensures Enumerated(Apply(n, concurrency, s, step))
  {
    var t := Apply(n, concurrency, s, step);
    match step
    case RecordReply(k, _, reply) => RecordEnumerated(s, k, reply, t);
    case Append(k) => AppendEnumerated(s, k, t);
    case _ => OtherEnumerated(s, t);
  }

  lemma RecordsGrow(records: seq<Record>, record: Record)
    ensures Latencies(records + [record]) == Latencies(records) + (if record.error.None? then [record.latency] else [])
    ensures Errors(records + [record]) == Errors(records) + (if record.error.Some? then [record.error.value] else [])
  {
    assert (records + [record])[..|records|] == records;
  }

  lemma RepliesGrow(replies: map<nat, Reply>, k: nat, reply: Reply)
    requires k !in replies
    ensures Oks(replies[k := reply]) == if reply.Id? then Oks(replies) + {k} else Oks(replies)
    ensures Bads(replies[k := reply]) == if reply.Failed? then Bads(replies) + {k} else Bads(replies)
  {
  }

  lemma RecordTallied(s: State, k: nat, record: Record, reply: Reply, t: State)
    requires Tallied(s) && k !in s.replies && (reply.Failed? <==> record.error.Some?)
    requires t.records == s.records + [record] && t.replies == s.replies[k := reply]
    ensures Tallied(t)
  {
    RecordsGrow(s.records, record);
    RepliesGrow(s.replies, k, reply);
  }

  lemma StepTallied(n: int, concurrency: nat, s: State, step: Step)
    requires Replied(s.replies, s.workers) && Tallied(s) && Enabled(n, concurrency, s, step)
    ensures Tallied(Apply(n, concurrency, s, step))
  {
    if step.RecordReply? {
      var t := Apply(n, concurrency, s, step);
      RecordTallied(s, step.k, t.records[|s.records|], step.reply, t);
    }
  }

  ghost predicate Good(n: int, concurrency: nat, s: State) {
    && Counted(n, concurrency, s) && CalledOnce(s.calls, s.workers) && Replied(s.replies, s.workers)
    && Enumerated(s) && Tallied(s)
  }

  lemma StepGood(n: int, concurrency: nat, s: State, step: Step)
    requires Good(n, concurrency, s) && Enabled(n, concurrency, s, step)
    ensures Good(n, concurrency, Apply(n, concurrency, s, step))
  {
    StepCounted(n, concurrency, s, step);
    StepCalledOnce(n, concurrency, s, step);
    StepReplied(n, concurrency, s, step);
    StepEnumerated(n, concurrency, s, step);
    StepTallied(n, concurrency, s, step);
  }

  lemma {:induction false} RunGood(n: int, concurrency: nat, s: State, steps: seq<Step>)
    requires Valid(n, concurrency, s, steps) && Good(n, concurrency, s)
    ensures Good(n, concurrency, Run(n, concurrency, s, steps))
    decreases steps
  {
    if steps != [] {
      StepGood(n, concurrency, s, steps[0]);
      RunGood(n, concurrency, Apply(n, concurrency, s, steps[0]), steps[1..]);
    }
  }

  lemma StartGood(n: int, concurrency: nat)
    ensures Good(n, concurrency, START)
  {
    assert Past(START.workers, 4) == {} && Past(START.workers, 5) == {};
    assert Oks(START.replies) == {} && Bads(START.replies) == {};
  }

  lemma {:induction false} DistinctSize<T>(s: seq<T>, elements: set<T>)
    requires Distinct(s) && forall x :: x in s <==> x in elements
    ensures |s| == |elements|
  {
    if s == [] {
      assert elements == {};
    } else {
      var rest := s[1..];
      assert forall x :: x in s <==> x == s[0] || x in rest;
      DistinctSize(rest, elements - {s[0]});
    }
  }

  // ----- how long it takes -----

  function MainProgress(m: Main): nat {
    match m
    case Loop(i) => 3 * i
    case Acquiring(i) => 3 * i + 1
    case Spawning(i) => 3 * i + 2
    case Returned(i) => 3 * i + 1
  }

  function Progress(s: State): nat {
    MainProgress(s.main) + Passed(s.workers)
  }

  function Passed(workers: map<nat, Worker>): nat {
    |Past(workers, 1)| + |Past(workers, 2)| + |Past(workers, 3)| + |Past(workers, 4)| + |Past(workers, 5)|
  }

  lemma AdvanceAll(workers: map<nat, Worker>, k: nat, w: Worker)
    requires k in workers ==> Stage(workers[k]) < Stage(w)
    ensures Passed(workers[k := w]) >= Passed(workers)
    ensures k in workers ==> Passed(workers[k := w]) > Passed(workers)
  {
    Advance(workers, k, w, 1);
    Advance(workers, k, w, 2);
    Advance(workers, k, w, 3);
    Advance(workers, k, w, 4);
    Advance(workers, k, w, 5);
  }

  lemma MoveProgresses(s: State, k: nat, w: Worker, t: State)
    requires k in s.workers && Stage(s.workers[k]) < Stage(w) && t.main == s.main && t.workers == s.workers[k := w]
    ensures Progress(t) > Progress(s)
  {
    AdvanceAll(s.workers, k, w);
  }

  predicate OfWorker(step: Step) {
    step.Call? || step.RecordReply? || step.Append? || step.Release? || step.Done?
  }

  lemma StepMovesWorker(n: int, concurrency: nat, s: State, step: Step)
    requires Enabled(n, concurrency, s, step) && OfWorker(step)
    ensures var t := Apply(n, concurrency, s, step);
      && step.k in s.workers && step.k in t.workers && t.main == s.main
      && t.workers == s.workers[step.k := t.workers[step.k]] && Stage(s.workers[step.k]) < Stage(t.workers[step.k])
  {
  }

  lemma MainProgresses(n: int, concurrency: nat, s: State, step: Step)
    requires Counted(n, concurrency, s) && Enabled(n, concurrency, s, step) && !OfWorker(step)
    ensures Progress(Apply(n, concurrency, s, step)) > Progress(s)
  {
    if step.Go? {
      AdvanceAll(s.workers, s.main.i, Started);
    } else {
      assert Apply(n, concurrency, s, step).workers == s.workers;
    }
  }

  lemma StepProgresses(n: int, concurrency: nat, s: State, step: Step)
    requires Counted(n, concurrency, s) && Enabled(n, concurrency, s, step)
    ensures Progress(Apply(n, concurrency, s, step)) > Progress(s)
  {
    if OfWorker(step) {
      StepMovesWorker(n, concurrency, s, step);
      var t := Apply(n, concurrency, s, step);
      MoveProgresses(s, step.k, t.workers[step.k], t);
    } else {
      MainProgresses(n, concurrency, s, step);
    }
  }

  lemma ProgressBound(n: nat, concurrency: nat, s: State)
    requires Counted(n, concurrency, s)
    ensures Progress(s) <= 8 * n + 1
  {
    PastAll(s, s.main.i);
    PastSmaller(s.workers, 0, 1);
    PastSmaller(s.workers, 0, 2);
    PastSmaller(s.workers, 0, 3);
    PastSmaller(s.workers, 0, 4);
    PastSmaller(s.workers, 0, 5);
  }

  lemma {:induction false} RunProgresses(n: int, concurrency: nat, s: State, steps: seq<Step>)
    requires Valid(n, concurrency, s, steps) && Counted(n, concurrency, s)
    ensures |steps| + Progress(s) <= Progress(Run(n, concurrency, s, steps))
    ensures Counted(n, concurrency, Run(n, concurrency, s, steps))
    decreases steps
  {
    if steps != [] {
      StepCounted(n, concurrency, s, steps[0]);
      StepProgresses(n, concurrency, s, steps[0]);
      RunProgresses(n, concurrency, Apply(n, concurrency, s, steps[0]), steps[1..]);
    }
  }

  lemma UnpassedCount(s: State, k: nat, stage: nat)
    requires k in s.workers && Stage(s.workers[k]) < stage && s.workers.Keys == Below(s.main.i)
    ensures Count(s, stage) < s.main.i
  {
    PastAll(s, s.main.i);
    assert k in Past(s.workers, 0) && k !in Past(s.workers, stage);
    Smaller(Past(s.workers, stage) + {k}, Past(s.workers, 0));
  }

  predicate CanStep(n: int, concurrency: nat, s: State, step: Step) {
    Enabled(n, concurrency, s, step)
  }

  lemma WorkerCanStep(n: int, concurrency: nat, s: State, k: nat)
    requires Counted(n, concurrency, s) && k in s.workers && !s.workers[k].Finished?
    ensures exists step :: CanStep(n, concurrency, s, step)
  {
    UnpassedCount(s, k, 5);
    match s.workers[k]
    case Started => assert CanStep(n, concurrency, s, Call(k));
    case Running => assert CanStep(n, concurrency, s, RecordReply(k, 0, Failed("")));
    case Recorded(_) => assert CanStep(n, concurrency, s, Append(k));
    case Ran =>
      UnpassedCount(s, k, 4);
      assert CanStep(n, concurrency, s, Release(k));
    case Released => assert CanStep(n, concurrency, s, Done(k));
  }

  lemma MainCanStep(n: int, concurrency: nat, s: State)
    requires Counted(n, concurrency, s) && concurrency >= 1 && !s.main.Returned?
    requires forall k :: k in s.workers ==> s.workers[k].Finished?
    ensures exists step :: CanStep(n, concurrency, s, step)
  {
    PastAll(s, s.main.i);
    assert Past(s.workers, 4) == Past(s.workers, 0) && Past(s.workers, 5) == Past(s.workers, 0);
    match s.main
    case Loop(i) => assert CanStep(n, concurrency, s, if i < n then AddOne else Return);
    case Acquiring(_) => assert CanStep(n, concurrency, s, Acquire);
    case Spawning(_) => assert CanStep(n, concurrency, s, Go);
  }

  /** Unless it has returned, a runner with room for one goroutine can always take a step. */
  lemma NeverStuck(n: int, concurrency: nat, s: State)
    requires Counted(n, concurrency, s) && concurrency >= 1 && !s.main.Returned?
    ensures exists step :: CanStep(n, concurrency, s, step)
  {
    if k :| k in s.workers && !s.workers[k].Finished? {
      WorkerCanStep(n, concurrency, s, k);
    } else {
      MainCanStep(n, concurrency, s);
    }
  }

  // ----- what holds of every run -----

  /**
   However the goroutines interleave: never more than `concurrency` calls of fn are under way,
   none is made twice, and a run ends within 8n + 1 steps, stopping nowhere but at its return.
   */
  lemma BoundedAndTerminating(n: nat, concurrency: nat, steps: seq<Step>)
    requires Valid(n, concurrency, START, steps)
    ensures var s := Run(n, concurrency, START, steps);
      && |InFlight(s)| <= concurrency
      && (forall k: nat :: s.calls[k] <= 1)
      && |steps| <= 8 * n + 1
      && (concurrency >= 1 && !s.main.Returned? ==> exists step :: CanStep(n, concurrency, s, step))
  {
    StartGood(n, concurrency);
    RunGood(n, concurrency, START, steps);
    RunProgresses(n, concurrency, START, steps);
    var s := Run(n, concurrency, START, steps);
    ProgressBound(n, concurrency, s);
    FlightWithinSemaphore(n, concurrency, s);
    if concurrency >= 1 && !s.main.Returned? {
      NeverStuck(n, concurrency, s);
    }
  }

  /** Without room for one goroutine, a runner with anything to run never returns. */
  lemma NoRoomNeverReturns(n: nat, steps: seq<Step>)
    requires Valid(n, 0, START, steps)
    ensures Run(n, 0, START, steps).main.Returned? ==> n == 0
  {
    StartGood(n, 0);
    RunGood(n, 0, START, steps);
    var s := Run(n, 0, START, steps);
    PastAll(s, s.main.i);
    FirstStays(n, START, steps);
  }

  lemma {:induction false} FirstStays(n: nat, s: State, steps: seq<Step>)
    requires Valid(n, 0, s, steps) && s.main.i == 0 && s.workers == map[]
    requires !s.main.Spawning?
    ensures Run(n, 0, s, steps).main.i == 0
    decreases steps
  {
    if steps != [] {
      FirstStays(n, Apply(n, 0, s, steps[0]), steps[1..]);
    }
  }

  lemma AllFinished(n: nat, concurrency: nat, s: State)
    requires Counted(n, concurrency, s) && s.main.Returned?
    ensures s.main.i == n && s.workers.Keys == Below(n)
    ensures forall k :: k in s.workers ==> s.workers[k].Finished?
  {
    PastAll(s, n);
    forall k | k in s.workers ensures s.workers[k].Finished? {
      if !s.workers[k].Finished? {
        UnpassedCount(s, k, 5);
      }
    }
  }

  ghost predicate CalledExactly(n: nat, s: State) {
    forall k: nat :: s.calls[k] == if k < n then 1 else 0
  }

  lemma AllCalled(n: nat, concurrency: nat, s: State)
    requires Counted(n, concurrency, s) && CalledOnce(s.calls, s.workers) && s.main.Returned?
    ensures CalledExactly(n, s)
  {
    AllFinished(n, concurrency, s);
    forall k: nat ensures s.calls[k] == if k < n then 1 else 0 {
      assert k in s.workers <==> k in Below(n);
    }
  }

  /** runConcurrent returns only after fn was called exactly once for each index below n. */
  lemma EachIndexOnce(n: nat, concurrency: nat, steps: seq<Step>)
    requires Valid(n, concurrency, START, steps) && Run(n, concurrency, START, steps).main.Returned?
    ensures CalledExactly(n, Run(n, concurrency, START, steps))
  {
    StartGood(n, concurrency);
    RunGood(n, concurrency, START, steps);
    AllCalled(n, concurrency, Run(n, concurrency, START, steps));
  }

  /** Every index has one reply, and the ids are those of the successful ones, once each. */
  ghost predicate IdsAreSuccesses(n: nat, s: State) {
    && s.replies.Keys == Below(n)
    && |s.ids| == |s.from| && Distinct(s.from)
    && (forall k :: k in s.from <==> k in s.replies && s.replies[k].Id?)
    && (forall j :: 0 <= j < |s.ids| ==> s.from[j] in s.replies && s.replies[s.from[j]] == Id(s.ids[j]))
  }

  lemma AllCollected(n: nat, concurrency: nat, s: State)
    requires Counted(n, concurrency, s) && Replied(s.replies, s.workers) && Enumerated(s) && s.main.Returned?
    ensures IdsAreSuccesses(n, s)
  {
    AllFinished(n, concurrency, s);
    assert forall k: nat :: k in s.replies <==> k in s.workers;
    assert s.replies.Keys == Below(n);
  }

  /** `ids` and what record accumulated account for all n replies. */
  predicate EverythingCounted(n: nat, s: State) {
    var tally := TallyOf(s.records);
    && |s.records| == n
    && |s.ids| == |tally.latencies|
    && |s.ids| + tally.errors == n
    && |tally.sampleErrs| == (if tally.errors <= 5 then tally.errors else 5)
    && tally.sampleErrs <= Errors(s.records)
  }

  lemma AddsUp(n: nat, s: State)
    requires IdsAreSuccesses(n, s) && Tallied(s)
    ensures |s.ids| == |TallyOf(s.records).latencies|
    ensures |s.ids| + TallyOf(s.records).errors == n
  {
    DistinctSize(s.from, Oks(s.replies));
    assert Oks(s.replies) + Bads(s.replies) == Below(n);
  }

  /**
   registerDevices ends with each successful registration's id exactly once, with ids and errors
   adding up to n, and with the first five errors as samples.
   */
  lemma RegisterDevicesAccounts(n: nat, concurrency: nat, steps: seq<Step>)
    requires Valid(n, concurrency, START, steps) && Run(n, concurrency, START, steps).main.Returned?
    ensures IdsAreSuccesses(n, Run(n, concurrency, START, steps))
    ensures EverythingCounted(n, Run(n, concurrency, START, steps))
  {
    StartGood(n, concurrency);
    RunGood(n, concurrency, START, steps);
    var s := Run(n, concurrency, START, steps);
    AllCollected(n, concurrency, s);
    AddsUp(n, s);
    EveryCallIsCounted(s.records);
  }
}
