/**
 The log batcher (internal/platform/seq_writer.go). A mutex covers each append and each take of
 the batch, but not the moment between an append that fills the batch and the flush its writer
 then starts. Characters stand for bytes.
 */
module SeqWriter {
  import opened Prelude

  /** Named for lines in the source, but compared with the length of the batch. */
  const MAX_BATCH: nat := 200

  class Writer {
    var batch: string

    constructor ()
      ensures batch == ""
    {
      batch := "";
    }

    /** The locked part of Write, for a line toCLEF accepted. */
    method Append(clef: string) returns (full: bool)
      modifies this
      ensures batch == Appended(old(batch), clef)
      ensures full <==> |batch| >= MAX_BATCH
    {
      batch := batch + clef;
      batch := batch + "\n";
      full := |batch| >= MAX_BATCH;
    }

    /** The locked part of flush. */
    method Take() returns (payload: Option<string>)
      modifies this
      ensures batch == ""
      ensures payload == if old(batch) == "" then None else Some(old(batch))
    {
      if |batch| == 0 {
        return None;
      }
      payload := Some(batch[..|batch|]);
      assert batch[..|batch|] == batch;
      batch := "";
    }

    /** Write with nobody else about: a malformed line is dropped and still reported as written. */
    method Write(length: nat, clef: Option<string>) returns (n: nat, payload: Option<string>)
      modifies this
      ensures n == length
      ensures clef.None? ==> batch == old(batch) && payload == None
      ensures clef.Some? ==> batch + Sent(payload) == Appended(old(batch), clef.value)
      ensures clef.Some? ==> (batch == "" <==> |Appended(old(batch), clef.value)| >= MAX_BATCH)
    {
      payload := None;
      if clef.Some? {
        var full := Append(clef.value);
        if full {
          payload := Take();
        }
      }
      n := length;
    }
  }

  function Appended(batch: string, clef: string): string {
    batch + (clef + "\n")
  }

  function Sent(payload: Option<string>): string {
    if payload.Some? then payload.value else ""
  }

  // ----- lines -----

  function Join(lines: seq<string>): string {
    if lines == [] then "" else lines[0] + "\n" + Join(lines[1..])
  }

  /** The lines of a text that ends each of them with a line feed. */
  function Lines(s: string): seq<string> {
    if s == "" then []
    else if s[0] == '\n' then [""] + Lines(s[1..])
    else
      var rest := Lines(s[1..]);
      if rest == [] then [[s[0]]] else [[s[0]] + rest[0]] + rest[1..]
  }

  predicate Flat(lines: seq<string>) {
    forall i :: 0 <= i < |lines| ==> '\n' !in lines[i]
  }

  lemma {:induction false} JoinConcat(a: seq<string>, b: seq<string>)
    ensures Join(a + b) == Join(a) + Join(b)
  {
    if a == [] {
      assert a + b == b;
    } else {
      assert (a + b)[1..] == a[1..] + b;
      JoinConcat(a[1..], b);
    }
  }

  lemma {:induction false} LinesOfFirst(line: string, rest: string)
    requires '\n' !in line
    ensures Lines(line + "\n" + rest) == [line] + Lines(rest)
  {
    var s := line + "\n" + rest;
    if line == "" {
      assert s[1..] == rest;
    } else {
      assert s[1..] == line[1..] + "\n" + rest;
      LinesOfFirst(line[1..], rest);
      assert [line[0]] + line[1..] == line;
    }
  }

  lemma {:induction false} LinesOfJoin(lines: seq<string>)
    requires Flat(lines)
    ensures Lines(Join(lines)) == lines
  {
    if lines != [] {
      LinesOfJoin(lines[1..]);
      LinesOfFirst(lines[0], Join(lines[1..]));
    }
  }

  lemma JoinAppended(lines: seq<string>, clef: string)
    ensures Join(lines + [clef]) == Appended(Join(lines), clef)
  {
    JoinConcat(lines, [clef]);
    assert [clef][1..] == [];
    assert Join([clef]) == clef + "\n";
  }

  /** Appending a line to a text of whole lines adds exactly that line. */
  lemma LinesOfAppended(batch: string, lines: seq<string>, clef: string)
    requires batch == Join(lines) && Flat(lines) && '\n' !in clef
    ensures Lines(Appended(batch, clef)) == lines + [clef]
    ensures Appended(batch, clef) == Join(lines + [clef])
  {
    JoinAppended(lines, clef);
    LinesOfJoin(lines + [clef]);
  }

  function AllLines(payloads: seq<string>): seq<string> {
    if payloads == [] then [] else AllLines(payloads[..|payloads| - 1]) + Lines(payloads[|payloads| - 1])
  }

  function Concat(payloads: seq<string>): string {
    if payloads == [] then "" else Concat(payloads[..|payloads| - 1]) + payloads[|payloads| - 1]
  }

  // ----- any number of writers -----

  /** `pending` are the writers that filled the batch and have yet to flush; the rest is history. */
  datatype Log = Log(batch: string, pending: set<nat>, payloads: seq<string>, accepted: seq<string>)

  const EMPTY: Log := Log("", {}, [], [])

  /** Tick is the flush loop. */
  datatype Step = Write(writer: nat, clef: Option<string>) | Flush(writer: nat) | Tick

  /** A writer inside Write is not called again; a marshalled line has no line feed. */
  predicate Enabled(l: Log, s: Step) {
    match s
    case Write(w, clef) => w !in l.pending && (clef.Some? ==> '\n' !in clef.value)
    case Flush(w) => w in l.pending
    case Tick => true
  }

  function Taken(l: Log): Log {
    if l.batch == "" then l else l.(batch := "", payloads := l.payloads + [l.batch])
  }

  function Apply(l: Log, s: Step): Log {
    match s
    case Write(w, clef) =>
      if clef.None? then l
      else
        var batch := Appended(l.batch, clef.value);
        Log(batch, if |batch| >= MAX_BATCH then l.pending + {w} else l.pending,
            l.payloads, l.accepted + [clef.value])
    case Flush(w) => Taken(l).(pending := l.pending - {w})
    case Tick => Taken(l)
  }

  predicate Valid(l: Log, steps: seq<Step>)
    decreases steps
  {
    steps == [] || (Enabled(l, steps[0]) && Valid(Apply(l, steps[0]), steps[1..]))
  }

  function Run(l: Log, steps: seq<Step>): Log
    requires Valid(l, steps)
    decreases steps
  {
    if steps == [] then l else Run(Apply(l, steps[0]), steps[1..])
  }

  predicate WholeLines(payloads: seq<string>) {
    forall i :: 0 <= i < |payloads| ==> payloads[i] != "" && payloads[i] == Join(Lines(payloads[i]))
  }

  predicate Conserved(l: Log) {
    && Flat(l.accepted)
    && WholeLines(l.payloads)
    && l.batch == Join(Lines(l.batch))
    && AllLines(l.payloads) + Lines(l.batch) == l.accepted
  }

  /** A full batch is about to be flushed, and only writers about to flush can overfill it. */
  predicate Bounded(l: Log, longest: nat) {
    && (|l.batch| >= MAX_BATCH ==> l.pending != {})
    && |l.batch| <= MAX_BATCH - 1 + |l.pending| * (longest + 1)
  }

  predicate Short(s: Step, longest: nat) {
    s.Write? && s.clef.Some? ==> |s.clef.value| <= longest
  }

  lemma TakenConserves(l: Log)
    requires Conserved(l)
    ensures Conserved(Taken(l))
  {
    if l.batch != "" {
      var t := Taken(l);
      assert t.payloads[..|t.payloads| - 1] == l.payloads;
      assert AllLines(t.payloads) + Lines("") == AllLines(l.payloads) + Lines(l.batch);
    }
  }

  lemma WriteConserves(l: Log, w: nat, clef: string)
    requires Conserved(l) && '\n' !in clef
    ensures Conserved(Apply(l, Write(w, Some(clef))))
  {
    var split := |AllLines(l.payloads)|;
    assert Lines(l.batch) == l.accepted[split..];
    LinesOfAppended(l.batch, Lines(l.batch), clef);
    assert AllLines(l.payloads) + (Lines(l.batch) + [clef]) == l.accepted + [clef];
  }

  lemma StepConserves(l: Log, s: Step)
    requires Conserved(l) && Enabled(l, s)
    ensures Conserved(Apply(l, s))
  {
    match s
    case Write(w, clef) => if clef.Some? { WriteConserves(l, w, clef.value); }
    case Flush(_) => TakenConserves(l);
    case Tick => TakenConserves(l);
  }

  lemma StepBounded(l: Log, s: Step, longest: nat)
    requires Bounded(l, longest) && Enabled(l, s) && Short(s, longest)
    ensures Bounded(Apply(l, s), longest)
  {
    var t := Apply(l, s);
    if s.Write? && s.clef.Some? && |t.batch| >= MAX_BATCH {
      assert |t.pending| == |l.pending| + 1;
      assert |t.pending| * (longest + 1) == |l.pending| * (longest + 1) + (longest + 1);
    }
  }

  lemma {:induction false} RunConserves(l: Log, steps: seq<Step>)
    requires Valid(l, steps) && Conserved(l)
    ensures Conserved(Run(l, steps))
    decreases steps
  {
    if steps != [] {
      StepConserves(l, steps[0]);
      RunConserves(Apply(l, steps[0]), steps[1..]);
    }
  }

  lemma {:induction false} RunBounded(l: Log, steps: seq<Step>, longest: nat)
    requires Valid(l, steps) && Bounded(l, longest)
    requires forall i :: 0 <= i < |steps| ==> Short(steps[i], longest)
    ensures Bounded(Run(l, steps), longest)
    decreases steps
  {
    if steps != [] {
      StepBounded(l, steps[0], longest);
      RunBounded(Apply(l, steps[0]), steps[1..], longest);
    }
  }

  lemma {:induction false} ConcatIsJoin(payloads: seq<string>)
    requires WholeLines(payloads)
    ensures Concat(payloads) == Join(AllLines(payloads))
  {
    if payloads != [] {
      var init := payloads[..|payloads| - 1];
      ConcatIsJoin(init);
      JoinConcat(AllLines(init), Lines(payloads[|payloads| - 1]));
    }
  }

  lemma BytesConserved(l: Log)
    requires Conserved(l)
    ensures Concat(l.payloads) + l.batch == Join(l.accepted)
  {
    ConcatIsJoin(l.payloads);
    JoinConcat(AllLines(l.payloads), Lines(l.batch));
  }

  /** The lines accepted in the order of their appends. */
  function Accepted(steps: seq<Step>): seq<string> {
    if steps == [] then []
    else (if steps[0].Write? && steps[0].clef.Some? then [steps[0].clef.value] else []) + Accepted(steps[1..])
  }

  lemma {:induction false} AcceptedIsAll(l: Log, steps: seq<Step>)
    requires Valid(l, steps)
    ensures Run(l, steps).accepted == l.accepted + Accepted(steps)
    decreases steps
  {
    if steps != [] {
      AcceptedIsAll(Apply(l, steps[0]), steps[1..]);
    }
  }

  /**
   No line is lost, repeated, reordered or cut on its way into a payload: the payloads in lock
   order and then the batch are all accepted lines, byte for byte, and each payload splits back
   into whole lines.
   */
  lemma BatchConservation(steps: seq<Step>)
    requires Valid(EMPTY, steps)
    ensures var l := Run(EMPTY, steps);
      && Concat(l.payloads) + l.batch == Join(Accepted(steps))
      && AllLines(l.payloads) + Lines(l.batch) == Accepted(steps)
      && WholeLines(l.payloads)
  {
    RunConserves(EMPTY, steps);
    AcceptedIsAll(EMPTY, steps);
    BytesConserved(Run(EMPTY, steps));
    assert EMPTY.accepted + Accepted(steps) == Accepted(steps);
  }

  /**
   A batch of 200 bytes or more always has a writer about to flush it, so the batch never
   outgrows 199 bytes by more than a line for each such writer.
   */
  lemma BatchIsBounded(steps: seq<Step>, longest: nat)
    requires Valid(EMPTY, steps)
    requires forall i :: 0 <= i < |steps| ==> Short(steps[i], longest)
    ensures var l := Run(EMPTY, steps);
      && (|l.batch| >= MAX_BATCH ==> l.pending != {})
      && |l.batch| <= MAX_BATCH - 1 + |l.pending| * (longest + 1)
  {
    RunBounded(EMPTY, steps, longest);
  }

  lemma {:induction false} JoinLength(lines: seq<string>, shortest: nat)
    requires forall i :: 0 <= i < |lines| ==> |lines[i]| >= shortest
    ensures |Join(lines)| >= |lines| * (shortest + 1)
  {
    if lines != [] {
      JoinLength(lines[1..], shortest);
    }
  }

  /**
   The limit counts bytes, not lines. A marshalled object has two bytes or more, so 67 lines
   already fill a batch; and a single line of 199 bytes does.
   */
  lemma LimitCountsBytes(lines: seq<string>)
    requires forall i :: 0 <= i < |lines| ==> |lines[i]| >= 2
    ensures |lines| >= 67 ==> |Join(lines)| >= MAX_BATCH
    ensures |lines| == 1 ==> (|Join(lines)| >= MAX_BATCH <==> |lines[0]| >= 199)
  {
    JoinLength(lines, 2);
    if |lines| == 1 {
      assert Join(lines[1..]) == "";
    }
  }

  // ----- renaming -----

  /** A field's value, as JSON text. */
  type Json = string

  function ClefName(k: string): string {
    match k
    case "time" => "@t"
    case "level" => "@l"
    case "message" => "@m"
    case _ => k
  }

  /** What some order of the map iteration gives: every new name holds the value of one of its fields. */
  ghost predicate Renaming(fields: map<string, Json>, clef: map<string, Json>) {
    && (forall k :: k in fields ==> ClefName(k) in clef)
    && (forall j :: j in clef ==> exists k :: k in fields && ClefName(k) == j && clef[j] == fields[k])
  }

  ghost predicate Unambiguous(fields: map<string, Json>) {
    forall k, k' :: k in fields && k' in fields && ClefName(k) == ClefName(k') ==> fields[k] == fields[k']
  }

  /** toCLEF between decoding and encoding; the iteration order is arbitrary. */
  method ToClef(fields: map<string, Json>) returns (clef: map<string, Json>)
    ensures Renaming(fields, clef)
    ensures Unambiguous(fields) ==>
              && ("time" in fields ==> "@t" in clef && clef["@t"] == fields["time"])
              && ("level" in fields ==> "@l" in clef && clef["@l"] == fields["level"])
              && ("message" in fields ==> "@m" in clef && clef["@m"] == fields["message"])
              && (forall k :: k in fields && k != "time" && k != "level" && k != "message" ==>
                    k in clef && clef[k] == fields[k])
    ensures "time" !in clef && "level" !in clef && "message" !in clef
  {
    clef := map[];
    var todo := fields.Keys;
    while todo != {}
      invariant todo <= fields.Keys
      invariant forall k :: k in fields && k !in todo ==> ClefName(k) in clef
      invariant forall j :: j in clef ==> exists k :: k in fields && ClefName(k) == j && clef[j] == fields[k]
      decreases |todo|
    {
      var k :| k in todo;
      clef := clef[ClefName(k) := fields[k]];
      todo := todo - {k};
    }
    RenamedFields(fields, clef);
  }

  lemma OldNamesGone(k: string)
    ensures ClefName(k) != "time" && ClefName(k) != "level" && ClefName(k) != "message"
    ensures k != "time" && k != "level" && k != "message" ==> ClefName(k) == k
  {
  }

  lemma NewNames()
    ensures ClefName("time") == "@t" && ClefName("level") == "@l" && ClefName("message") == "@m"
  {
  }

  lemma RenamedOne(fields: map<string, Json>, clef: map<string, Json>, k: string)
    requires Renaming(fields, clef) && Unambiguous(fields) && k in fields
    ensures ClefName(k) in clef && clef[ClefName(k)] == fields[k]
  {
    var other :| other in fields && ClefName(other) == ClefName(k) && clef[ClefName(k)] == fields[other];
  }

  /** Every renaming gives the three fields their new names and leaves the others'. */
  lemma RenamedFields(fields: map<string, Json>, clef: map<string, Json>)
    requires Renaming(fields, clef)
    ensures "time" !in clef && "level" !in clef && "message" !in clef
    ensures Unambiguous(fields) ==>
              && ("time" in fields ==> "@t" in clef && clef["@t"] == fields["time"])
              && ("level" in fields ==> "@l" in clef && clef["@l"] == fields["level"])
              && ("message" in fields ==> "@m" in clef && clef["@m"] == fields["message"])
              && (forall k :: k in fields && k != "time" && k != "level" && k != "message" ==>
                    k in clef && clef[k] == fields[k])
  {
    forall j | j in clef ensures j != "time" && j != "level" && j != "message" {
      var k :| k in fields && ClefName(k) == j;
      OldNamesGone(k);
    }
    if Unambiguous(fields) {
      NewNames();
      forall k | k in fields ensures ClefName(k) in clef && clef[ClefName(k)] == fields[k] {
        RenamedOne(fields, clef, k);
      }
      forall k | k in fields && k != "time" && k != "level" && k != "message"
        ensures k in clef && clef[k] == fields[k]
      {
        OldNamesGone(k);
      }
    }
  }

  function Source(fields: map<string, Json>, j: string): (k: string)
    requires exists k :: k in fields && ClefName(k) == j
    ensures k in fields && ClefName(k) == j
  {
    if j in fields && ClefName(j) == j then j
    else if j == "@t" then "time"
    else if j == "@l" then "level"
    else "message"
  }

  lemma RenamingExists(fields: map<string, Json>) returns (clef: map<string, Json>)
    ensures Renaming(fields, clef)
  {
    var names := set k | k in fields :: ClefName(k);
    clef := map j | j in names :: fields[Source(fields, j)];
  }

  /** The result is independent of the iteration order exactly if no two fields clash under one name. */
  lemma OneRenamingIffUnambiguous(fields: map<string, Json>)
    ensures (forall a, b :: Renaming(fields, a) && Renaming(fields, b) ==> a == b) <==> Unambiguous(fields)
  {
    if !Unambiguous(fields) {
      var k, k' :| k in fields && k' in fields && ClefName(k) == ClefName(k') && fields[k] != fields[k'];
      var m := RenamingExists(fields);
      var a, b := m[ClefName(k) := fields[k]], m[ClefName(k) := fields[k']];
      assert Renaming(fields, a) && Renaming(fields, b);
      assert a[ClefName(k)] != b[ClefName(k)];
    }
  }
}
