/**
 Polling a notification: the status endpoint reads the total first and counts the rows in a later
 statement, and the load tester compares the two.
 */
module Completion {
  import opened Prelude
  import opened Store
  import opened TaskQueue
  import opened Pipeline
  import opened Structure
  import opened Guarantees
  import opened Outcomes
  import opened CreateHandler

  const TERMINAL: seq<Status> := [Sent, Delivered, Status.Failed]

  /** The test on what the endpoint returned. */
  method NotificationIsDone(total: nat, counts: map<Status, nat>) returns (done: bool)
    ensures done <==> total != 0
                      && Lookup(counts, Sent) + Lookup(counts, Delivered) + Lookup(counts, Status.Failed) >= total
  {
    if total == 0 {
      return false;
    }
    var terminal := 0;
    for i := 0 to |TERMINAL|
      invariant i == 1 ==> terminal == Lookup(counts, Sent)
      invariant i == 2 ==> terminal == Lookup(counts, Sent) + Lookup(counts, Delivered)
      invariant i == 3 ==> terminal == Lookup(counts, Sent) + Lookup(counts, Delivered) + Lookup(counts, Status.Failed)
      invariant i == 0 ==> terminal == 0
    {
      terminal := terminal + (if TERMINAL[i] in counts then counts[TERMINAL[i]] else 0);
    }
    return terminal >= total;
  }

  /** The total as of `t` against the rows as of `t'`. */
  predicate Polled(t: Tables, t': Tables, n: Id)
    requires n in t.notifications
  {
    var total := t.notifications[n].total;
    total != 0 && CountOf(t', n, Sent) + CountOf(t', n, Delivered) + CountOf(t', n, Status.Failed) >= total
  }

  /** One poll: `rows` is what the count query returned, of tables that may have moved on. */
  method Poll(total: nat, rows: seq<(Status, nat)>, ghost t: Tables, ghost t': Tables, ghost n: Id) returns (done: bool)
    requires n in t.notifications && total == t.notifications[n].total && IsGrouping(t', n, rows)
    ensures done <==> Polled(t, t', n)
  {
    var counts := RecipientStatusCounts(rows, t', n);
    done := NotificationIsDone(total, counts);
  }

  /**
   Whatever happens between the two statements of a poll, with one audience it succeeds exactly if
   the total was stored by the first and every row is terminal at the second.
   */
  lemma PollIsExact(policy: FailurePolicy, w: World, steps: seq<Step>, n: Id)
    requires Reachable(policy, w) && Valid(w, steps) && n in w.t.notifications && OneAudience(Run(w, steps).h, n)
    ensures Polled(w.t, Run(w, steps).t, n)
       <==> w.t.notifications[n].total != 0
            && forall r :: r in RowsOf(Run(w, steps).t, n) ==> Resolved(Run(w, steps), r)
  {
    RunGrows(w, steps);
    ReachableStructured(policy, w);
    if w.t.notifications[n].total != 0 {
      ReachableRun(policy, w, steps);
      TotalStays(w, steps, n);
      CompletionIsExact(policy, Run(w, steps), n);
    }
  }
}
