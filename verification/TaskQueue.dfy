/**
 The send queues (internal/queue/queue.go). A task id is unique in its queue while the
 task is pending, running or archived, and is free again once the task completes.
 */
module TaskQueue {
  import opened Prelude
  import opened Store

  /** asynq.MaxRetry(5) of EnqueueSend. */
  const MAX_RETRY: nat := 5

  /** One queue per provider ("send:" + provider type), task id = recipient id. */
  datatype TaskKey = TaskKey(queue: Provider, recipient: Id)

  datatype SendPayload = SendPayload(
    notification: Id, recipient: Id, device: Id, project: Id, provider: Provider, token: string)

  /** What a handler run returns: nil, an error wrapping SkipRetry, a ThrottledError, any other error. */
  datatype Outcome = Nil | Failure | SkipRetry | Throttled

  datatype ArchiveReason = Skipped | Exhausted

  datatype Verdict = Complete | Reschedule | Retry | Archive(reason: ArchiveReason)

  /** Only a ThrottledError is exempt from the retry budget. */
  predicate IsFailure(o: Outcome) {
    !o.Throttled?
  }

  /**
   The queue's IsFailure setting: this service's `IsFailure`, or the library default, under
   which every error counts (the setting before throttles were exempted).
   */
  datatype FailurePolicy = ExemptThrottles | EveryError

  predicate CountsAsFailure(policy: FailurePolicy, o: Outcome) {
    policy.EveryError? || IsFailure(o)
  }

  /** What the queue does with a finished run; `retried` has advanced once for every earlier Retry. */
  function Decide(o: Outcome, retried: nat, policy: FailurePolicy): Verdict {
    if o.Nil? then Complete
    else if !CountsAsFailure(policy, o) then Reschedule
    else if o.SkipRetry? then Archive(Skipped)
    else if retried >= MAX_RETRY then Archive(Exhausted)
    else Retry
  }

  /** retryCount/maxRetry are absent outside a queue-run context. */
  predicate IsLastAttempt(retryCount: Option<nat>, maxRetry: Option<nat>) {
    retryCount.Some? && maxRetry.Some? && retryCount.value >= maxRetry.value
  }

  function KeyOf(p: SendPayload): TaskKey {
    TaskKey(p.provider, p.recipient)
  }
}
