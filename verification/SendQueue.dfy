/** The tasks waiting in, running from or archived in the per-provider send queues. */
module SendQueue {
  import opened Store
  import opened TaskQueue
  import SendHandler

  datatype TaskState = Waiting | Active(pc: SendHandler.Pc) | Archived(reason: ArchiveReason)

  /**
   `retried` is the queue's own counter. `runs` and `denials` are bookkeeping: handler runs
   begun, and runs that ended rescheduled without touching the budget.
   */
  datatype SendTask = SendTask(payload: SendPayload, retried: nat, state: TaskState, runs: nat, denials: nat)

  type Tasks = map<TaskKey, SendTask>

  predicate LastAttempt(task: SendTask) {
    task.retried >= MAX_RETRY
  }

  /** A run that has returned and whose verdict takes the task out of circulation. */
  predicate Settled(policy: FailurePolicy, task: SendTask) {
    && task.state.Active? && task.state.pc.Returned?
    && var v := Decide(task.state.pc.outcome, task.retried, policy);
       v.Complete? || v.Archive?
  }

  /** A task id still taken makes the enqueue a no-op. */
  function Enqueue(q: Tasks, p: SendPayload): Tasks {
    if KeyOf(p) in q then q else q[KeyOf(p) := SendTask(p, 0, Waiting, 0, 0)]
  }

  /** How an enqueue call ends: it may also take effect and still report an error. */
  datatype EnqueueReply = Accepted | Refused | LostReply

  class Client {
    var tasks: Tasks

    /** ErrTaskIDConflict is reported as success. */
    method EnqueueSend(p: SendPayload, reply: EnqueueReply) returns (ok: bool)
      modifies this
      ensures ok == reply.Accepted?
      ensures tasks == if reply.Refused? then old(tasks) else Enqueue(old(tasks), p)
    {
      if !reply.Refused? && KeyOf(p) !in tasks {
        tasks := tasks[KeyOf(p) := SendTask(p, 0, Waiting, 0, 0)];
      }
      ok := reply.Accepted?;
    }
  }
}
