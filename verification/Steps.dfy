/** Every mutation of a namespace as one labelled atomic step, whoever sends it and whenever it arrives. */
module Steps {
  import opened Policy
  import opened Queue
  import Scripts

  datatype Op =
    | EnqueueJob(op: EnqueueOp, job: string, now: int, requested: int, mode: ReplaceMode)
    | ReserveJobs(worker: string, now: int, capacity: nat, duration: int, policy: RetryPolicy, record: string,
                  tokens: seq<string>)
    | HeartbeatLease(job: string, worker: string, token: string, now: int, duration: int)
    | AckLease(job: string, worker: string, token: string, now: int)
    | CompleteLease(job: string, worker: string, token: string, now: int, requested: int)
    | FailLease(job: string, worker: string, token: string, now: int, terminal: bool, policy: RetryPolicy)
    | ReapLeases(now: int, limit: nat)
    | OperatorAct(operator: OperatorOp, job: string, now: int)
    | PurgeJobs(jobs: set<string>)
    | PruneStale(workers: set<string>)

  /** The client sends no reservation for zero capacity. Deadlines are `now` plus the lease duration. */
  function Apply(s: State, op: Op): (State, Reply) {
    match op
    case EnqueueJob(e, job, now, requested, mode) => Scripts.Enqueue(s, e, job, now, requested, mode)
    case ReserveJobs(worker, now, capacity, duration, policy, record, tokens) =>
      if capacity == 0 then (s, Reserved([], 0))
      else Scripts.Reserve(s, worker, now, capacity, duration, PolicyKey(policy), record, tokens)
    case HeartbeatLease(job, worker, token, now, duration) =>
      Scripts.Heartbeat(s, job, worker, token, now, now + duration)
    case AckLease(job, worker, token, now) => Scripts.Ack(s, job, worker, token, now)
    case CompleteLease(job, worker, token, now, requested) => Scripts.Complete(s, job, worker, token, now, requested)
    case FailLease(job, worker, token, now, terminal, policy) =>
      Scripts.Fail(s, job, worker, token, now, terminal, policy)
    case ReapLeases(now, limit) => var (t, n) := Scripts.Reap(s, now, limit); (t, Reaped(n))
    case OperatorAct(operator, job, now) => Scripts.Operator(s, operator, job, now)
    case PurgeJobs(jobs) => (Scripts.PurgeFailed(s, jobs), Done)
    case PruneStale(workers) => (Scripts.PruneWorkers(s, workers), Done)
  }

  /** Enough tokens for the requested capacity, as the worker always sends them. */
  predicate EnoughTokens(op: Op) {
    op.ReserveJobs? ==> |op.tokens| >= op.capacity
  }
}
