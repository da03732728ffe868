/** One namespace of the queue as Redis holds it, and the vocabulary of the scripts. */
module Queue {
  import opened Wrappers
  import opened SortedSets
  import opened Codec

  /** The keys of one namespace. A field of a hash that is absent reads as zero or as "not there". */
  datatype State = State(
    policy: Option<string>,
    ready: ZSet,
    scheduled: ZSet,
    leased: ZSet,
    failed: ZSet,
    leaseMeta: map<string, string>,
    failures: map<string, int>,
    workerLeases: map<string, int>,
    rerun: set<string>,
    lastSeen: ZSet,
    workerConfigs: map<string, string>)

  const EMPTY: State :=
    State(None, map[], map[], map[], map[], map[], map[], map[], {}, map[], map[])

  datatype Place = Absent | Ready | Scheduled | Leased | Failed

  datatype ReplaceMode = Always | IfEarlier | IfLater

  datatype EnqueueOp = EnqueueImmediate | EnqueueScheduled | Reschedule

  datatype OperatorOp = Cancel | Requeue | RetryNow | ForceRetry | ForceAck | ForceFail

  datatype EnqueueStatus = Created | Unchanged | Updated

  datatype Grant = Grant(job: string, token: string)

  /** What a script returns. `shown` is the schedule as the script writes it, "0" if there is none. */
  datatype Reply =
    | Done
    | Placed(status: EnqueueStatus, place: Place, shown: string)
    | Counted(failureCount: int, place: Place, retryAt: int)
    | Reserved(grants: seq<Grant>, nextScheduleAt: int)
    | Reaped(count: nat)
    | LeaseMismatch
    | NotFound
    | InvalidState(place: Place)
    | PolicyMismatch

  /** The order in which the scripts look a job up. */
  function PlaceOf(s: State, job: string): Place {
    if job in s.ready then Ready
    else if job in s.scheduled then Scheduled
    else if job in s.leased then Leased
    else if job in s.failed then Failed
    else Absent
  }

  /** The fence of every lease mutation: the record of the job is the one this attempt was granted. */
  predicate Holds(s: State, job: string, worker: string, token: string) {
    job in s.leaseMeta && s.leaseMeta[job] == PackLease(worker, token) && job in s.leased
  }

  /** `HGET` on a counter. */
  function Counter(counters: map<string, int>, key: string): int {
    if key in counters then counters[key] else 0
  }

  /** `HINCRBY key 1`. */
  function Increment(counters: map<string, int>, key: string): map<string, int> {
    counters[key := Counter(counters, key) + 1]
  }

  /** `HINCRBY key -1`, and `HDEL key` when the count is no longer positive. */
  function Decrement(counters: map<string, int>, key: string): map<string, int> {
    if Counter(counters, key) - 1 <= 0 then counters - {key} else counters[key := Counter(counters, key) - 1]
  }

  function DecrementHolder(counters: map<string, int>, holder: Option<string>): map<string, int> {
    match holder
    case None => counters
    case Some(worker) => Decrement(counters, worker)
  }

  /** The worker a lease record names, if there is a record and it can be decoded. */
  function HolderOf(s: State, job: string): Option<string> {
    if job in s.leaseMeta then WorkerFromMeta(s.leaseMeta[job]) else None
  }

  /** Where a requested activation time leads: into `ready` at the current time, or into `scheduled`. */
  function TargetPlace(now: int, requested: int): Place {
    if requested == 0 || requested <= now then Ready else Scheduled
  }

  function TargetScore(now: int, requested: int): int {
    if requested == 0 || requested <= now then now else requested
  }

  predicate ShouldReplace(mode: ReplaceMode, target: int, existing: int) {
    match mode
    case Always => true
    case IfEarlier => target < existing
    case IfLater => target > existing
  }

  /** The jobs a namespace knows. */
  function Jobs(s: State): set<string> {
    s.ready.Keys + s.scheduled.Keys + s.leased.Keys + s.failed.Keys
  }

  /** The jobs that are not terminal. */
  function Live(s: State): set<string> {
    s.ready.Keys + s.scheduled.Keys + s.leased.Keys
  }

  /** The leases, their counters, the pinned policy and the registered workers are the same. */
  ghost predicate LeasesKept(s: State, t: State) {
    && t.leased == s.leased && t.leaseMeta == s.leaseMeta && t.workerLeases == s.workerLeases && t.policy == s.policy
    && t.lastSeen == s.lastSeen && t.workerConfigs == s.workerConfigs
  }

  /** The failure counters and the failed jobs are the same. */
  ghost predicate FailuresKept(s: State, t: State) {
    t.failures == s.failures && t.failed == s.failed
  }

  /** The failed state of a job, if it has one, is dropped, and no other. */
  ghost predicate FailedStateDropped(s: State, t: State, job: string) {
    if PlaceOf(s, job) == Failed then t.failures == s.failures - {job} && t.failed == s.failed - {job}
    else FailuresKept(s, t)
  }

  /** Nothing about job `j` differs between the two states. */
  ghost predicate SameJobAt(s: State, t: State, j: string) {
    && (j in s.ready <==> j in t.ready) && (j in s.ready ==> s.ready[j] == t.ready[j])
    && (j in s.scheduled <==> j in t.scheduled) && (j in s.scheduled ==> s.scheduled[j] == t.scheduled[j])
    && (j in s.leased <==> j in t.leased) && (j in s.leased ==> s.leased[j] == t.leased[j])
    && (j in s.failed <==> j in t.failed) && (j in s.failed ==> s.failed[j] == t.failed[j])
    && (j in s.leaseMeta <==> j in t.leaseMeta) && (j in s.leaseMeta ==> s.leaseMeta[j] == t.leaseMeta[j])
    && (j in s.failures <==> j in t.failures) && (j in s.failures ==> s.failures[j] == t.failures[j])
    && (j in s.rerun <==> j in t.rerun)
  }

  /** Only this job may have changed. */
  ghost predicate OnlyJob(s: State, t: State, job: string) {
    forall j | j != job :: SameJobAt(s, t, j)
  }

  lemma OnlyJobTransitive(s: State, t: State, u: State, job: string)
    requires OnlyJob(s, t, job) && OnlyJob(t, u, job)
    ensures OnlyJob(s, u, job)
  {
    forall j | j != job ensures SameJobAt(s, u, j) {
      assert SameJobAt(s, t, j) && SameJobAt(t, u, j);
    }
  }
}
