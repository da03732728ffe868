/** Each script as one atomic step: the state it leaves and the reply it sends. */
module Scripts {
  import opened Wrappers
  import opened SortedSets
  import opened Codec
  import opened Policy
  import opened Decimal
  import opened LuaNumbers
  import opened Queue

  /** Puts a job into the waiting set its target names. */
  function Put(s: State, job: string, place: Place, score: int): (r: State)
    ensures LeasesKept(s, r)
    ensures OnlyJob(s, r, job)
    ensures PlaceOf(r, job) != Absent
    ensures FailuresKept(s, r)
  {
    if place == Ready then s.(ready := s.ready[job := score]) else s.(scheduled := s.scheduled[job := score])
  }

  function Enqueue(s: State, op: EnqueueOp, job: string, now: int, requested: int, mode: ReplaceMode): (r: (State, Reply))
    ensures LeasesKept(s, r.0)
    ensures OnlyJob(s, r.0, job)
  {
    match op
    case EnqueueImmediate => Immediate(s, job, now)
    case EnqueueScheduled => Schedule(s, job, now, requested, mode)
    case Reschedule =>
      match PlaceOf(s, job)
      case Absent => (s, NotFound)
      case Leased => (s, InvalidState(Leased))
      case Failed => (s, InvalidState(Failed))
      case _ => Move(s, job, now, requested, mode)
  }

  function Immediate(s: State, job: string, now: int): (r: (State, Reply))
    ensures LeasesKept(s, r.0)
    ensures OnlyJob(s, r.0, job)
    ensures PlaceOf(r.0, job) != Absent
    ensures FailedStateDropped(s, r.0, job)
  {
    match PlaceOf(s, job)
    case Ready => (s, Placed(Unchanged, Ready, "0"))
    case Leased => (s.(rerun := s.rerun + {job}), Placed(if job in s.rerun then Unchanged else Updated, Leased, "0"))
    case Scheduled =>
      (s.(scheduled := s.scheduled - {job}, rerun := s.rerun - {job}, ready := s.ready[job := now]),
       Placed(Updated, Ready, "0"))
    case Failed =>
      var t := Reactivate(s, job);
      (t.(ready := t.ready[job := now]), Placed(Updated, Ready, "0"))
    case Absent => (s.(ready := s.ready[job := now]), Placed(Created, Ready, "0"))
  }

  /** Drops the failed state of a job: a fresh failure lifecycle. */
  function Reactivate(s: State, job: string): (r: State)
    ensures OnlyJob(s, r, job)
  {
    s.(failed := s.failed - {job}, failures := s.failures - {job}, rerun := s.rerun - {job})
  }

  /** A failed job's new schedule is shown as Lua prints numbers by itself, every other one digit by digit. */
  function Schedule(s: State, job: string, now: int, requested: int, mode: ReplaceMode): (r: (State, Reply))
    ensures LeasesKept(s, r.0)
    ensures OnlyJob(s, r.0, job)
    ensures PlaceOf(r.0, job) != Absent
    ensures FailedStateDropped(s, r.0, job)
  {
    var place, score := TargetPlace(now, requested), TargetScore(now, requested);
    var shown := if place == Scheduled then requested else 0;
    match PlaceOf(s, job)
    case Leased => (s, InvalidState(Leased))
    case Failed => (Put(Reactivate(s, job), job, place, score), Placed(Updated, place, LuaNumber(shown)))
    case Absent => (Put(s.(rerun := s.rerun - {job}), job, place, score), Placed(Created, place, FormatInt(shown)))
    case _ => Move(s, job, now, requested, mode)
  }

  /** Takes a job out of the waiting set it is in. */
  function LeaveWaiting(s: State, job: string): (r: State)
    ensures LeasesKept(s, r)
    ensures OnlyJob(s, r, job)
    ensures FailuresKept(s, r)
  {
    if PlaceOf(s, job) == Ready then s.(ready := s.ready - {job}, rerun := s.rerun - {job})
    else s.(scheduled := s.scheduled - {job}, rerun := s.rerun - {job})
  }

  /** The current score of a waiting job. */
  function WaitingScore(s: State, job: string): int
    requires job in s.ready || job in s.scheduled
  {
    if job in s.ready then s.ready[job] else s.scheduled[job]
  }

  function Replace(s: State, job: string, place: Place, score: int): (r: State)
    ensures LeasesKept(s, r)
    ensures OnlyJob(s, r, job)
    ensures PlaceOf(r, job) != Absent
    ensures FailuresKept(s, r)
  {
    OnlyJobTransitive(s, LeaveWaiting(s, job), Put(LeaveWaiting(s, job), job, place, score), job);
    Put(LeaveWaiting(s, job), job, place, score)
  }

  /** Moves a waiting job to the requested placement, if the mode allows it and it changes anything. */
  function Move(s: State, job: string, now: int, requested: int, mode: ReplaceMode): (r: (State, Reply))
    requires job in s.ready || job in s.scheduled
    ensures LeasesKept(s, r.0)
    ensures OnlyJob(s, r.0, job)
    ensures PlaceOf(r.0, job) != Absent
    ensures FailuresKept(s, r.0)
  {
    var place, score := TargetPlace(now, requested), TargetScore(now, requested);
    var current, existing := PlaceOf(s, job), WaitingScore(s, job);
    if (current == place && existing == score) || !ShouldReplace(mode, score, existing) then
      (s, Placed(Unchanged, current, FormatInt(if current == Scheduled then existing else 0)))
    else
      (Replace(s, job, place, score),
       Placed(Updated, place, FormatInt(if place == Scheduled then requested else 0)))
  }

  /** Ends the lease of a job: index, record, rerun mark and the holder's counter. */
  function Release(s: State, job: string, holder: Option<string>): (r: State)
    ensures OnlyJob(s, r, job)
  {
    s.(leased := s.leased - {job},
       leaseMeta := s.leaseMeta - {job},
       rerun := s.rerun - {job},
       workerLeases := DecrementHolder(s.workerLeases, holder))
  }

  /** Ends a run that succeeded: the failure counter goes with it. */
  function Finish(s: State, job: string, holder: Option<string>): (r: State)
    ensures LeasesKept(Release(s, job, holder), r)
    ensures OnlyJob(s, r, job)
  {
    var t := Release(s, job, holder);
    t.(failures := t.failures - {job})
  }

  function Ack(s: State, job: string, worker: string, token: string, now: int): (r: (State, Reply))
    ensures Holds(s, job, worker, token) ==> LeasesKept(Release(s, job, Some(worker)), r.0)
    ensures OnlyJob(s, r.0, job)
    ensures Holds(s, job, worker, token) ==> r.0.failures == s.failures - {job}
  {
    if !Holds(s, job, worker, token) then (s, LeaseMismatch)
    else
      var t := Finish(s, job, Some(worker));
      (if job in s.rerun then t.(ready := t.ready[job := now]) else t, Done)
  }

  function Complete(s: State, job: string, worker: string, token: string, now: int, requested: int): (r: (State, Reply))
    ensures Holds(s, job, worker, token) ==> LeasesKept(Release(s, job, Some(worker)), r.0)
    ensures OnlyJob(s, r.0, job)
    ensures Holds(s, job, worker, token) ==> r.0.failures == s.failures - {job}
  {
    if !Holds(s, job, worker, token) then (s, LeaseMismatch)
    else
      var t := Finish(s, job, Some(worker));
      if job in s.rerun || TargetPlace(now, requested) == Ready then
        (t.(ready := t.ready[job := now]), Placed(Updated, Ready, "0"))
      else
        (t.(scheduled := t.scheduled[job := requested]), Placed(Updated, Scheduled, FormatInt(requested)))
  }

  function Fail(s: State, job: string, worker: string, token: string, now: int, terminal: bool, policy: RetryPolicy)
    : (r: (State, Reply))
    ensures Holds(s, job, worker, token) ==> LeasesKept(Release(s, job, Some(worker)), r.0)
    ensures OnlyJob(s, r.0, job)
    ensures Holds(s, job, worker, token) ==> r.0.failures == Increment(s.failures, job)
  {
    if !Holds(s, job, worker, token) then (s, LeaseMismatch)
    else
      var released := Release(s, job, Some(worker));
      var t := released.(failures := Increment(s.failures, job));
      Settle(t, job, Counter(t.failures, job), now, terminal, policy)
  }

  /** Where failure number `n` leaves the job: in `failed`, in `ready`, or in `scheduled` after a backoff. */
  function Settle(s: State, job: string, n: int, now: int, terminal: bool, policy: RetryPolicy): (r: (State, Reply))
    ensures LeasesKept(s, r.0)
    ensures OnlyJob(s, r.0, job)
    ensures PlaceOf(r.0, job) != Absent
    ensures r.0.failures == s.failures
  {
    if terminal || !Retries(policy, n) then (s.(failed := s.failed[job := now]), Counted(n, Failed, 0))
    else
      var delay := DelayMs(BackoffOf(policy), n);
      if delay == 0 then (s.(ready := s.ready[job := now]), Counted(n, Ready, 0))
      else (s.(scheduled := s.scheduled[job := now + delay * 1000]), Counted(n, Scheduled, now + delay * 1000))
  }

  function Heartbeat(s: State, job: string, worker: string, token: string, now: int, deadline: int): (r: (State, Reply))
    ensures OnlyJob(s, r.0, job)
  {
    if !Holds(s, job, worker, token) then (s, LeaseMismatch)
    else (s.(leased := s.leased[job := deadline], lastSeen := s.lastSeen[worker := now]), Done)
  }

  /** Recovers one expired lease. */
  function ReapOne(s: State, job: string, now: int): (r: State)
    ensures LeasesKept(Release(s, job, HolderOf(s, job)), r)
    ensures OnlyJob(s, r, job)
  {
    var t := Release(s, job, HolderOf(s, job));
    t.(ready := t.ready[job := now])
  }

  function Reap(s: State, now: int, limit: nat): (State, nat)
    decreases limit
  {
    if limit == 0 || UpTo(s.leased, now) == map[] then (s, 0)
    else
      var (t, n) := Reap(ReapOne(s, First(UpTo(s.leased, now)), now), now, limit - 1);
      (t, n + 1)
  }

  /** One round of `Reap`. */
  lemma ReapUnfold(s: State, now: int, limit: nat)
    ensures limit == 0 || UpTo(s.leased, now) == map[] ==> Reap(s, now, limit) == (s, 0)
    ensures limit > 0 && UpTo(s.leased, now) != map[] ==>
              var next := Reap(ReapOne(s, First(UpTo(s.leased, now)), now), now, limit - 1);
              Reap(s, now, limit) == (next.0, next.1 + 1)
  {
  }

  function Operator(s: State, op: OperatorOp, job: string, now: int): (r: (State, Reply))
    ensures LeasesKept(s, r.0)
            || ((op == ForceAck || op == ForceFail) && PlaceOf(s, job) == Leased
                && LeasesKept(Release(s, job, HolderOf(s, job)), r.0))
    ensures OnlyJob(s, r.0, job)
  {
    var place := PlaceOf(s, job);
    if place == Absent then (s, NotFound)
    else
      match op
      case Cancel =>
        if place == Scheduled then
          (s.(scheduled := s.scheduled - {job}, failures := s.failures - {job}, rerun := s.rerun - {job}), Done)
        else if place == Failed then (Reactivate(s, job), Done)
        else (s, InvalidState(place))
      case ForceRetry => if place == Failed then Revive(s, job, now) else (s, InvalidState(place))
      case ForceAck => if place == Leased then Force(s, op, job, now) else (s, InvalidState(place))
      case ForceFail => if place == Leased then Force(s, op, job, now) else (s, InvalidState(place))
      case _ =>
        if place == Leased then (s, InvalidState(Leased))
        else if place == Ready then (s, Done)
        else if place == Scheduled then
          (s.(scheduled := s.scheduled - {job}, rerun := s.rerun - {job}, ready := s.ready[job := now]), Done)
        else Revive(s, job, now)
  }

  function Revive(s: State, job: string, now: int): (r: (State, Reply))
    ensures LeasesKept(s, r.0)
    ensures OnlyJob(s, r.0, job)
  {
    var t := Reactivate(s, job);
    (t.(ready := t.ready[job := now]), Done)
  }

  /** `force_ack` and `force_fail`: the lease is ended on behalf of whoever holds it. */
  function Force(s: State, op: OperatorOp, job: string, now: int): (r: (State, Reply))
    ensures LeasesKept(s, r.0) || LeasesKept(Release(s, job, HolderOf(s, job)), r.0)
    ensures OnlyJob(s, r.0, job)
    ensures HolderOf(s, job) != None ==>
              && r.0.failures == (if op == ForceAck then s.failures - {job} else Increment(s.failures, job))
              && r.0.failed == (if op == ForceAck then s.failed else s.failed[job := now])
    ensures HolderOf(s, job) == None ==> r.0 == s
  {
    var holder := HolderOf(s, job);
    if holder == None then (s, NotFound)
    else if op == ForceAck then
      var t := Finish(s, job, holder);
      (if job in s.rerun then t.(ready := t.ready[job := now]) else t, Done)
    else
      var t := Release(s, job, holder);
      (t.(failures := Increment(t.failures, job), failed := t.failed[job := now]), Done)
  }

  /** The inner loop of a reservation: drops due scheduled entries whose job is in `ready` or `leased`,
      until the head of the due range is no such duplicate. */
  function DropDuplicates(s: State, now: int): State
    decreases |s.scheduled|
  {
    var due := UpTo(s.scheduled, now);
    if due == map[] then s
    else
      var head := First(due);
      if head in s.ready || head in s.leased then
        assert (s.scheduled - {head}).Keys == s.scheduled.Keys - {head};
        DropDuplicates(s.(scheduled := s.scheduled - {head}), now)
      else s
  }

  datatype Pick = FromReady(job: string) | FromScheduled(job: string) | NoWork

  /** The older activation time wins, and `ready` wins a tie. */
  function PickNext(ready: ZSet, due: ZSet): Pick {
    if ready == map[] && due == map[] then NoWork
    else if ready != map[] && (due == map[] || ready[First(ready)] <= due[First(due)]) then FromReady(First(ready))
    else FromScheduled(First(due))
  }

  function Take(s: State, pick: Pick): State {
    match pick
    case FromReady(job) => s.(ready := s.ready - {job})
    case FromScheduled(job) => s.(scheduled := s.scheduled - {job})
    case NoWork => s
  }

  function Lease(s: State, job: string, worker: string, token: string, deadline: int): State {
    s.(leased := s.leased[job := deadline],
       leaseMeta := s.leaseMeta[job := PackLease(worker, token)],
       workerLeases := Increment(s.workerLeases, worker))
  }

  /** The outer loop of a reservation: up to `capacity` rounds, one token for each grant. A round that finds no
      token left has already taken its job out of the source set. */
  function GrantLoop(s: State, worker: string, now: int, capacity: nat, deadline: int, tokens: seq<string>)
    : (State, seq<Grant>)
    decreases capacity
  {
    if capacity == 0 then (s, [])
    else
      var clean := DropDuplicates(s, now);
      var pick := PickNext(clean.ready, UpTo(clean.scheduled, now));
      var taken := Take(clean, pick);
      if pick == NoWork || tokens == [] then (taken, [])
      else
        var (t, grants) :=
          GrantLoop(Lease(taken, pick.job, worker, tokens[0], deadline), worker, now, capacity - 1, deadline, tokens[1..]);
        (t, [Grant(pick.job, tokens[0])] + grants)
  }

  /** One round of `GrantLoop`. */
  lemma GrantLoopUnfold(s: State, worker: string, now: int, capacity: nat, deadline: int, tokens: seq<string>)
    ensures capacity == 0 ==> GrantLoop(s, worker, now, capacity, deadline, tokens) == (s, [])
    ensures capacity > 0 ==>
              var clean := DropDuplicates(s, now);
              var pick := PickNext(clean.ready, UpTo(clean.scheduled, now));
              var taken := Take(clean, pick);
              GrantLoop(s, worker, now, capacity, deadline, tokens) ==
              if pick == NoWork || tokens == [] then (taken, [])
              else
                var next := GrantLoop(Lease(taken, pick.job, worker, tokens[0], deadline), worker, now, capacity - 1,
                                      deadline, tokens[1..]);
                (next.0, [Grant(pick.job, tokens[0])] + next.1)
  {
  }

  /** The earliest schedule after `bound`. */
  function EarliestAfter(scheduled: ZSet, bound: int): Option<int> {
    var later := map j | j in scheduled && scheduled[j] > bound :: scheduled[j];
    if later == map[] then None else Some(later[First(later)])
  }

  /** The hint of a reservation, 0 if there is none. The script writes its bound as Lua prints numbers by itself. */
  function NextSchedule(scheduled: ZSet, now: int): int {
    match EarliestAfter(scheduled, LuaValue(now))
    case None => 0
    case Some(at) => at
  }

  /** Pins the policy of the namespace and registers the worker. */
  function Register(s: State, worker: string, now: int, policyKey: string, record: string): State {
    s.(policy := Some(policyKey),
       lastSeen := s.lastSeen[worker := now],
       workerConfigs := s.workerConfigs[worker := record])
  }

  function Reserve(s: State, worker: string, now: int, capacity: nat, duration: int, policyKey: string, record: string,
                   tokens: seq<string>): (State, Reply)
  {
    if s.policy != None && s.policy != Some(policyKey) then (s, PolicyMismatch)
    else
      var (t, grants) :=
        GrantLoop(Register(s, worker, now, policyKey, record), worker, now, capacity, now + duration, tokens);
      (t, Reserved(grants, NextSchedule(t.scheduled, now)))
  }

  /** The delete half of a purge: `jobs` is whatever an earlier read selected. */
  function PurgeFailed(s: State, jobs: set<string>): State {
    s.(failed := s.failed - jobs, failures := s.failures - jobs)
  }

  /** The delete half of the stale-worker cleanup. */
  function PruneWorkers(s: State, workers: set<string>): State {
    s.(lastSeen := s.lastSeen - workers,
       workerConfigs := s.workerConfigs - workers,
       workerLeases := s.workerLeases - workers)
  }
}
