/** The namespace as the object the scripts mutate, one method for each script, with the scripts' own control flow.
    A method is atomic: Redis runs a script without interleaving. */
module Store {
  import opened Wrappers
  import opened SortedSets
  import opened Codec
  import opened Policy
  import opened Decimal
  import opened LuaNumbers
  import opened Queue
  import Scripts

  class Namespace {
    var policy: Option<string>
    var ready: ZSet
    var scheduled: ZSet
    var leased: ZSet
    var failed: ZSet
    var leaseMeta: map<string, string>
    var failures: map<string, int>
    var workerLeases: map<string, int>
    var rerun: set<string>
    var lastSeen: ZSet
    var workerConfigs: map<string, string>

    /** The contents of the namespace as a value. */
    function Contents(): State
      reads this
    {
      State(policy, ready, scheduled, leased, failed, leaseMeta, failures, workerLeases, rerun, lastSeen, workerConfigs)
    }

    constructor ()
      ensures Contents() == EMPTY
    {
      policy := None;
      ready, scheduled, leased, failed := map[], map[], map[], map[];
      leaseMeta, failures, workerLeases, rerun := map[], map[], map[], {};
      lastSeen, workerConfigs := map[], map[];
    }

    method EnqueueOrReschedule(op: EnqueueOp, job: string, now: int, requested: int, mode: ReplaceMode)
      returns (reply: Reply)
      modifies this
      ensures (Contents(), reply) == Scripts.Enqueue(old(Contents()), op, job, now, requested, mode)
    {
      var place := PlaceOf(Contents(), job);
      if op == Reschedule {
        if place == Absent {
          return NotFound;
        }
        if place == Leased || place == Failed {
          return InvalidState(place);
        }
        reply := MoveWaiting(job, now, requested, mode);
        return;
      }
      var wasFailed := place == Failed;
      if wasFailed {
        failed := failed - {job};
        failures := failures - {job};
        rerun := rerun - {job};
        place := Absent;
        assert Contents() == Scripts.Reactivate(old(Contents()), job);
      }
      if op == EnqueueImmediate {
        reply := PlaceNow(place, wasFailed, job, now);
        return;
      }
      if place == Leased {
        return InvalidState(Leased);
      }
      if place == Absent {
        var targetPlace := TargetPlace(now, requested);
        assert wasFailed ==> rerun - {job} == rerun;
        rerun := rerun - {job};
        AddTarget(targetPlace, TargetScore(now, requested), job);
        var scheduleValue := if targetPlace == Scheduled then requested else 0;
        if wasFailed {
          return Placed(Updated, targetPlace, LuaNumber(scheduleValue));
        }
        return Placed(Created, targetPlace, FormatInt(scheduleValue));
      }
      reply := MoveWaiting(job, now, requested, mode);
    }

    /** The immediate branch, after a failed job has been reactivated. */
    method PlaceNow(place: Place, wasFailed: bool, job: string, now: int) returns (reply: Reply)
      requires place != Failed && (wasFailed ==> place == Absent)
      modifies this`scheduled, this`rerun, this`ready
      ensures place == Ready ==> Contents() == old(Contents()) && reply == Placed(Unchanged, Ready, "0")
      ensures place == Leased ==>
                && Contents() == old(Contents()).(rerun := old(rerun) + {job})
                && reply == Placed(if job in old(rerun) then Unchanged else Updated, Leased, "0")
      ensures place == Scheduled ==>
                && Contents() == old(Contents()).(scheduled := old(scheduled) - {job}, rerun := old(rerun) - {job},
                                                  ready := old(ready)[job := now])
                && reply == Placed(Updated, Ready, "0")
      ensures place == Absent ==>
                && Contents() == old(Contents()).(ready := old(ready)[job := now])
                && reply == Placed(if wasFailed then Updated else Created, Ready, "0")
    {
      if place == Ready {
        return Placed(Unchanged, Ready, "0");
      }
      if place == Leased {
        var added := job !in rerun;
        rerun := rerun + {job};
        return Placed(if added then Updated else Unchanged, Leased, "0");
      }
      if place == Scheduled {
        scheduled := scheduled - {job};
        rerun := rerun - {job};
        ready := ready[job := now];
        return Placed(Updated, Ready, "0");
      }
      ready := ready[job := now];
      return Placed(if wasFailed then Updated else Created, Ready, "0");
    }

    /** Replaces the placement of a waiting job. */
    method MoveWaiting(job: string, now: int, requested: int, mode: ReplaceMode) returns (reply: Reply)
      requires job in ready || job in scheduled
      modifies this`ready, this`scheduled, this`rerun
      ensures (Contents(), reply) == Scripts.Move(old(Contents()), job, now, requested, mode)
    {
      var place := PlaceOf(Contents(), job);
      var targetPlace, targetScore := TargetPlace(now, requested), TargetScore(now, requested);
      var scheduleValue := if targetPlace == Scheduled then requested else 0;
      var score := if place == Ready then ready[job] else scheduled[job];
      if !ShouldReplace(mode, targetScore, score) {
        return Placed(Unchanged, place, FormatInt(if place == Scheduled then score else 0));
      }
      if place == targetPlace && score == targetScore {
        return Placed(Unchanged, place, FormatInt(scheduleValue));
      }
      RemoveWaiting(place, job);
      rerun := rerun - {job};
      AddTarget(targetPlace, targetScore, job);
      return Placed(Updated, targetPlace, FormatInt(scheduleValue));
    }

    method RemoveWaiting(place: Place, job: string)
      modifies this`ready, this`scheduled
      ensures ready == if place == Ready then old(ready) - {job} else old(ready)
      ensures scheduled == if place == Scheduled then old(scheduled) - {job} else old(scheduled)
    {
      if place == Ready {
        ready := ready - {job};
      } else if place == Scheduled {
        scheduled := scheduled - {job};
      }
    }

    method AddTarget(place: Place, score: int, job: string)
      modifies this`ready, this`scheduled
      ensures Contents() == Scripts.Put(old(Contents()), job, place, score)
    {
      if place == Ready {
        ready := ready[job := score];
      } else {
        scheduled := scheduled[job := score];
      }
    }

    /** The lines every way out of a lease shares: index, record, rerun mark and the holder's counter. */
    method ReleaseLease(job: string, holder: Option<string>)
      modifies this`leased, this`leaseMeta, this`rerun, this`workerLeases
      ensures Contents() == Scripts.Release(old(Contents()), job, holder)
    {
      leased := leased - {job};
      leaseMeta := leaseMeta - {job};
      rerun := rerun - {job};
      DecrementWorker(holder);
    }

    method DecrementWorker(holder: Option<string>)
      modifies this`workerLeases
      ensures workerLeases == DecrementHolder(old(workerLeases), holder)
    {
      if holder.Some? {
        var count := Counter(workerLeases, holder.value) - 1;
        workerLeases := workerLeases[holder.value := count];
        if count <= 0 {
          workerLeases := workerLeases - {holder.value};
        }
      }
    }

    method Heartbeat(job: string, worker: string, token: string, now: int, deadline: int) returns (reply: Reply)
      modifies this
      ensures (Contents(), reply) == Scripts.Heartbeat(old(Contents()), job, worker, token, now, deadline)
    {
      hide PackLease, Decrement, CappedDelay;
      var expected := PackLease(worker, token);
      if job !in leaseMeta || leaseMeta[job] != expected || job !in leased {
        return LeaseMismatch;
      }
      leased := leased[job := deadline];
      lastSeen := lastSeen[worker := now];
      return Done;
    }

    method Ack(job: string, worker: string, token: string, now: int) returns (reply: Reply)
      modifies this
      ensures (Contents(), reply) == Scripts.Ack(old(Contents()), job, worker, token, now)
    {
      hide PackLease, Decrement, CappedDelay;
      var expected := PackLease(worker, token);
      if job !in leaseMeta || leaseMeta[job] != expected || job !in leased {
        return LeaseMismatch;
      }
      var marked := job in rerun;
      ReleaseLease(job, Some(worker));
      failures := failures - {job};
      if marked {
        ready := ready[job := now];
      }
      return Done;
    }

    method CompleteAndReschedule(job: string, worker: string, token: string, now: int, requested: int)
      returns (reply: Reply)
      modifies this
      ensures (Contents(), reply) == Scripts.Complete(old(Contents()), job, worker, token, now, requested)
    {
      hide PackLease, Decrement, CappedDelay;
      var expected := PackLease(worker, token);
      if job !in leaseMeta || leaseMeta[job] != expected || job !in leased {
        return LeaseMismatch;
      }
      var marked := job in rerun;
      ReleaseLease(job, Some(worker));
      failures := failures - {job};
      if marked {
        ready := ready[job := now];
        return Placed(Updated, Ready, "0");
      }
      if requested == 0 || requested <= now {
        ready := ready[job := now];
        return Placed(Updated, Ready, "0");
      }
      scheduled := scheduled[job := requested];
      return Placed(Updated, Scheduled, FormatInt(requested));
    }

    method FailOrRetry(job: string, worker: string, token: string, now: int, terminal: bool, retry: RetryPolicy)
      returns (reply: Reply)
      modifies this
      ensures (Contents(), reply) == Scripts.Fail(old(Contents()), job, worker, token, now, terminal, retry)
    {
      hide PackLease, Decrement, CappedDelay;
      var expected := PackLease(worker, token);
      if job !in leaseMeta || leaseMeta[job] != expected || job !in leased {
        return LeaseMismatch;
      }
      ReleaseLease(job, Some(worker));
      failures := Increment(failures, job);
      reply := SettleFailure(job, failures[job], now, terminal, retry);
    }

    /** The decision after a counted failure. */
    method SettleFailure(job: string, failureCount: int, now: int, terminal: bool, retry: RetryPolicy)
      returns (reply: Reply)
      modifies this`ready, this`scheduled, this`failed
      ensures (Contents(), reply) == Scripts.Settle(old(Contents()), job, failureCount, now, terminal, retry)
    {
      if terminal {
        failed := failed[job := now];
        return Counted(failureCount, Failed, 0);
      }
      var shouldRetry := true;
      if retry.Never? {
        shouldRetry := false;
      } else if retry.Count? && failureCount > retry.maxRetries {
        shouldRetry := false;
      }
      if !shouldRetry {
        failed := failed[job := now];
        return Counted(failureCount, Failed, 0);
      }

      var backoff := BackoffOf(retry);
      if backoff.NoBackoff? {
        ready := ready[job := now];
        return Counted(failureCount, Ready, 0);
      }
      if backoff.Fixed? {
        var retryAt := now + backoff.delayMs * 1000;
        if backoff.delayMs == 0 {
          ready := ready[job := now];
          return Counted(failureCount, Ready, 0);
        }
        scheduled := scheduled[job := retryAt];
        return Counted(failureCount, Scheduled, retryAt);
      }
      var delayMs := ExponentialDelay(backoff.initialMs, backoff.multiplier, backoff.maxMs, failureCount);
      if delayMs == 0 {
        ready := ready[job := now];
        return Counted(failureCount, Ready, 0);
      }
      var retryAt := now + delayMs * 1000;
      scheduled := scheduled[job := retryAt];
      return Counted(failureCount, Scheduled, retryAt);
    }

    method ReapExpired(now: int, limit: nat) returns (reply: Reply)
      modifies this
      ensures (Contents(), reply)
           == var (t, n) := Scripts.Reap(old(Contents()), now, limit); (t, Reaped(n))
    {
      hide Scripts.Reap, Scripts.ReapOne;
      ghost var start := Contents();
      var reaped := 0;
      while reaped < limit
        invariant reaped <= limit
        invariant Scripts.Reap(start, now, limit).0 == Scripts.Reap(Contents(), now, limit - reaped).0
        invariant Scripts.Reap(start, now, limit).1 == Scripts.Reap(Contents(), now, limit - reaped).1 + reaped
      {
        Scripts.ReapUnfold(Contents(), now, limit - reaped);
        var candidates := UpTo(leased, now);
        if candidates == map[] {
          break;
        }
        RecoverLease(First(candidates), now);
        reaped := reaped + 1;
      }
      Scripts.ReapUnfold(Contents(), now, limit - reaped);
      return Reaped(reaped);
    }

    /** One round of the reap loop: an expired lease goes back to `ready`. */
    method RecoverLease(job: string, now: int)
      modifies this
      ensures Contents() == Scripts.ReapOne(old(Contents()), job, now)
    {
      ReleaseLease(job, if job in leaseMeta then WorkerFromMeta(leaseMeta[job]) else None);
      ready := ready[job := now];
    }

    method OperatorTransition(op: OperatorOp, job: string, now: int) returns (reply: Reply)
      modifies this
      ensures (Contents(), reply) == Scripts.Operator(old(Contents()), op, job, now)
    {
      hide Scripts.Force, Scripts.Reactivate;
      var place := PlaceOf(Contents(), job);
      if place == Absent {
        return NotFound;
      }
      if op == Cancel {
        if place == Scheduled {
          scheduled := scheduled - {job};
          failures := failures - {job};
          rerun := rerun - {job};
          return Done;
        }
        if place == Failed {
          DropFailed(job);
          return Done;
        }
        return InvalidState(place);
      }
      if op == Requeue || op == RetryNow {
        if place == Leased {
          return InvalidState(place);
        }
        if place == Ready {
          return Done;
        }
        if place == Scheduled {
          scheduled := scheduled - {job};
          rerun := rerun - {job};
          ready := ready[job := now];
          return Done;
        }
        ReviveFailed(job, now);
        return Done;
      }
      if op == ForceRetry {
        if place != Failed {
          return InvalidState(place);
        }
        ReviveFailed(job, now);
        return Done;
      }
      if place != Leased {
        return InvalidState(place);
      }
      reply := ForceLeased(op, job, now);
    }

    /** The failed state of a job goes, with its counter. */
    method DropFailed(job: string)
      modifies this
      ensures Contents() == Scripts.Reactivate(old(Contents()), job)
    {
      failed := failed - {job};
      failures := failures - {job};
      rerun := rerun - {job};
    }

    /** A failed job becomes ready again, with a fresh failure lifecycle. */
    method ReviveFailed(job: string, now: int)
      modifies this
      ensures Contents() == Scripts.Revive(old(Contents()), job, now).0
    {
      DropFailed(job);
      ready := ready[job := now];
    }

    /** The operator ends a lease on behalf of its holder. */
    method ForceLeased(op: OperatorOp, job: string, now: int) returns (reply: Reply)
      modifies this
      ensures (Contents(), reply) == Scripts.Force(old(Contents()), op, job, now)
    {
      hide WorkerFromMeta, Decrement;
      if job !in leaseMeta {
        return NotFound;
      }
      var holder := WorkerFromMeta(leaseMeta[job]);
      if holder == None {
        return NotFound;
      }
      var marked := job in rerun;
      ReleaseLease(job, holder);
      if op == ForceAck {
        failures := failures - {job};
        if marked {
          ready := ready[job := now];
        }
        return Done;
      }
      failures := Increment(failures, job);
      failed := failed[job := now];
      return Done;
    }

    method Reserve(worker: string, now: int, capacity: nat, duration: int, policyKey: string, record: string,
                   tokens: seq<string>)
      returns (reply: Reply)
      modifies this
      ensures (Contents(), reply)
           == Scripts.Reserve(old(Contents()), worker, now, capacity, duration, policyKey, record, tokens)
    {
      hide Scripts.GrantLoop, Scripts.NextSchedule;
      if policy == None {
        policy := Some(policyKey);
      } else if policy != Some(policyKey) {
        return PolicyMismatch;
      }
      lastSeen := lastSeen[worker := now];
      workerConfigs := workerConfigs[worker := record];
      assert Contents() == Scripts.Register(old(Contents()), worker, now, policyKey, record);
      var granted := GrantRounds(worker, now, capacity, now + duration, tokens);
      reply := Reserved(granted, Scripts.NextSchedule(scheduled, now));
    }

    /** The merge loop of a reservation. */
    method GrantRounds(worker: string, now: int, capacity: nat, deadline: int, tokens: seq<string>)
      returns (granted: seq<Grant>)
      modifies this`ready, this`scheduled, this`leased, this`leaseMeta, this`workerLeases
      ensures (Contents(), granted) == Scripts.GrantLoop(old(Contents()), worker, now, capacity, deadline, tokens)
    {
      ghost var (final, all) := Scripts.GrantLoop(Contents(), worker, now, capacity, deadline, tokens);
      hide Scripts.GrantLoop, Scripts.PickNext, Scripts.DropDuplicates, Scripts.Take, Scripts.Lease;
      granted := [];
      var left := tokens;
      var round := 0;
      while round < capacity
        invariant round <= capacity && |granted| + |left| == |tokens| && left == tokens[|granted|..]
        invariant Scripts.GrantLoop(Contents(), worker, now, capacity - round, deadline, left).0 == final
        invariant granted + Scripts.GrantLoop(Contents(), worker, now, capacity - round, deadline, left).1 == all
      {
        ghost var before := Contents();
        Scripts.GrantLoopUnfold(before, worker, now, capacity - round, deadline, left);
        DropDuplicates(now);
        var pick := TakeNext(now);
        if pick == Scripts.NoWork || |granted| == |tokens| {
          assert left == [] <==> |granted| == |tokens|;
          assert granted + [] == granted;
          assert Scripts.GrantLoop(before, worker, now, capacity - round, deadline, left) == (Contents(), []);
          return;
        }
        var token := tokens[|granted|];
        LeaseJob(pick.job, worker, token, deadline);
        ghost var (t, more) := Scripts.GrantLoop(Contents(), worker, now, capacity - round - 1, deadline, left[1..]);
        assert Scripts.GrantLoop(before, worker, now, capacity - round, deadline, left)
            == (t, [Grant(pick.job, token)] + more);
        assert granted + ([Grant(pick.job, token)] + more) == granted + [Grant(pick.job, token)] + more;
        granted := granted + [Grant(pick.job, token)];
        left := left[1..];
        round := round + 1;
      }
      Scripts.GrantLoopUnfold(Contents(), worker, now, 0, deadline, left);
      assert granted + [] == granted;
    }

    /** Chooses between the two heads and takes the winner out of its source set. */
    method TakeNext(now: int) returns (pick: Scripts.Pick)
      modifies this`ready, this`scheduled
      ensures pick == Scripts.PickNext(old(ready), UpTo(old(scheduled), now))
      ensures Contents() == Scripts.Take(old(Contents()), pick)
    {
      var due := UpTo(scheduled, now);
      if ready == map[] && due == map[] {
        return Scripts.NoWork;
      }
      if ready != map[] && (due == map[] || ready[First(ready)] <= due[First(due)]) {
        pick := Scripts.FromReady(First(ready));
        ready := ready - {pick.job};
      } else {
        pick := Scripts.FromScheduled(First(due));
        scheduled := scheduled - {pick.job};
      }
    }

    method LeaseJob(job: string, worker: string, token: string, deadline: int)
      modifies this`leased, this`leaseMeta, this`workerLeases
      ensures Contents() == Scripts.Lease(old(Contents()), job, worker, token, deadline)
    {
      leased := leased[job := deadline];
      leaseMeta := leaseMeta[job := PackLease(worker, token)];
      workerLeases := Increment(workerLeases, worker);
    }

    /** The inner loop of a reservation. */
    method DropDuplicates(now: int)
      modifies this`scheduled
      ensures Contents() == Scripts.DropDuplicates(old(Contents()), now)
    {
      var due := UpTo(scheduled, now);
      while due != map[] && (First(due) in ready || First(due) in leased)
        invariant due == UpTo(scheduled, now)
        invariant Scripts.DropDuplicates(Contents(), now) == Scripts.DropDuplicates(old(Contents()), now)
        decreases |scheduled|
      {
        var job := First(due);
        assert (scheduled - {job}).Keys == scheduled.Keys - {job};
        scheduled := scheduled - {job};
        due := UpTo(scheduled, now);
      }
    }

    /** The delete pipeline of a purge, which Redis runs atomically after an earlier read. */
    method PurgeFailed(jobs: set<string>)
      modifies this
      ensures Contents() == Scripts.PurgeFailed(old(Contents()), jobs)
    {
      failed := failed - jobs;
      failures := failures - jobs;
    }

    /** The delete pipeline of the stale-worker cleanup, atomic as well. */
    method PruneWorkers(stale: seq<string>)
      modifies this
      ensures Contents() == Scripts.PruneWorkers(old(Contents()), set worker | worker in stale)
    {
      ghost var done := {};
      PruneNone(Contents());
      var i := 0;
      while i < |stale|
        invariant 0 <= i <= |stale|
        invariant forall worker :: worker in done <==> worker in stale[..i]
        invariant Contents() == Scripts.PruneWorkers(old(Contents()), done)
      {
        PruneOneMore(old(Contents()), done, stale[i]);
        lastSeen := lastSeen - {stale[i]};
        workerConfigs := workerConfigs - {stale[i]};
        workerLeases := workerLeases - {stale[i]};
        done := done + {stale[i]};
        i := i + 1;
      }
      assert done == set worker | worker in stale;
    }
  }

  lemma PruneNone(s: State)
    ensures Scripts.PruneWorkers(s, {}) == s
  {
    assert s.lastSeen - {} == s.lastSeen && s.workerConfigs - {} == s.workerConfigs;
    assert s.workerLeases - {} == s.workerLeases;
  }

  lemma PruneOneMore(s: State, done: set<string>, worker: string)
    ensures Scripts.PruneWorkers(s, done + {worker}) == Scripts.PruneWorkers(Scripts.PruneWorkers(s, done), {worker})
  {
    assert s.lastSeen - (done + {worker}) == s.lastSeen - done - {worker};
    assert s.workerConfigs - (done + {worker}) == s.workerConfigs - done - {worker};
    assert s.workerLeases - (done + {worker}) == s.workerLeases - done - {worker};
  }

  /** The script's own loop over earlier failures. */
  method ExponentialDelay(initial: nat, multiplier: nat, max: nat, failures: int) returns (delayMs: nat)
    ensures delayMs == CappedDelay(initial, multiplier, max, failures)
  {
    delayMs := initial;
    var n := 1;
    while n <= failures - 1
      invariant failures >= 1 ==> n <= failures
      invariant 1 <= n
      invariant failures >= 1 ==> delayMs == CappedDelay(initial, multiplier, max, n)
      invariant failures < 1 ==> n == 1 && delayMs == initial
    {
      delayMs := Min(delayMs * multiplier, max);
      n := n + 1;
    }
  }
}
