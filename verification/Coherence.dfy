/** The redundant indexes of a namespace agree after every step. */
module Coherence {
  import opened Wrappers
  import opened SortedSets
  import opened Codec
  import opened Policy
  import opened Queue
  import opened Invariants
  import opened Steps
  import Scripts

  /** The same invariant in terms of whole indexes. */
  lemma CoherentIndexes(s: State)
    requires Coherent(s)
    ensures OnePlace(s)
    ensures s.ready.Keys !! s.scheduled.Keys !! s.leased.Keys !! s.failed.Keys
    ensures s.leaseMeta.Keys == s.leased.Keys
    ensures s.rerun <= s.leased.Keys
    ensures s.failed.Keys <= s.failures.Keys <= Jobs(s)
  {
    hide PackLease;
    forall j ensures OnePlaceAt(s, j) {
      assert CoherentAt(s, j);
    }
    PlacesDisjoint(s);
    forall j | j in s.leaseMeta || j in s.leased || j in s.rerun ensures j in s.leased && j in s.leaseMeta {
      assert CoherentAt(s, j);
    }
    forall j | j in s.failed || j in s.failures ensures j in s.failures && j in Jobs(s) {
      assert CoherentAt(s, j);
    }
  }

  lemma PlacesDisjoint(s: State)
    requires OnePlace(s)
    ensures s.ready.Keys !! s.scheduled.Keys !! s.leased.Keys !! s.failed.Keys
  {
    assert forall j | j in s.ready || j in s.scheduled || j in s.leased :: OnePlaceAt(s, j);
  }

  lemma LeaveWaiting(s: State, job: string)
    requires Coherent(s)
    ensures job in s.ready ==> Detached(s.(ready := s.ready - {job}), job)
    ensures job in s.scheduled ==> Detached(s.(scheduled := s.scheduled - {job}), job)
    ensures PlaceOf(s, job) == Absent ==> Detached(s, job) && job !in s.failures
  {
    hide PackLease;
    assert CoherentAt(s, job);
    forall j | j != job ensures CoherentAt(s.(ready := s.ready - {job}), j) {
      assert CoherentAt(s, j);
    }
    forall j | j != job ensures CoherentAt(s.(scheduled := s.scheduled - {job}), j) {
      assert CoherentAt(s, j);
    }
  }

  lemma LeaveFailed(s: State, job: string)
    requires Coherent(s) && job in s.failed
    ensures Detached(Scripts.Reactivate(s, job), job) && job !in Scripts.Reactivate(s, job).failures
  {
    hide PackLease;
    assert CoherentAt(s, job);
    forall j | j != job ensures CoherentAt(Scripts.Reactivate(s, job), j) {
      assert CoherentAt(s, j);
    }
  }

  lemma LeaveLease(s: State, job: string, holder: Option<string>)
    requires Coherent(s) && job in s.leased
    ensures Detached(Scripts.Release(s, job, holder), job)
  {
    hide PackLease, Decrement;
    assert CoherentAt(s, job);
    forall j | j != job ensures CoherentAt(Scripts.Release(s, job, holder), j) {
      assert CoherentAt(s, j);
    }
  }

  /** Without its counter a detached job is gone for good; a rerun mark it cannot have. */
  lemma Forget(s: State, job: string)
    requires Detached(s, job)
    ensures Detached(s.(failures := s.failures - {job}), job) && Coherent(s.(failures := s.failures - {job}))
    ensures s.(rerun := s.rerun - {job}) == s
  {
    hide PackLease;
    assert s.rerun - {job} == s.rerun;
    var t := s.(failures := s.failures - {job});
    forall j ensures CoherentAt(t, j) {
      if j != job {
        assert CoherentAt(s, j);
      }
    }
  }

  lemma Count(s: State, job: string)
    requires Detached(s, job)
    ensures Detached(s.(failures := Increment(s.failures, job)), job)
  {
    hide PackLease;
    forall j | j != job ensures CoherentAt(s.(failures := Increment(s.failures, job)), j) {
      assert CoherentAt(s, j);
    }
  }

  lemma EnterReady(s: State, job: string, score: int)
    requires Detached(s, job)
    ensures Coherent(s.(ready := s.ready[job := score]))
  {
    hide PackLease;
    var t := s.(ready := s.ready[job := score]);
    forall j ensures CoherentAt(t, j) {
      if j != job {
        assert CoherentAt(s, j);
      }
    }
  }

  lemma EnterScheduled(s: State, job: string, score: int)
    requires Detached(s, job)
    ensures Coherent(s.(scheduled := s.scheduled[job := score]))
  {
    hide PackLease;
    var t := s.(scheduled := s.scheduled[job := score]);
    forall j ensures CoherentAt(t, j) {
      if j != job {
        assert CoherentAt(s, j);
      }
    }
  }

  lemma EnterFailed(s: State, job: string, score: int)
    requires Detached(s, job) && job in s.failures
    ensures Coherent(s.(failed := s.failed[job := score]))
  {
    hide PackLease;
    var t := s.(failed := s.failed[job := score]);
    forall j ensures CoherentAt(t, j) {
      if j != job {
        assert CoherentAt(s, j);
      }
    }
  }

  lemma Enter(s: State, job: string, score: int)
    requires Detached(s, job)
    ensures Coherent(s.(ready := s.ready[job := score]))
    ensures Coherent(s.(scheduled := s.scheduled[job := score]))
    ensures job in s.failures ==> Coherent(s.(failed := s.failed[job := score]))
  {
    hide Coherent, Detached;
    EnterReady(s, job, score);
    EnterScheduled(s, job, score);
    if job in s.failures {
      EnterFailed(s, job, score);
    }
  }

  lemma EnterLease(s: State, job: string, worker: string, token: string, deadline: int)
    requires Detached(s, job)
    ensures Coherent(Scripts.Lease(s, job, worker, token, deadline))
  {
    assert IsRecord(PackLease(worker, token));
    hide PackLease, Increment, IsRecord;
    var t := Scripts.Lease(s, job, worker, token, deadline);
    assert CoherentAt(t, job);
    forall j | j != job ensures CoherentAt(t, j) {
      assert CoherentAt(s, j);
    }
  }

  lemma MarkRerun(s: State, job: string)
    requires Coherent(s) && job in s.leased
    ensures Coherent(s.(rerun := s.rerun + {job}))
  {
    hide PackLease;
    forall j ensures CoherentAt(s.(rerun := s.rerun + {job}), j) {
      assert CoherentAt(s, j);
    }
  }

  lemma ImmediateCoherent(s: State, job: string, now: int)
    requires Coherent(s)
    ensures Coherent(Scripts.Immediate(s, job, now).0)
  {
    hide Coherent, Detached;
    LeaveWaiting(s, job);
    match PlaceOf(s, job)
    case Ready =>
    case Absent => Enter(s, job, now);
    case Leased => MarkRerun(s, job);
    case Failed =>
      LeaveFailed(s, job);
      Enter(Scripts.Reactivate(s, job), job, now);
    case Scheduled =>
      var t := s.(scheduled := s.scheduled - {job});
      Forget(t, job);
      Enter(t, job, now);
  }

  lemma MoveCoherent(s: State, job: string, now: int, requested: int, mode: ReplaceMode)
    requires Coherent(s) && (job in s.ready || job in s.scheduled)
    ensures Coherent(Scripts.Move(s, job, now, requested, mode).0)
  {
    hide Coherent, Detached, TargetScore, TargetPlace, ShouldReplace;
    LeaveWaiting(s, job);
    var t := if job in s.ready then s.(ready := s.ready - {job}) else s.(scheduled := s.scheduled - {job});
    Forget(t, job);
    assert Scripts.LeaveWaiting(s, job) == t.(rerun := t.rerun - {job});
    Enter(t, job, TargetScore(now, requested));
  }

  lemma ScheduleCoherent(s: State, job: string, now: int, requested: int, mode: ReplaceMode)
    requires Coherent(s)
    ensures Coherent(Scripts.Schedule(s, job, now, requested, mode).0)
  {
    hide Coherent, Detached, TargetScore, TargetPlace, Scripts.Move;
    LeaveWaiting(s, job);
    match PlaceOf(s, job)
    case Leased =>
    case Failed =>
      LeaveFailed(s, job);
      Enter(Scripts.Reactivate(s, job), job, TargetScore(now, requested));
    case Absent =>
      Forget(s, job);
      Enter(s, job, TargetScore(now, requested));
    case _ => MoveCoherent(s, job, now, requested, mode);
  }

  lemma EnqueueCoherent(s: State, op: EnqueueOp, job: string, now: int, requested: int, mode: ReplaceMode)
    requires Coherent(s)
    ensures Coherent(Scripts.Enqueue(s, op, job, now, requested, mode).0)
  {
    hide Coherent, Scripts.Immediate, Scripts.Schedule, Scripts.Move;
    ImmediateCoherent(s, job, now);
    ScheduleCoherent(s, job, now, requested, mode);
    if job in s.ready || job in s.scheduled {
      MoveCoherent(s, job, now, requested, mode);
    }
  }

  lemma FinishCoherent(s: State, job: string, holder: Option<string>, score: int)
    requires Coherent(s) && job in s.leased
    ensures var t := Scripts.Finish(s, job, holder);
            && Coherent(t)
            && Coherent(t.(ready := t.ready[job := score]))
            && Coherent(t.(scheduled := t.scheduled[job := score]))
  {
    hide Coherent, Detached;
    LeaveLease(s, job, holder);
    Forget(Scripts.Release(s, job, holder), job);
    Enter(Scripts.Finish(s, job, holder), job, score);
  }

  lemma CountCoherent(s: State, job: string, holder: Option<string>, score: int)
    requires Coherent(s) && job in s.leased
    ensures var r := Scripts.Release(s, job, holder);
            var t := r.(failures := Increment(r.failures, job));
            && Coherent(t.(ready := t.ready[job := score]))
            && Coherent(t.(scheduled := t.scheduled[job := score]))
            && Coherent(t.(failed := t.failed[job := score]))
  {
    hide Coherent, Detached, Decrement;
    var r := Scripts.Release(s, job, holder);
    LeaveLease(s, job, holder);
    Count(r, job);
    Enter(r.(failures := Increment(r.failures, job)), job, score);
  }

  lemma CompletionCoherent(s: State, op: Op)
    requires Coherent(s)
    requires op.AckLease? || op.CompleteLease? || op.FailLease?
    ensures Coherent(Apply(s, op).0)
  {
    hide Coherent, PackLease, DelayMs, Retries, TargetPlace, Decrement;
    if Holds(s, op.job, op.worker, op.token) {
      FinishCoherent(s, op.job, Some(op.worker), op.now);
      CountCoherent(s, op.job, Some(op.worker), op.now);
      match op
      case CompleteLease(_, _, _, _, requested) => FinishCoherent(s, op.job, Some(op.worker), requested);
      case FailLease(job, _, _, now, _, policy) =>
        var n := Counter(Increment(s.failures, job), job);
        CountCoherent(s, job, Some(op.worker), now + DelayMs(BackoffOf(policy), n) * 1000);
      case _ =>
    }
  }

  lemma HeartbeatCoherent(s: State, job: string, worker: string, token: string, now: int, deadline: int)
    requires Coherent(s)
    ensures Coherent(Scripts.Heartbeat(s, job, worker, token, now, deadline).0)
  {
    hide PackLease;
    forall j ensures CoherentAt(Scripts.Heartbeat(s, job, worker, token, now, deadline).0, j) {
      assert CoherentAt(s, j);
    }
  }

  lemma ReapOneCoherent(s: State, job: string, now: int)
    requires Coherent(s) && job in s.leased
    ensures Coherent(Scripts.ReapOne(s, job, now))
  {
    hide Coherent, Detached, HolderOf;
    LeaveLease(s, job, HolderOf(s, job));
    Enter(Scripts.Release(s, job, HolderOf(s, job)), job, now);
  }

  lemma {:induction false} ReapCoherent(s: State, now: int, limit: nat)
    requires Coherent(s)
    ensures Coherent(Scripts.Reap(s, now, limit).0)
    decreases limit
  {
    hide Coherent, Scripts.ReapOne;
    if limit > 0 && UpTo(s.leased, now) != map[] {
      var job := First(UpTo(s.leased, now));
      ReapOneCoherent(s, job, now);
      ReapCoherent(Scripts.ReapOne(s, job, now), now, limit - 1);
    }
  }

  lemma ForceCoherent(s: State, op: OperatorOp, job: string, now: int)
    requires Coherent(s) && job in s.leased
    ensures Coherent(Scripts.Force(s, op, job, now).0)
  {
    hide Coherent, HolderOf, Decrement;
    FinishCoherent(s, job, HolderOf(s, job), now);
    CountCoherent(s, job, HolderOf(s, job), now);
  }

  lemma ReviveCoherent(s: State, job: string, now: int)
    requires Coherent(s) && job in s.failed
    ensures Coherent(Scripts.Reactivate(s, job)) && Coherent(Scripts.Revive(s, job, now).0)
  {
    hide Coherent, Detached;
    var t := Scripts.Reactivate(s, job);
    LeaveFailed(s, job);
    Forget(t, job);
    assert t.failures - {job} == t.failures;
    EnterReady(t, job, now);
  }

  lemma OperatorCoherent(s: State, op: OperatorOp, job: string, now: int)
    requires Coherent(s)
    ensures Coherent(Scripts.Operator(s, op, job, now).0)
  {
    hide Coherent, Detached, Scripts.Force, Scripts.Revive;
    LeaveWaiting(s, job);
    match PlaceOf(s, job)
    case Absent =>
    case Ready =>
    case Leased => ForceCoherent(s, op, job, now);
    case Failed => ReviveCoherent(s, job, now);
    case Scheduled =>
      var t := s.(scheduled := s.scheduled - {job});
      Forget(t, job);
      EnterReady(t, job, now);
  }

  /** Every lease of a coherent state has a holder the scripts can decode. */
  lemma HolderIsKnown(s: State, job: string)
    requires Coherent(s) && job in s.leased
    ensures job in s.leaseMeta && HolderOf(s, job) != None
  {
    assert CoherentAt(s, job);
    var worker, token :| s.leaseMeta[job] == PackLease(worker, token);
    WorkerOfPacked(worker, token);
  }

  /** In a coherent state there is no duplicate to drop. */
  lemma NoDuplicates(s: State, now: int)
    requires OnePlace(s)
    ensures Scripts.DropDuplicates(s, now) == s
  {
    var due := UpTo(s.scheduled, now);
    if due != map[] {
      assert OnePlaceAt(s, First(due));
    }
  }

  lemma LeaseCoherent(s: State, pick: Scripts.Pick, worker: string, token: string, now: int, deadline: int)
    requires Coherent(s)
    requires pick == Scripts.PickNext(s.ready, UpTo(s.scheduled, now)) && pick != Scripts.NoWork
    ensures Coherent(Scripts.Lease(Scripts.Take(s, pick), pick.job, worker, token, deadline))
  {
    hide Coherent, Detached, Scripts.Lease;
    LeaveWaiting(s, pick.job);
    EnterLease(Scripts.Take(s, pick), pick.job, worker, token, deadline);
  }

  lemma {:induction false} GrantLoopCoherent(s: State, worker: string, now: int, capacity: nat, deadline: int, tokens: seq<string>)
    requires Coherent(s) && |tokens| >= capacity
    ensures Coherent(Scripts.GrantLoop(s, worker, now, capacity, deadline, tokens).0)
    decreases capacity
  {
    Scripts.GrantLoopUnfold(s, worker, now, capacity, deadline, tokens);
    hide Coherent, OnePlace, Scripts.GrantLoop, Scripts.PickNext, Scripts.Lease;
    if capacity > 0 {
      CoherentIndexes(s);
      NoDuplicates(s, now);
      var pick := Scripts.PickNext(s.ready, UpTo(s.scheduled, now));
      if pick != Scripts.NoWork {
        LeaseCoherent(s, pick, worker, tokens[0], now, deadline);
        GrantLoopCoherent(Scripts.Lease(Scripts.Take(s, pick), pick.job, worker, tokens[0], deadline),
                          worker, now, capacity - 1, deadline, tokens[1..]);
      }
    }
  }

  /** Worker registration and cleanup touch no job. */
  lemma RegisterCoherent(s: State, t: State)
    requires Coherent(s)
    requires t == s.(policy := t.policy, lastSeen := t.lastSeen, workerConfigs := t.workerConfigs,
                     workerLeases := t.workerLeases)
    ensures Coherent(t)
  {
    forall j ensures CoherentAt(t, j) {
      assert CoherentAt(s, j);
    }
  }

  /** A purge deletes whatever its earlier read selected, also jobs that have left `failed` since. */
  lemma PurgeCoherent(s: State, jobs: set<string>)
    requires Coherent(s)
    ensures Coherent(Scripts.PurgeFailed(s, jobs))
  {
    forall j ensures CoherentAt(Scripts.PurgeFailed(s, jobs), j) {
      assert CoherentAt(s, j);
    }
  }

  /** Index coherence is inductive over every step: one placement for each job, a record for each lease, rerun marks
      only on leased jobs, and no failure counter that outlives its job. */
  lemma StepCoherent(s: State, op: Op)
    requires Coherent(s) && EnoughTokens(op)
    ensures Coherent(Apply(s, op).0)
  {
    hide Coherent, Scripts.Enqueue, Scripts.Reap, Scripts.Operator, Scripts.GrantLoop,
         Scripts.Heartbeat, Scripts.Ack, Scripts.Complete, Scripts.Fail, Scripts.PurgeFailed;
    match op
    case EnqueueJob(e, job, now, requested, mode) => EnqueueCoherent(s, e, job, now, requested, mode);
    case ReserveJobs(worker, now, capacity, duration, policy, record, tokens) =>
      var t := Scripts.Register(s, worker, now, PolicyKey(policy), record);
      RegisterCoherent(s, t);
      GrantLoopCoherent(t, worker, now, capacity, now + duration, tokens);
    case ReapLeases(now, limit) => ReapCoherent(s, now, limit);
    case OperatorAct(operator, job, now) => OperatorCoherent(s, operator, job, now);
    case PurgeJobs(jobs) => PurgeCoherent(s, jobs);
    case PruneStale(workers) => RegisterCoherent(s, Scripts.PruneWorkers(s, workers));
    case HeartbeatLease(job, w, t, now, duration) => HeartbeatCoherent(s, job, w, t, now, now + duration);
    case _ => CompletionCoherent(s, op);
  }

  lemma EmptyCoherent()
    ensures Coherent(EMPTY)
  {
    forall j ensures CoherentAt(EMPTY, j) {
    }
  }
}
