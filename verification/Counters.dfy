/** The lease counter of each worker against the leases it really holds. */
module Counters {
  import opened Wrappers
  import opened SortedSets
  import opened Codec
  import opened Policy
  import opened Queue
  import opened Invariants
  import opened Steps
  import opened Coherence
  import Scripts

  lemma SameLeases(s: State, t: State, exact: bool)
    requires CountersRight(s, exact)
    requires t.leaseMeta == s.leaseMeta && t.workerLeases == s.workerLeases
    ensures CountersRight(t, exact)
  {
    forall w ensures CounterAt(t, w, exact) {
      assert CounterAt(s, w, exact);
      assert HeldBy(t, w) == HeldBy(s, w);
    }
  }

  /** Ending a lease decrements the worker named in the record, and that is the worker that loses it. */
  lemma EndLease(s: State, t: State, job: string, worker: string, exact: bool)
    requires CountersRight(s, exact)
    requires job in s.leaseMeta && WorkerFromMeta(s.leaseMeta[job]) == Some(worker)
    requires t.leaseMeta == s.leaseMeta - {job} && t.workerLeases == Decrement(s.workerLeases, worker)
    ensures CountersRight(t, exact)
  {
    hide WorkerFromMeta;
    forall w ensures CounterAt(t, w, exact) {
      assert CounterAt(s, w, exact);
      if w == worker {
        assert HeldBy(t, w) == HeldBy(s, w) - {job};
      } else {
        assert HeldBy(t, w) == HeldBy(s, w);
      }
    }
  }

  lemma BeginLease(s: State, job: string, worker: string, token: string, deadline: int, exact: bool)
    requires CountersRight(s, exact)
    requires job !in s.leaseMeta
    ensures CountersRight(Scripts.Lease(s, job, worker, token, deadline), exact)
  {
    WorkerOfPacked(worker, token);
    hide WorkerFromMeta, PackLease;
    var t := Scripts.Lease(s, job, worker, token, deadline);
    forall w ensures CounterAt(t, w, exact) {
      assert CounterAt(s, w, exact);
      if w == worker {
        assert HeldBy(t, w) == HeldBy(s, w) + {job};
      } else {
        assert HeldBy(t, w) == HeldBy(s, w);
      }
    }
  }

  lemma ReapOneCounters(s: State, job: string, now: int, exact: bool)
    requires Coherent(s) && CountersRight(s, exact) && job in s.leased
    ensures CountersRight(Scripts.ReapOne(s, job, now), exact)
  {
    hide Coherent, CountersRight, WorkerFromMeta, Decrement;
    HolderIsKnown(s, job);
    EndLease(s, Scripts.ReapOne(s, job, now), job, HolderOf(s, job).value, exact);
  }

  lemma {:induction false} ReapCounters(s: State, now: int, limit: nat, exact: bool)
    requires Coherent(s) && CountersRight(s, exact)
    ensures CountersRight(Scripts.Reap(s, now, limit).0, exact)
    decreases limit
  {
    hide Coherent, CountersRight, Scripts.ReapOne;
    if limit > 0 && UpTo(s.leased, now) != map[] {
      var job := First(UpTo(s.leased, now));
      ReapOneCounters(s, job, now, exact);
      ReapOneCoherent(s, job, now);
      ReapCounters(Scripts.ReapOne(s, job, now), now, limit - 1, exact);
    }
  }

  lemma ForceCounters(s: State, op: OperatorOp, job: string, now: int, exact: bool)
    requires Coherent(s) && CountersRight(s, exact) && job in s.leased
    ensures CountersRight(Scripts.Force(s, op, job, now).0, exact)
  {
    hide Coherent, CountersRight, WorkerFromMeta, Decrement;
    HolderIsKnown(s, job);
    EndLease(s, Scripts.Force(s, op, job, now).0, job, HolderOf(s, job).value, exact);
  }

  lemma OperatorCounters(s: State, op: OperatorOp, job: string, now: int, exact: bool)
    requires Coherent(s) && CountersRight(s, exact)
    ensures CountersRight(Scripts.Operator(s, op, job, now).0, exact)
  {
    hide Coherent, CountersRight, Scripts.Force;
    if PlaceOf(s, job) == Leased {
      ForceCounters(s, op, job, now, exact);
      SameLeases(s, s, exact);
    } else {
      SameLeases(s, Scripts.Operator(s, op, job, now).0, exact);
    }
  }

  lemma CompletionCounters(s: State, op: Op, exact: bool)
    requires CountersRight(s, exact)
    requires op.AckLease? || op.CompleteLease? || op.FailLease? || op.HeartbeatLease?
    ensures CountersRight(Apply(s, op).0, exact)
  {
    if Holds(s, op.job, op.worker, op.token) {
      WorkerOfPacked(op.worker, op.token);
      match op
      case HeartbeatLease(_, _, _, _, _) => SameLeases(s, Apply(s, op).0, exact);
      case _ => ReleaseCounters(s, Apply(s, op).0, op, exact);
    }
  }

  /** Each completion changes the leases exactly as `Release` does. */
  lemma ReleaseCounters(s: State, t: State, op: Op, exact: bool)
    requires CountersRight(s, exact)
    requires op.AckLease? || op.CompleteLease? || op.FailLease?
    requires Holds(s, op.job, op.worker, op.token) && t == Apply(s, op).0
    ensures CountersRight(t, exact)
  {
    assert LeasesKept(Scripts.Release(s, op.job, Some(op.worker)), t);
    WorkerOfPacked(op.worker, op.token);
    hide CountersRight, WorkerFromMeta, Decrement, PackLease, Apply;
    EndLease(s, t, op.job, op.worker, exact);
  }

  lemma {:induction false} GrantLoopCounters(s: State, worker: string, now: int, capacity: nat, deadline: int,
                                             tokens: seq<string>, exact: bool)
    requires Coherent(s) && CountersRight(s, exact) && |tokens| >= capacity
    ensures CountersRight(Scripts.GrantLoop(s, worker, now, capacity, deadline, tokens).0, exact)
    decreases capacity
  {
    hide *;
    CoherentIndexes(s);
    NoDuplicates(s, now);
    Scripts.GrantLoopUnfold(s, worker, now, capacity, deadline, tokens);
    if capacity > 0 {
      var pick := Scripts.PickNext(s.ready, UpTo(s.scheduled, now));
      TakeSameLeases(s, pick, exact);
      if pick != Scripts.NoWork {
        GrantCounters(s, pick, worker, tokens[0], now, deadline, exact);
        LeaseCoherent(s, pick, worker, tokens[0], now, deadline);
        GrantLoopCounters(Scripts.Lease(Scripts.Take(s, pick), pick.job, worker, tokens[0], deadline), worker, now,
                          capacity - 1, deadline, tokens[1..], exact);
      }
    }
  }

  lemma GrantCounters(s: State, pick: Scripts.Pick, worker: string, token: string, now: int, deadline: int, exact: bool)
    requires Coherent(s) && CountersRight(s, exact)
    requires pick == Scripts.PickNext(s.ready, UpTo(s.scheduled, now)) && pick != Scripts.NoWork
    ensures CountersRight(Scripts.Lease(Scripts.Take(s, pick), pick.job, worker, token, deadline), exact)
  {
    hide *;
    TakeSameLeases(s, pick, exact);
    PickNotLeased(s, pick, now);
    BeginLease(Scripts.Take(s, pick), pick.job, worker, token, deadline, exact);
  }

  lemma TakeSameLeases(s: State, pick: Scripts.Pick, exact: bool)
    requires CountersRight(s, exact)
    ensures CountersRight(Scripts.Take(s, pick), exact)
  {
    hide CountersRight;
    SameLeases(s, Scripts.Take(s, pick), exact);
  }

  lemma PickNotLeased(s: State, pick: Scripts.Pick, now: int)
    requires Coherent(s) && pick == Scripts.PickNext(s.ready, UpTo(s.scheduled, now)) && pick != Scripts.NoWork
    ensures pick.job !in Scripts.Take(s, pick).leaseMeta
  {
    assert CoherentAt(s, pick.job);
    hide Coherent, IsRecord;
  }

  /** The step prunes no worker that still holds a lease. */
  ghost predicate PrunesIdle(s: State, op: Op) {
    op.PruneStale? ==> forall w | w in op.workers :: HeldBy(s, w) == {}
  }

  /** After every script the counter of each worker is the number of its leases, as long as only workers without leases
      are pruned. Otherwise it is still a positive lower bound, and it never becomes negative. */
  lemma StepCounters(s: State, op: Op, exact: bool)
    requires Coherent(s) && EnoughTokens(op) && CountersRight(s, exact)
    requires exact ==> PrunesIdle(s, op)
    ensures CountersRight(Apply(s, op).0, exact)
  {
    hide Coherent, CountersRight, Scripts.Enqueue, Scripts.Reap, Scripts.Operator, Scripts.GrantLoop;
    match op
    case EnqueueJob(e, job, now, requested, mode) =>
      SameLeases(s, Apply(s, op).0, exact);
    case ReserveJobs(worker, now, capacity, duration, policy, record, tokens) =>
      var t := Scripts.Register(s, worker, now, PolicyKey(policy), record);
      RegisterCoherent(s, t);
      SameLeases(s, t, exact);
      GrantLoopCounters(t, worker, now, capacity, now + duration, tokens, exact);
    case ReapLeases(now, limit) => ReapCounters(s, now, limit, exact);
    case OperatorAct(operator, job, now) => OperatorCounters(s, operator, job, now, exact);
    case PurgeJobs(jobs) => SameLeases(s, Apply(s, op).0, exact);
    case PruneStale(workers) =>
      if exact {
        PruneExactIff(s, workers);
      } else {
        PruneBound(s, workers);
      }
    case _ => CompletionCounters(s, op, exact);
  }

  lemma PruneBound(s: State, workers: set<string>)
    requires CountersRight(s, false)
    ensures CountersRight(Scripts.PruneWorkers(s, workers), false)
  {
    var t := Scripts.PruneWorkers(s, workers);
    forall w ensures CounterAt(t, w, false) {
      assert CounterAt(s, w, false);
      assert HeldBy(t, w) == HeldBy(s, w);
    }
  }

  /** The layout says that the counter is the number of leases. Pruning keeps that true if and only if no pruned worker
      still holds a lease. */
  lemma PruneExactIff(s: State, workers: set<string>)
    requires CountersRight(s, true)
    ensures CountersRight(Scripts.PruneWorkers(s, workers), true) <==> forall w | w in workers :: HeldBy(s, w) == {}
  {
    var t := Scripts.PruneWorkers(s, workers);
    forall w ensures CounterAt(t, w, true) <==> (w in workers ==> HeldBy(s, w) == {}) {
      assert CounterAt(s, w, true);
      assert HeldBy(t, w) == HeldBy(s, w);
    }
  }

  /** So a step keeps the counters exact if and only if it prunes no holder. */
  lemma StepCountersIff(s: State, op: Op)
    requires Coherent(s) && EnoughTokens(op) && CountersRight(s, true)
    ensures CountersRight(Apply(s, op).0, true) <==> PrunesIdle(s, op)
  {
    hide Coherent, CountersRight;
    if PrunesIdle(s, op) {
      StepCounters(s, op, true);
    } else {
      PruneExactIff(s, op.workers);
    }
    hide Scripts.PruneWorkers;
  }

  /** A concrete one: a pruned worker that holds a lease is under-counted from then on. */
  lemma PruneLosesExactness(job: string, worker: string, token: string)
    ensures var s := Scripts.Lease(EMPTY, job, worker, token, 1);
            CountersRight(s, true) && !CountersRight(Scripts.PruneWorkers(s, {worker}), true)
  {
    var s := Scripts.Lease(EMPTY, job, worker, token, 1);
    EmptyCounters(true);
    BeginLease(EMPTY, job, worker, token, 1, true);
    WorkerOfPacked(worker, token);
    assert job in HeldBy(s, worker);
    PruneExactIff(s, {worker});
  }

  lemma EmptyCounters(exact: bool)
    ensures CountersRight(EMPTY, exact)
  {
    forall w ensures CounterAt(EMPTY, w, exact) {
      assert HeldBy(EMPTY, w) == {};
    }
  }
}
