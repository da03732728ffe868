/** Bounded recovery of a lease whose reply no worker received. */
module Orphans {
  import opened SortedSets
  import opened Codec
  import opened Queue
  import opened Invariants
  import opened Steps
  import opened LeaseSteps
  import opened ReservationSpec
  import opened JobSteps
  import opened LeaseLedger
  import opened LiveLeases
  import opened Runs
  import Reservations
  import Reaps
  import Scripts

  /** One-based position of a lease in the order in which reaps take them. */
  ghost function RankOf(s: State, j: string): nat
    requires j in s.leased
  {
    |Ahead(s.leased, j)| + 1
  }

  /** A step on a clock past the deadline of an attempt, and no operator forces its job. */
  ghost predicate LateClock(op: Op, a: Attempt, deadline: int) {
    && (op.ReserveJobs? ==> op.now >= deadline && op.duration > 0)
    && (op.HeartbeatLease? ==> op.now >= deadline && op.duration > 0)
    && (op.ReapLeases? ==> op.now >= deadline)
    && !Forces(op, a.job)
  }

  /** A step past the deadline of an attempt that nobody speaks for any more. */
  ghost predicate PastDeadline(op: Op, a: Attempt, deadline: int) {
    LateClock(op, a, deadline) && !SentBy(op, a.job, a.worker, a.token)
  }

  /** A lease that is there after a step was there before, or was written by a reservation or heartbeat just now. */
  lemma DeadlinesMoveForward(s: State, op: Op, k: string)
    requires Coherent(s) && EnoughTokens(op)
    requires k in Apply(s, op).0.leased
    ensures || (k in s.leased && Apply(s, op).0.leased[k] == s.leased[k])
            || ((op.ReserveJobs? || op.HeartbeatLease?) && Apply(s, op).0.leased[k] == op.now + op.duration)
  {
    hide Coherent, PackLease;
    match op
    case EnqueueJob(e, j, now, requested, mode) =>
      assert LeasesKept(s, Scripts.Enqueue(s, e, j, now, requested, mode).0);
      hide Scripts.Enqueue;
    case ReserveJobs(_, _, _, _, _, _, _) => ReserveDeadline(s, op, k);
    case ReapLeases(now, limit) =>
      Reaps.ReapRefines(s, now, limit);
      hide Scripts.Reap, Reaps.Recovered;
    case OperatorAct(operator, j, now) =>
      assert LeasesKept(s, Scripts.Operator(s, operator, j, now).0)
             || LeasesKept(Scripts.Release(s, j, HolderOf(s, j)), Scripts.Operator(s, operator, j, now).0);
      hide Scripts.Operator;
    case HeartbeatLease(_, _, _, _, _) =>
    case PurgeJobs(_) =>
    case PruneStale(_) =>
    case _ =>
      hide Apply;
      if op.job == k {
        CompletionEndsLease(s, op);
        Unfenced(s, op);
      } else {
        OtherJob(s, op, k);
      }
  }

  lemma ReserveDeadline(s: State, op: Op, k: string)
    requires op.ReserveJobs? && Coherent(s) && EnoughTokens(op) && k in Apply(s, op).0.leased
    ensures (k in s.leased && Apply(s, op).0.leased[k] == s.leased[k])
            || Apply(s, op).0.leased[k] == op.now + op.duration
  {
    ReserveGrants(s, op);
    hide Apply, PackLease, Coherent;
    var (t, reply) := Apply(s, op);
    if reply.Reserved? {
      assert IsGranted(reply.grants, k) || UntouchedAt(s, t, k);
      if IsGranted(reply.grants, k) {
        var i :| 0 <= i < |reply.grants| && reply.grants[i].job == k;
        assert GrantedAt(s, t, k, op.worker, reply.grants[i].token, op.now + op.duration);
      }
    }
  }

  /** No step on such a clock puts a lease ahead of the orphan. */
  lemma AheadShrinks(s: State, op: Op, a: Attempt)
    requires Coherent(s) && EnoughTokens(op) && HasLease(s, a) && HasLease(Apply(s, op).0, a)
    requires Apply(s, op).0.leased[a.job] == s.leased[a.job]
    requires PastDeadline(op, a, s.leased[a.job])
    ensures Ahead(Apply(s, op).0.leased, a.job) <= Ahead(s.leased, a.job)
  {
    hide Apply, Coherent, PackLease, LexBefore;
    forall k | k in Ahead(Apply(s, op).0.leased, a.job) ensures k in Ahead(s.leased, a.job) {
      DeadlinesMoveForward(s, op, k);
    }
  }

  /** A reap that does not get as far as the orphan has recovered `limit` leases ahead of it. */
  lemma ReapGetsCloser(s: State, now: int, limit: nat, j: string)
    requires j in s.leased && s.leased[j] <= now && j !in Reaps.Recovered(s, now, limit)
    ensures Members(Reaps.Recovered(s, now, limit)) <= Ahead(s.leased, j)
    ensures |Members(Reaps.Recovered(s, now, limit))| == limit
  {
    var e := UpTo(s.leased, now);
    Reservations.FirstAhead(e, j, Least(limit, |e|));
    hide Ranked, LexBefore, Members;
    assert Ahead(e, j) == Ahead(s.leased, j);
  }

  /** The step takes the job of an expired lease back into `ready`, and its failure count is what it was. */
  ghost predicate RecoversAt(ops: seq<Op>, i: nat, j: string)
    requires i < |ops|
  {
    var s, t := After(ops, i), After(ops, i + 1);
    && ops[i].ReapLeases? && j in Reaps.Recovered(s, ops[i].now, ops[i].limit)
    && j in t.ready && t.ready[j] == ops[i].now && j !in t.leased
    && t.failures == s.failures
  }

  ghost predicate Waiting(s: State, a: Attempt, deadline: int) {
    HasLease(s, a) && s.leased[a.job] == deadline
  }

  /** One step past the deadline: the lease is recovered, or it waits on, no further back than before; a reap with
      limit `limit` has brought it forward by as much. */
  lemma OrphanStep(ops: seq<Op>, i: nat, a: Attempt, deadline: int)
    requires i < |ops| && ValidRun(ops)
    requires Waiting(After(ops, i), a, deadline) && PastDeadline(ops[i], a, deadline)
    ensures RecoversAt(ops, i, a.job)
            || (Waiting(After(ops, i + 1), a, deadline)
                && RankOf(After(ops, i + 1), a.job)
                   <= RankOf(After(ops, i), a.job) - if ops[i].ReapLeases? then ops[i].limit else 0)
  {
    var s, op := After(ops, i), ops[i];
    RunCoherent(ops, i);
    StepHasTokens(ops, i);
    hide Coherent, Issued, PackLease;
    if op.ReapLeases? {
      ReapOrphan(s, op.now, op.limit, a, deadline);
      hide Reaps.Recovered;
    } else {
      hide Apply;
      StepKeepsAttempt(s, op, a.job, a.worker, a.token);
      AheadShrinks(s, op, a);
      Reservations.SubsetSize(Ahead(After(ops, i + 1).leased, a.job), Ahead(s.leased, a.job));
    }
  }

  lemma ReapOrphan(s: State, now: int, limit: nat, a: Attempt, deadline: int)
    requires Coherent(s) && Waiting(s, a, deadline) && now >= deadline
    ensures var t := Scripts.Reap(s, now, limit).0;
            t.failures == s.failures &&
            if a.job in Reaps.Recovered(s, now, limit) then
              a.job in t.ready && t.ready[a.job] == now && a.job !in t.leased
            else
              Waiting(t, a, deadline) && RankOf(t, a.job) <= RankOf(s, a.job) - limit
  {
    hide *;
    var jobs := Reaps.Recovered(s, now, limit);
    var t := Scripts.Reap(s, now, limit).0;
    Reaps.ReapRefines(s, now, limit);
    ReapedOrNot(s, t, jobs, now, a, deadline);
    if a.job !in jobs {
      LeaseFacts(s, a, deadline);
      ReapGetsCloser(s, now, limit, a.job);
      ReapRank(s, t, jobs, now, a.job);
    }
  }

  lemma LeaseFacts(s: State, a: Attempt, deadline: int)
    requires Waiting(s, a, deadline)
    ensures a.job in s.leased && s.leased[a.job] == deadline
  {
  }

  lemma ReapedOrNot(s: State, t: State, jobs: seq<string>, now: int, a: Attempt, deadline: int)
    requires Waiting(s, a, deadline) && Reaps.ReapsTo(s, t, jobs, now)
    ensures t.failures == s.failures
    ensures if a.job in jobs then a.job in t.ready && t.ready[a.job] == now && a.job !in t.leased
            else Waiting(t, a, deadline)
  {
    hide PackLease, Members;
    Reservations.MembersIn(jobs, a.job);
  }

  lemma ReapRank(s: State, t: State, jobs: seq<string>, now: int, j: string)
    requires Reaps.ReapsTo(s, t, jobs, now) && j in s.leased && j !in jobs
    requires Members(jobs) <= Ahead(s.leased, j)
    ensures j in t.leased && RankOf(t, j) == RankOf(s, j) - |Members(jobs)|
  {
    hide Members, LexBefore;
    Reservations.MembersIn(jobs, j);
    assert Ahead(t.leased, j) == Ahead(s.leased, j) - Members(jobs);
  }

  /** The number of reaps with at least this limit among the steps `i` .. `n`. */
  function ReapCount(ops: seq<Op>, i: nat, n: nat, limit: nat): nat
    requires i <= n <= |ops|
    decreases n
  {
    if i == n then 0
    else ReapCount(ops, i, n - 1, limit) + if ops[n - 1].ReapLeases? && ops[n - 1].limit >= limit then 1 else 0
  }

  /** Once the clock is past the deadline of an orphaned lease, as many reaps as it takes to count down to its rank
      recover it, whatever other clients do in between: at most ceil(rank / limit) of them. */
  lemma {:induction false} OrphanRecovered(ops: seq<Op>, i: nat, n: nat, limit: nat, a: Attempt, deadline: int)
    requires i <= n <= |ops| && ValidRun(ops) && limit >= 1
    requires Waiting(After(ops, i), a, deadline)
    requires forall m | i <= m < n :: PastDeadline(ops[m], a, deadline)
    ensures (exists m :: i <= m < n && RecoversAt(ops, m, a.job))
            || (Waiting(After(ops, n), a, deadline)
                && RankOf(After(ops, n), a.job) + ReapCount(ops, i, n, limit) * limit <= RankOf(After(ops, i), a.job))
    decreases n
  {
    hide Apply, Issued, RecoversAt, RankOf, HasLease;
    if i < n {
      OrphanRecovered(ops, i, n - 1, limit, a, deadline);
      if !(exists m :: i <= m < n - 1 && RecoversAt(ops, m, a.job)) {
        OrphanStep(ops, n - 1, a, deadline);
      }
    }
  }

  lemma OrphanBound(ops: seq<Op>, i: nat, n: nat, limit: nat, a: Attempt, deadline: int)
    requires i <= n <= |ops| && ValidRun(ops) && limit >= 1
    requires Waiting(After(ops, i), a, deadline)
    requires forall m | i <= m < n :: PastDeadline(ops[m], a, deadline)
    requires ReapCount(ops, i, n, limit) * limit >= RankOf(After(ops, i), a.job)
    ensures exists m :: i <= m < n && RecoversAt(ops, m, a.job)
  {
    OrphanRecovered(ops, i, n, limit, a, deadline);
  }
}
