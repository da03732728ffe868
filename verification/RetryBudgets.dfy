/** The failure counter and the retry budget, over whole runs and across workers. */
module RetryBudgets {
  import opened Wrappers
  import opened Codec
  import opened Policy
  import opened Queue
  import opened Invariants
  import opened Steps
  import opened Coherence
  import opened LeaseSteps
  import opened ReservationSpec
  import opened JobSteps
  import opened Runs
  import Reaps
  import Scripts

  function Failures(s: State, j: string): int {
    Counter(s.failures, j)
  }

  /** The step reports an explicit failure of a run of `j`: by its worker or by an operator. */
  predicate CountsFailure(s: State, op: Op, j: string) {
    match op
    case FailLease(job, worker, token, _, _, _) => job == j && Holds(s, job, worker, token)
    case OperatorAct(operator, job, _) => operator == ForceFail && job == j && j in s.leased
    case _ => false
  }

  predicate RemovesCounter(s: State, operator: OperatorOp, j: string) {
    match operator
    case ForceAck => j in s.leased
    case ForceFail => false
    case Cancel => j in s.scheduled || j in s.failed
    case _ => j in s.failed
  }

  /** The step ends the failure lifecycle of `j`: success, reactivation of a failed job, removal. */
  predicate EndsLifecycle(s: State, op: Op, j: string) {
    match op
    case AckLease(job, worker, token, _) => job == j && Holds(s, job, worker, token)
    case CompleteLease(job, worker, token, _, _) => job == j && Holds(s, job, worker, token)
    case EnqueueJob(e, job, _, _, _) => job == j && e != Reschedule && j in s.failed
    case OperatorAct(operator, job, _) =>
      job == j && RemovesCounter(s, operator, j)
    case PurgeJobs(jobs) => j in jobs
    case _ => false
  }

  /** Reservations, heartbeats and reaps never touch the counter; an explicit failure adds one. */
  ghost predicate FailureStep(s: State, op: Op, j: string) {
    Failures(Apply(s, op).0, j)
    == if CountsFailure(s, op, j) then Failures(s, j) + 1 else if EndsLifecycle(s, op, j) then 0 else Failures(s, j)
  }

  lemma EnqueueFailures(s: State, e: EnqueueOp, j: string, now: int, requested: int, mode: ReplaceMode)
    requires CoherentAt(s, j)
    ensures Failures(Scripts.Enqueue(s, e, j, now, requested, mode).0, j)
         == if e != Reschedule && j in s.failed then 0 else Failures(s, j)
  {
    hide Scripts.Immediate, Scripts.Schedule, Scripts.Move, IsRecord;
    match e
    case EnqueueImmediate =>
    case EnqueueScheduled =>
    case Reschedule =>
  }

  lemma CompletionFailures(s: State, op: Op, j: string)
    requires (op.AckLease? || op.CompleteLease? || op.FailLease?) && op.job == j
    ensures FailureStep(s, op, j)
  {
    hide PackLease, Scripts.Ack, Scripts.Complete, Scripts.Fail;
    Unfenced(s, op);
  }

  lemma OperatorFailures(s: State, operator: OperatorOp, j: string, now: int)
    requires Coherent(s)
    ensures Failures(Scripts.Operator(s, operator, j, now).0, j)
         == if operator == ForceFail && j in s.leased then Failures(s, j) + 1
            else if RemovesCounter(s, operator, j) then 0
            else Failures(s, j)
  {
    assert CoherentAt(s, j);
    if j in s.leased {
      HolderIsKnown(s, j);
      hide Coherent, IsRecord;
      if operator == ForceAck || operator == ForceFail {
        assert Failures(Scripts.Force(s, operator, j, now).0, j) == if operator == ForceAck then 0 else Failures(s, j) + 1;
      }
      hide Scripts.Force;
    } else {
      hide Coherent, IsRecord;
      UnleasedFailures(s, operator, j, now);
      hide Scripts.Operator, RemovesCounter;
    }
  }

  lemma UnleasedFailures(s: State, operator: OperatorOp, j: string, now: int)
    requires CoherentAt(s, j) && j !in s.leased
    ensures Failures(Scripts.Operator(s, operator, j, now).0, j)
         == if RemovesCounter(s, operator, j) then 0 else Failures(s, j)
  {
    hide IsRecord, Scripts.Force;
    match PlaceOf(s, j)
    case Absent =>
    case Ready =>
    case Scheduled =>
    case Failed =>
  }

  lemma StepFailures(s: State, op: Op, j: string)
    requires Coherent(s) && EnoughTokens(op)
    ensures FailureStep(s, op, j)
  {
    assert CoherentAt(s, j);
    hide Coherent, PackLease, IsRecord;
    if AboutOneJob(op) && op.job != j {
      OtherJob(s, op, j);
      hide Apply;
    } else {
      match op
      case EnqueueJob(e, _, now, requested, mode) =>
        hide Scripts.Enqueue;
        EnqueueFailures(s, e, j, now, requested, mode);
      case ReserveJobs(_, _, _, _, _, _, _) =>
        ReserveGrants(s, op);
        hide Apply;
      case ReapLeases(now, limit) =>
        Reaps.ReapRefines(s, now, limit);
        hide Scripts.Reap, Reaps.Recovered;
      case OperatorAct(operator, _, now) =>
        hide Scripts.Operator;
        OperatorFailures(s, operator, j, now);
      case HeartbeatLease(_, _, _, _, _) =>
      case PurgeJobs(_) =>
      case PruneStale(_) =>
      case _ =>
        hide Apply, FailureStep;
        CompletionFailures(s, op, j);
    }
  }

  /** The explicit failures of `j` among the first `i` steps, since its current failure lifecycle began. */
  function ExplicitFailures(ops: seq<Op>, i: nat, j: string): nat
    requires i <= |ops|
  {
    if i == 0 then 0
    else if CountsFailure(After(ops, i - 1), ops[i - 1], j) then ExplicitFailures(ops, i - 1, j) + 1
    else if EndsLifecycle(After(ops, i - 1), ops[i - 1], j) then 0
    else ExplicitFailures(ops, i - 1, j)
  }

  /** The stored counter is the number of explicit failures, after every step of every run. */
  lemma {:induction false} CounterIsExplicit(ops: seq<Op>, i: nat, j: string)
    requires i <= |ops| && ValidRun(ops)
    ensures Failures(After(ops, i), j) == ExplicitFailures(ops, i, j)
    decreases i
  {
    hide Coherent, Apply, Issued, CountsFailure, EndsLifecycle;
    if i > 0 {
      CounterIsExplicit(ops, i - 1, j);
      RunCoherent(ops, i - 1);
      StepHasTokens(ops, i - 1);
      StepFailures(After(ops, i - 1), ops[i - 1], j);
    }
  }

  /** Nothing but an explicit failure makes a job failed, and a job leaves `failed` only with its counter. */
  ghost predicate FailedStep(s: State, op: Op, j: string) {
    var t := Apply(s, op).0;
    && (j in t.failed ==> j in s.failed || CountsFailure(s, op, j))
    && (j in s.failed && j !in t.failed ==> EndsLifecycle(s, op, j))
  }

  lemma OperatorFailed(s: State, operator: OperatorOp, j: string, now: int)
    requires Coherent(s)
    ensures FailedStep(s, OperatorAct(operator, j, now), j)
  {
    assert CoherentAt(s, j);
    hide Coherent, IsRecord;
    match PlaceOf(s, j)
    case Leased =>
      hide Scripts.Force;
    case _ => hide Scripts.Force;
  }

  lemma CompletionFailed(s: State, op: Op, j: string)
    requires (op.AckLease? || op.CompleteLease? || op.FailLease?) && op.job == j && CoherentAt(s, j)
    ensures FailedStep(s, op, j)
  {
    hide PackLease, TargetPlace, Decrement, DelayMs, Retries, IsRecord;
    Unfenced(s, op);
    if Holds(s, j, op.worker, op.token) {
      match op
      case AckLease(_, _, _, _) =>
      case CompleteLease(_, _, _, _, _) =>
      case FailLease(_, _, _, _, _, _) => hide Apply;
    }
  }

  lemma EnqueueFailed(s: State, e: EnqueueOp, j: string, now: int, requested: int, mode: ReplaceMode)
    requires CoherentAt(s, j)
    ensures var t := Scripts.Enqueue(s, e, j, now, requested, mode).0;
            t.failed == if e != Reschedule && j in s.failed then s.failed - {j} else s.failed
  {
    hide Scripts.Immediate, Scripts.Schedule, Scripts.Move, IsRecord;
    match e
    case EnqueueImmediate =>
    case EnqueueScheduled =>
    case Reschedule =>
  }

  lemma StepFailed(s: State, op: Op, j: string)
    requires Coherent(s) && EnoughTokens(op)
    ensures FailedStep(s, op, j)
  {
    assert CoherentAt(s, j);
    hide Coherent, PackLease, IsRecord;
    if AboutOneJob(op) && op.job != j {
      OtherJob(s, op, j);
      hide Apply;
    } else {
      match op
      case EnqueueJob(e, _, now, requested, mode) =>
        hide Scripts.Enqueue;
        EnqueueFailed(s, e, j, now, requested, mode);
      case ReserveJobs(_, _, _, _, _, _, _) =>
        ReserveGrants(s, op);
        hide Apply;
      case ReapLeases(now, limit) =>
        Reaps.ReapRefines(s, now, limit);
        hide Scripts.Reap, Reaps.Recovered;
      case OperatorAct(operator, _, now) =>
        hide Apply, FailedStep;
        OperatorFailed(s, operator, j, now);
      case HeartbeatLease(_, _, _, _, _) =>
      case PurgeJobs(_) =>
      case PruneStale(_) =>
      case _ =>
        hide Apply, FailedStep;
        CompletionFailed(s, op, j);
    }
  }

  lemma ReservePolicy(s: State, op: Op)
    requires op.ReserveJobs? && Coherent(s) && EnoughTokens(op)
    ensures s.policy != None ==> Apply(s, op).0.policy == s.policy
    ensures Apply(s, op).0.policy == None ==> forall j | j in Apply(s, op).0.leased :: j in s.leased
  {
    ReserveGrants(s, op);
    hide Apply, Coherent, PackLease, GrantedAt;
    var (t, reply) := Apply(s, op);
    forall j | t.policy == None && j in t.leased ensures j in s.leased {
      assert reply.Reserved? ==> IsGranted(reply.grants, j) || UntouchedAt(s, t, j);
    }
  }

  lemma OthersKeepPolicy(s: State, op: Op)
    requires !op.ReserveJobs?
    ensures Apply(s, op).0.policy == s.policy
  {
    match op
    case EnqueueJob(e, job, now, requested, mode) =>
      assert LeasesKept(s, Scripts.Enqueue(s, e, job, now, requested, mode).0);
      hide Scripts.Enqueue;
    case ReapLeases(now, limit) => ReapPolicy(s, now, limit);
    case OperatorAct(operator, job, now) =>
      assert LeasesKept(s, Scripts.Operator(s, operator, job, now).0)
             || LeasesKept(Scripts.Release(s, job, HolderOf(s, job)), Scripts.Operator(s, operator, job, now).0);
      hide Scripts.Operator, HolderOf, Decrement;
    case HeartbeatLease(_, _, _, _, _) =>
    case PurgeJobs(_) =>
    case PruneStale(_) =>
    case _ =>
      CompletionPolicy(s, op);
      hide Apply;
  }

  lemma ReapPolicy(s: State, now: int, limit: nat)
    ensures Scripts.Reap(s, now, limit).0.policy == s.policy
  {
    Reaps.ReapRefines(s, now, limit);
    hide Scripts.Reap, Reaps.Recovered, Members;
  }

  lemma CompletionPolicy(s: State, op: Op)
    requires op.AckLease? || op.CompleteLease? || op.FailLease?
    ensures Apply(s, op).0.policy == s.policy
  {
    if Holds(s, op.job, op.worker, op.token) {
      assert LeasesKept(Scripts.Release(s, op.job, Some(op.worker)), Apply(s, op).0);
      hide Apply;
    } else {
      Fenced(s, op, op.job, op.worker, op.token);
    }
  }

  /** A pinned policy stays, and only a reservation that grants something needs one. */
  lemma StepPolicy(s: State, op: Op)
    requires Coherent(s) && EnoughTokens(op)
    ensures s.policy != None ==> Apply(s, op).0.policy == s.policy
    ensures Apply(s, op).0.policy == None ==> forall j | j in Apply(s, op).0.leased :: j in s.leased
  {
    if op.ReserveJobs? {
      ReservePolicy(s, op);
      hide *;
    } else {
      OthersKeepPolicy(s, op);
      OthersBeginNoLease(s, op);
      hide Apply, Coherent;
    }
  }

  /** The policy a run pins is never replaced. */
  lemma {:induction false} PolicyPinned(ops: seq<Op>, i: nat, k: nat)
    requires i <= k <= |ops| && ValidRun(ops)
    requires After(ops, i).policy != None
    ensures After(ops, k).policy == After(ops, i).policy
    decreases k
  {
    hide Coherent, Apply, Issued;
    if i < k {
      PolicyPinned(ops, i, k - 1);
      RunCoherent(ops, k - 1);
      StepHasTokens(ops, k - 1);
      StepPolicy(After(ops, k - 1), ops[k - 1]);
    }
  }

  /** Before a policy is pinned nothing is leased. */
  lemma {:induction false} NoPolicyNoLease(ops: seq<Op>, i: nat, j: string)
    requires i <= |ops| && ValidRun(ops)
    requires After(ops, i).policy == None
    ensures j !in After(ops, i).leased
    decreases i
  {
    hide Coherent, Apply, Issued;
    if i > 0 {
      RunCoherent(ops, i - 1);
      StepHasTokens(ops, i - 1);
      StepPolicy(After(ops, i - 1), ops[i - 1]);
      NoPolicyNoLease(ops, i - 1, j);
    }
  }

  lemma {:induction false} IssuedOnce(ops: seq<Op>, i: nat, k: nat, token: string)
    requires i <= k <= |ops| && ValidRun(ops) && token in Issued(ops, i)
    ensures token in Issued(ops, k) && Issued(ops, k)[token] == Issued(ops, i)[token]
    decreases k
  {
    hide After;
    if i < k {
      IssuedOnce(ops, i, k - 1, token);
      assert ValidStep(Issued(ops, k - 1), ops[k - 1]);
    }
  }

  lemma GrantPinsPolicy(ops: seq<Op>, i: nat, job: string, worker: string, token: string)
    requires 0 < i <= |ops| && ValidRun(ops)
    requires !Holds(After(ops, i - 1), job, worker, token) && Holds(After(ops, i), job, worker, token)
    ensures token in Issued(ops, i) && After(ops, i).policy == Some(PolicyKey(Issued(ops, i)[token]))
  {
    hide *;
    BeginsByGrant(ops, i - 1, job, worker, token);
    RunCoherent(ops, i - 1);
    StepHasTokens(ops, i - 1);
    NextState(ops, i - 1);
    ReplyNow(ops, i - 1);
    GrantNeedsPolicy(After(ops, i - 1), ops[i - 1], Grant(job, token));
    JustIssued(ops, i, token);
  }

  lemma ReplyNow(ops: seq<Op>, i: nat)
    requires i < |ops|
    ensures ReplyAt(ops, i) == Apply(After(ops, i), ops[i]).1
  {
  }

  lemma GrantNeedsPolicy(s: State, op: Op, g: Grant)
    requires op.ReserveJobs? && Coherent(s) && EnoughTokens(op)
    requires Apply(s, op).1.Reserved? && g in Apply(s, op).1.grants
    ensures Apply(s, op).0.policy == Some(PolicyKey(op.policy))
  {
    ReserveGrants(s, op);
    hide Apply, Grants, Coherent, PolicyKey;
  }

  lemma JustIssued(ops: seq<Op>, i: nat, token: string)
    requires 0 < i <= |ops| && ops[i - 1].ReserveJobs? && token in ops[i - 1].tokens
    ensures token in Issued(ops, i) && Issued(ops, i)[token] == ops[i - 1].policy
  {
  }

  /** Whoever holds a lease runs the pinned policy. */
  lemma {:induction false} HolderRunsPinnedPolicy(ops: seq<Op>, i: nat, job: string, worker: string, token: string)
    requires i <= |ops| && ValidRun(ops)
    requires Holds(After(ops, i), job, worker, token)
    ensures token in Issued(ops, i) && After(ops, i).policy == Some(PolicyKey(Issued(ops, i)[token]))
    decreases i
  {
    hide PolicyKey, Issued, ValidRun, Apply;
    if i > 0 {
      if Holds(After(ops, i - 1), job, worker, token) {
        HolderRunsPinnedPolicy(ops, i - 1, job, worker, token);
        PolicyPinned(ops, i - 1, i);
        IssuedOnce(ops, i - 1, i, token);
      } else {
        GrantPinsPolicy(ops, i, job, worker, token);
      }
    }
  }

  /** So any two attempts that hold leases at the same time, of any workers, run one and the same policy. */
  lemma HoldersAgree(ops: seq<Op>, i: nat, a: Grant, worker: string, b: Grant, other: string)
    requires i <= |ops| && ValidRun(ops)
    requires Holds(After(ops, i), a.job, worker, a.token) && Holds(After(ops, i), b.job, other, b.token)
    ensures a.token in Issued(ops, i) && b.token in Issued(ops, i) && Issued(ops, i)[a.token] == Issued(ops, i)[b.token]
  {
    hide *;
    HolderRunsPinnedPolicy(ops, i, a.job, worker, a.token);
    HolderRunsPinnedPolicy(ops, i, b.job, other, b.token);
    PolicyKeyInjective(Issued(ops, i)[a.token], Issued(ops, i)[b.token]);
  }

  /** The counter of a job that will still run was granted a retry; that of a failed job is the first that was not, or
      an operator's or a terminal failure on the way there. */
  predicate WithinBudget(s: State, policy: RetryPolicy, j: string) {
    var n := Failures(s, j);
    if j in s.failed then n == 1 || (n > 1 && Retries(policy, n - 1)) else n == 0 || Retries(policy, n)
  }

  lemma SettleWithinBudget(s: State, op: Op, j: string)
    requires op.FailLease? && op.job == j && Holds(s, j, op.worker, op.token) && j !in s.failed
    ensures var t := Apply(s, op).0; j in t.failed || Retries(op.policy, Failures(t, j))
  {
    hide PackLease, Decrement, Retries, DelayMs;
  }

  lemma StepWithinBudget(s: State, op: Op, policy: RetryPolicy, j: string)
    requires Coherent(s) && EnoughTokens(op) && WithinBudget(s, policy, j)
    requires op.FailLease? && Holds(s, op.job, op.worker, op.token) ==> op.policy == policy
    ensures WithinBudget(Apply(s, op).0, policy, j)
  {
    StepFailures(s, op, j);
    StepFailed(s, op, j);
    StepCoherent(s, op);
    assert CoherentAt(s, j) && CoherentAt(Apply(s, op).0, j);
    if op.FailLease? && CountsFailure(s, op, j) {
      SettleWithinBudget(s, op, j);
    }
    hide Apply, Coherent, IsRecord, Retries, EndsLifecycle;
    assert CountsFailure(s, op, j) ==> j in s.leased && j !in s.failed;
  }

  /** The retry budget, over every run and across workers: under the pinned policy every waiting or leased job has a
      counter that earned it a retry, and without a pinned policy no job has a counter. */
  lemma {:induction false} BudgetKept(ops: seq<Op>, i: nat, policy: RetryPolicy, j: string)
    requires i <= |ops| && ValidRun(ops)
    requires After(ops, i).policy == None || After(ops, i).policy == Some(PolicyKey(policy))
    ensures WithinBudget(After(ops, i), policy, j)
    decreases i
  {
    hide Coherent, Apply, WithinBudget, PolicyKey;
    if i == 0 {
      EmptyWithinBudget(policy, j);
    } else {
      var s, op := After(ops, i - 1), ops[i - 1];
      RunCoherent(ops, i - 1);
      StepHasTokens(ops, i - 1);
      StepPolicy(s, op);
      BudgetKept(ops, i - 1, policy, j);
      if op.FailLease? && Holds(s, op.job, op.worker, op.token) {
        HolderRunsPinnedPolicy(ops, i - 1, op.job, op.worker, op.token);
        assert ValidStep(Issued(ops, i - 1), op);
        PolicyKeyInjective(op.policy, policy);
      }
      StepWithinBudget(s, op, policy, j);
    }
  }

  lemma EmptyWithinBudget(policy: RetryPolicy, j: string)
    ensures WithinBudget(EMPTY, policy, j)
  {
  }

  /** In numbers: with `m` retries a waiting or leased job has at most `m` failures, a failed job between 1 and m + 1;
      without retries a waiting or leased job has none. */
  lemma CountedBudget(ops: seq<Op>, i: nat, m: nat, backoff: Backoff, j: string)
    requires i <= |ops| && ValidRun(ops)
    requires After(ops, i).policy == Some(PolicyKey(Count(m, backoff)))
    ensures j !in After(ops, i).failed ==> Failures(After(ops, i), j) <= m
    ensures j in After(ops, i).failed ==> 1 <= Failures(After(ops, i), j) <= m + 1
  {
    BudgetKept(ops, i, Count(m, backoff), j);
    hide After;
  }
}
