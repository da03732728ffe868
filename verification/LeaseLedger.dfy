/** Every lease that begins ends at most once, and each end has a cause. */
module LeaseLedger {
  import opened Codec
  import opened Policy
  import opened Queue
  import opened Invariants
  import opened Steps
  import opened Coherence
  import opened LeaseSteps
  import opened ReservationSpec
  import opened JobSteps
  import opened Runs
  import Reaps
  import Scripts

  /** Judging by its reply, the step ended the lease of `j`. A reap only reports how many leases it recovered. */
  predicate EndedBy(s: State, op: Op, j: string) {
    match op
    case AckLease(job, _, _, _) => job == j && Apply(s, op).1 != LeaseMismatch
    case CompleteLease(job, _, _, _, _) => job == j && Apply(s, op).1 != LeaseMismatch
    case FailLease(job, _, _, _, _, _) => job == j && Apply(s, op).1 != LeaseMismatch
    case OperatorAct(_, _, _) => Forces(op, j) && Apply(s, op).1 == Done
    case ReapLeases(now, limit) => j in Reaps.Recovered(s, now, limit)
    case _ => false
  }

  ghost predicate LedgerStep(s: State, op: Op, j: string) {
    && (GrantedBy(s, op, j) ==> j !in s.leased)
    && (EndedBy(s, op, j) ==> j in s.leased)
    && (j in Apply(s, op).0.leased <==> GrantedBy(s, op, j) || (j in s.leased && !EndedBy(s, op, j)))
  }

  lemma CompletionReply(s: State, op: Op)
    requires op.AckLease? || op.CompleteLease? || op.FailLease?
    ensures Apply(s, op).1 == LeaseMismatch <==> !Holds(s, op.job, op.worker, op.token)
  {
    hide PackLease, TargetPlace, Decrement, DelayMs, Retries;
    Unfenced(s, op);
    if Holds(s, op.job, op.worker, op.token) {
      match op
      case AckLease(_, _, _, _) =>
      case CompleteLease(_, _, _, _, _) =>
      case FailLease(_, _, _, _, _, _) =>
    }
  }

  lemma ForceReply(s: State, op: OperatorOp, j: string, now: int)
    requires Coherent(s)
    ensures var (t, reply) := Scripts.Operator(s, op, j, now);
            if op == ForceAck || op == ForceFail then
              (reply == Done <==> j in s.leased) && (j in t.leased <==> j in s.leased && reply != Done)
            else t.leased == s.leased
  {
    assert CoherentAt(s, j);
    if j in s.leased {
      HolderIsKnown(s, j);
    }
    hide Coherent, IsRecord, HolderOf, Decrement;
    match op
    case ForceAck => ForceEndsLease(s, op, j, now);
    case ForceFail => ForceEndsLease(s, op, j, now);
    case _ =>
      assert LeasesKept(s, Scripts.Operator(s, op, j, now).0);
      hide Scripts.Operator;
  }

  lemma StepLedger(s: State, op: Op, j: string)
    requires Coherent(s) && EnoughTokens(op)
    ensures LedgerStep(s, op, j)
  {
    assert CoherentAt(s, j);
    hide Coherent, PackLease, IsRecord;
    match op
    case EnqueueJob(e, job, now, requested, mode) =>
      assert LeasesKept(s, Scripts.Enqueue(s, e, job, now, requested, mode).0);
      hide Scripts.Enqueue;
    case ReserveJobs(_, _, _, _, _, _, _) => ReserveLedger(s, op, j);
    case ReapLeases(now, limit) => ReapLedger(s, now, limit, j);
    case OperatorAct(operator, job, now) =>
      hide Scripts.Operator;
      if job == j {
        ForceReply(s, operator, job, now);
      } else {
        OtherJob(s, op, j);
      }
    case HeartbeatLease(_, _, _, _, _) =>
    case PurgeJobs(_) =>
    case PruneStale(_) =>
    case _ =>
      hide Apply;
      if op.job == j {
        CompletionReply(s, op);
        CompletionEndsLease(s, op);
        Unfenced(s, op);
      } else {
        OtherJob(s, op, j);
      }
  }

  lemma ReapLedger(s: State, now: int, limit: nat, j: string)
    ensures LedgerStep(s, ReapLeases(now, limit), j)
  {
    Reaps.ReapRefines(s, now, limit);
    hide Scripts.Reap;
    if j in Reaps.Recovered(s, now, limit) {
      Reaps.RecoveredExpired(s, now, limit, j);
    }
    hide Reaps.Recovered;
  }

  lemma ReserveLedger(s: State, op: Op, j: string)
    requires op.ReserveJobs? && Coherent(s) && EnoughTokens(op)
    ensures LedgerStep(s, op, j)
  {
    ReserveGrants(s, op);
    hide Apply, PackLease, Coherent;
    var (t, reply) := Apply(s, op);
    if GrantedBy(s, op, j) {
      var i :| 0 <= i < |reply.grants| && reply.grants[i].job == j;
      assert GrantedAt(s, t, j, op.worker, reply.grants[i].token, op.now + op.duration);
    } else if reply.Reserved? {
      assert IsGranted(reply.grants, j) || UntouchedAt(s, t, j);
    }
  }

  function GrantCount(ops: seq<Op>, i: nat, j: string): nat
    requires i <= |ops|
  {
    if i == 0 then 0 else GrantCount(ops, i - 1, j) + if GrantedBy(After(ops, i - 1), ops[i - 1], j) then 1 else 0
  }

  function EndCount(ops: seq<Op>, i: nat, j: string): nat
    requires i <= |ops|
  {
    if i == 0 then 0 else EndCount(ops, i - 1, j) + if EndedBy(After(ops, i - 1), ops[i - 1], j) then 1 else 0
  }

  /** Conservation of leases: the grants clients have been told of are the endings they have been told of, or that a
      reap has caused, plus the lease that is still there. */
  lemma {:induction false} LeasesBalance(ops: seq<Op>, i: nat, j: string)
    requires i <= |ops| && ValidRun(ops)
    ensures GrantCount(ops, i, j) == EndCount(ops, i, j) + if j in After(ops, i).leased then 1 else 0
    decreases i
  {
    hide Coherent, Apply, Issued, GrantedBy, EndedBy;
    if i > 0 {
      LeasesBalance(ops, i - 1, j);
      RunCoherent(ops, i - 1);
      StepHasTokens(ops, i - 1);
      StepLedger(After(ops, i - 1), ops[i - 1], j);
    }
  }

  /** What may end an attempt: its own completion, an operator's force, or a reap past its deadline. */
  predicate MayEnd(s: State, op: Op, job: string, worker: string, token: string)
    requires job in s.leased
  {
    CompletionBy(op, job, worker, token) || Forces(op, job) || (op.ReapLeases? && s.leased[job] <= op.now)
  }

  /** Any other step leaves the attempt in place, with the deadline it had or the one its own heartbeat sets. */
  lemma StepKeepsAttempt(s: State, op: Op, job: string, worker: string, token: string)
    requires Coherent(s) && EnoughTokens(op)
    requires Holds(s, job, worker, token) && !MayEnd(s, op, job, worker, token)
    ensures var t := Apply(s, op).0;
            && Holds(t, job, worker, token)
            && t.leased[job] == if SentBy(op, job, worker, token) then op.now + op.duration else s.leased[job]
  {
    StepCoherent(s, op);
    StepLedger(s, op, job);
    assert CoherentAt(Apply(s, op).0, job);
    if op.ReserveJobs? {
      ReserveKeepsAttempt(s, op, job, worker, token);
    } else {
      OthersBeginNoLease(s, op);
      hide Coherent, IsRecord;
      NotEnded(s, op, job, worker, token);
      DeadlineKept(s, op, job, worker, token);
      hide Apply, PackLease;
    }
  }

  lemma NotEnded(s: State, op: Op, job: string, worker: string, token: string)
    requires Holds(s, job, worker, token) && !MayEnd(s, op, job, worker, token)
    ensures !EndedBy(s, op, job)
  {
    match op
    case ReapLeases(now, limit) =>
      if job in Reaps.Recovered(s, now, limit) {
        Reaps.RecoveredExpired(s, now, limit, job);
      }
    case OperatorAct(_, _, _) =>
    case EnqueueJob(_, _, _, _, _) =>
    case ReserveJobs(_, _, _, _, _, _, _) =>
    case HeartbeatLease(_, _, _, _, _) =>
    case PurgeJobs(_) =>
    case PruneStale(_) =>
    case _ =>
      hide Apply;
      if op.job == job {
        CompletionReply(s, op);
        if Holds(s, job, op.worker, op.token) {
          PackInjective(worker, token, op.worker, op.token);
        }
      }
  }

  lemma DeadlineKept(s: State, op: Op, job: string, worker: string, token: string)
    requires !op.ReserveJobs? && Holds(s, job, worker, token) && job in Apply(s, op).0.leased
    ensures Apply(s, op).0.leased[job]
         == if op.HeartbeatLease? && SentBy(op, job, worker, token) then op.now + op.duration else s.leased[job]
  {
    hide PackLease;
    match op
    case EnqueueJob(e, j, now, requested, mode) =>
      assert LeasesKept(s, Scripts.Enqueue(s, e, j, now, requested, mode).0);
      hide Scripts.Enqueue;
    case ReapLeases(now, limit) =>
      Reaps.ReapRefines(s, now, limit);
      hide Scripts.Reap, Reaps.Recovered;
    case OperatorAct(operator, j, now) =>
      assert LeasesKept(s, Scripts.Operator(s, operator, j, now).0)
             || LeasesKept(Scripts.Release(s, j, HolderOf(s, j)), Scripts.Operator(s, operator, j, now).0);
      hide Scripts.Operator;
    case HeartbeatLease(j, w, k, _, _) =>
      if j == job && Holds(s, job, w, k) {
        PackInjective(worker, token, w, k);
      }
    case PurgeJobs(_) =>
    case PruneStale(_) =>
    case ReserveJobs(_, _, _, _, _, _, _) =>
    case _ =>
      hide Apply;
      if op.job == job {
        CompletionEndsLease(s, op);
        Unfenced(s, op);
      } else {
        OtherJob(s, op, job);
      }
  }

  lemma ReserveKeepsAttempt(s: State, op: Op, job: string, worker: string, token: string)
    requires op.ReserveJobs? && Coherent(s) && EnoughTokens(op) && Holds(s, job, worker, token)
    ensures Holds(Apply(s, op).0, job, worker, token) && Apply(s, op).0.leased[job] == s.leased[job]
  {
    ReserveGrants(s, op);
    hide Apply, PackLease, Coherent;
    var (t, reply) := Apply(s, op);
    if reply.Reserved? {
      assert forall i | 0 <= i < |reply.grants| ::
          GrantedAt(s, t, reply.grants[i].job, op.worker, reply.grants[i].token, op.now + op.duration);
      assert IsGranted(reply.grants, job) || UntouchedAt(s, t, job);
    }
  }

  /** Every end of an attempt has one of those causes. */
  lemma EndsForCause(ops: seq<Op>, i: nat, job: string, worker: string, token: string)
    requires i < |ops| && ValidRun(ops)
    requires EndsAt(ops, i, job, worker, token)
    ensures MayEnd(After(ops, i), ops[i], job, worker, token)
  {
    RunCoherent(ops, i);
    StepHasTokens(ops, i);
    hide Coherent, Apply, Issued;
    if !MayEnd(After(ops, i), ops[i], job, worker, token) {
      StepKeepsAttempt(After(ops, i), ops[i], job, worker, token);
    }
  }
}
