/** What single steps do to one job: its placement, its rerun mark and its failure counter. */
module JobSteps {
  import opened Wrappers
  import opened Codec
  import opened Queue
  import opened Invariants
  import opened Steps
  import opened Coherence
  import opened LeaseSteps
  import opened ReservationSpec
  import Reaps
  import Scripts

  predicate AboutOneJob(op: Op) {
    op.EnqueueJob? || op.HeartbeatLease? || op.AckLease? || op.CompleteLease? || op.FailLease? || op.OperatorAct?
  }

  lemma OtherJob(s: State, op: Op, j: string)
    requires AboutOneJob(op) && op.job != j
    ensures SameJobAt(s, Apply(s, op).0, j)
  {
    hide SameJobAt, Scripts.Enqueue, Scripts.Heartbeat, Scripts.Ack, Scripts.Complete, Scripts.Fail, Scripts.Operator;
  }

  predicate ImmediateFor(op: Op, j: string) {
    op.EnqueueJob? && op.op == EnqueueImmediate && op.job == j
  }

  /** The step grants a lease on `j`. */
  predicate GrantedBy(s: State, op: Op, j: string) {
    op.ReserveJobs? && Apply(s, op).1.Reserved? && IsGranted(Apply(s, op).1.grants, j)
  }

  lemma ImmediateRerun(s: State, j: string, now: int)
    requires CoherentAt(s, j)
    ensures var t := Scripts.Immediate(s, j, now).0;
            && (j in t.leased <==> j in s.leased) && (j in t.rerun <==> j in s.leased)
  {
    hide IsRecord;
    match PlaceOf(s, j)
    case Ready =>
    case Leased =>
    case Scheduled =>
    case Failed =>
    case Absent =>
  }

  /** A leased job is out of reach of every enqueue but an immediate one. */
  lemma EnqueueLeased(s: State, op: EnqueueOp, j: string, now: int, requested: int, mode: ReplaceMode)
    requires CoherentAt(s, j) && j in s.leased && op != EnqueueImmediate
    ensures Scripts.Enqueue(s, op, j, now, requested, mode).0 == s
  {
    hide IsRecord;
  }

  lemma OperatorLeased(s: State, op: OperatorOp, j: string, now: int)
    requires CoherentAt(s, j) && j in s.leased
    ensures Scripts.Operator(s, op, j, now).0 == s || j !in Scripts.Operator(s, op, j, now).0.leased
  {
    hide IsRecord, HolderOf, Decrement;
    match op
    case ForceAck => ForceEndsLease(s, op, j, now);
    case ForceFail => ForceEndsLease(s, op, j, now);
    case _ =>
  }

  lemma ForceEndsLease(s: State, op: OperatorOp, j: string, now: int)
    ensures Scripts.Force(s, op, j, now).0 == s || j !in Scripts.Force(s, op, j, now).0.leased
  {
    hide HolderOf, Decrement;
    if HolderOf(s, j) != None {
      if op == ForceAck {
        assert LeasesKept(Scripts.Release(s, j, HolderOf(s, j)), Scripts.Force(s, op, j, now).0);
      } else {
        assert LeasesKept(Scripts.Release(s, j, HolderOf(s, j)), Scripts.Force(s, op, j, now).0);
      }
    }
  }

  /** The rerun mark of a job changes only when an immediate enqueue meets a lease, or when the lease ends. */
  ghost predicate RerunStep(s: State, op: Op, j: string) {
    var t := Apply(s, op).0;
    if ImmediateFor(op, j) then
      (j in t.leased <==> j in s.leased) && (j in t.rerun <==> j in s.leased)
    else if GrantedBy(s, op, j) then
      j in t.leased && j !in s.leased && j !in t.rerun
    else
      j in t.leased ==> j in s.leased && (j in t.rerun <==> j in s.rerun)
  }

  lemma StepRerun(s: State, op: Op, j: string)
    requires Coherent(s) && EnoughTokens(op)
    ensures RerunStep(s, op, j)
  {
    assert CoherentAt(s, j);
    hide Coherent, CoherentAt, PackLease;
    if AboutOneJob(op) && op.job != j {
      OtherJob(s, op, j);
      hide Apply;
    } else {
      match op
      case EnqueueJob(e, _, now, requested, mode) =>
        hide Scripts.Immediate, Scripts.Schedule, Scripts.Move;
        if e == EnqueueImmediate {
          ImmediateRerun(s, j, now);
        } else if j in s.leased {
          EnqueueLeased(s, e, j, now, requested, mode);
        } else {
          OthersBeginNoLease(s, op);
        }
      case ReserveJobs(_, _, _, _, _, _, _) => ReserveRerun(s, op, j);
      case ReapLeases(now, limit) =>
        Reaps.ReapRefines(s, now, limit);
        hide Scripts.Reap, Reaps.Recovered;
      case OperatorAct(operator, _, now) =>
        hide Scripts.Operator;
        OthersBeginNoLease(s, op);
        if j in s.leased {
          OperatorLeased(s, operator, j, now);
        }
      case HeartbeatLease(_, _, _, _, _) =>
      case PurgeJobs(_) =>
      case PruneStale(_) =>
      case _ =>
        OthersBeginNoLease(s, op);
        CompletionEndsLease(s, op);
        Unfenced(s, op);
        hide Apply;
    }
  }

  lemma Unfenced(s: State, op: Op)
    requires op.AckLease? || op.CompleteLease? || op.FailLease?
    ensures !Holds(s, op.job, op.worker, op.token) ==> Apply(s, op) == (s, LeaseMismatch)
  {
    if !Holds(s, op.job, op.worker, op.token) {
      Fenced(s, op, op.job, op.worker, op.token);
    }
  }

  lemma ReserveRerun(s: State, op: Op, j: string)
    requires op.ReserveJobs? && Coherent(s) && EnoughTokens(op)
    ensures RerunStep(s, op, j)
  {
    ReserveGrants(s, op);
    assert CoherentAt(s, j);
    hide Apply, PackLease, Coherent;
    var (t, reply) := Apply(s, op);
    if GrantedBy(s, op, j) {
      var i :| 0 <= i < |reply.grants| && reply.grants[i].job == j;
      assert GrantedAt(s, t, j, op.worker, reply.grants[i].token, op.now + op.duration);
    } else if reply.Reserved? {
      assert IsGranted(reply.grants, j) || UntouchedAt(s, t, j);
    }
  }

  /** The only ways out of the queue: a run that succeeded with no rerun requested, a cancel, a purge. */
  predicate Leaves(s: State, op: Op, j: string) {
    match op
    case AckLease(job, worker, token, _) => job == j && Holds(s, j, worker, token) && j !in s.rerun
    case OperatorAct(operator, job, _) =>
      job == j && ((operator == ForceAck && j in s.leased && j !in s.rerun)
                   || (operator == Cancel && (j in s.scheduled || j in s.failed)))
    case PurgeJobs(jobs) => j in jobs && j in s.failed
    case _ => false
  }

  lemma EnqueueStays(s: State, op: EnqueueOp, j: string, now: int, requested: int, mode: ReplaceMode)
    requires PlaceOf(s, j) != Absent || op != Reschedule
    ensures PlaceOf(Scripts.Enqueue(s, op, j, now, requested, mode).0, j) != Absent
  {
    hide Scripts.Immediate, Scripts.Schedule, Scripts.Move;
  }

  lemma EnqueueIsImmediate(s: State, j: string, now: int, requested: int, mode: ReplaceMode)
    ensures Scripts.Enqueue(s, EnqueueImmediate, j, now, requested, mode) == Scripts.Immediate(s, j, now)
  {
    hide Scripts.Immediate;
  }

  lemma CompletionStays(s: State, op: Op, j: string)
    requires (op.AckLease? || op.CompleteLease? || op.FailLease?) && op.job == j
    requires PlaceOf(s, j) != Absent && !Leaves(s, op, j)
    ensures PlaceOf(Apply(s, op).0, j) != Absent
  {
    hide PackLease, TargetPlace, Decrement;
    Unfenced(s, op);
    if Holds(s, j, op.worker, op.token) {
      match op
      case AckLease(_, _, _, _) =>
      case CompleteLease(_, _, _, now, requested) =>
        if j in s.rerun || TargetPlace(now, requested) == Ready {
        } else {
        }
      case FailLease(_, _, _, now, terminal, policy) =>
        var t := Scripts.Release(s, j, Some(op.worker)).(failures := Increment(s.failures, j));
        assert PlaceOf(Scripts.Settle(t, j, Counter(t.failures, j), now, terminal, policy).0, j) != Absent;
        hide Scripts.Settle, Scripts.Release;
    }
  }

  lemma OperatorStays(s: State, op: OperatorOp, j: string, now: int)
    requires CoherentAt(s, j) && PlaceOf(s, j) != Absent && !Leaves(s, OperatorAct(op, j, now), j)
    ensures PlaceOf(Scripts.Operator(s, op, j, now).0, j) != Absent
  {
    hide HolderOf, Decrement, IsRecord;
    match PlaceOf(s, j)
    case Ready =>
    case Scheduled =>
    case Failed =>
    case Leased =>
      if op == ForceAck || op == ForceFail {
        if HolderOf(s, j) != None {
          if op == ForceAck {
          } else {
          }
        }
      }
  }

  /** A job that is in the queue leaves it if and only if the step is one of those. */
  lemma StepLeaves(s: State, op: Op, j: string)
    requires Coherent(s) && EnoughTokens(op) && PlaceOf(s, j) != Absent
    ensures PlaceOf(Apply(s, op).0, j) == Absent <==> Leaves(s, op, j)
  {
    hide *;
    if Leaves(s, op, j) {
      LeavesGone(s, op, j);
    } else {
      StepStays(s, op, j);
    }
  }

  lemma LeavesGone(s: State, op: Op, j: string)
    requires Coherent(s) && Leaves(s, op, j)
    ensures PlaceOf(Apply(s, op).0, j) == Absent
  {
    assert CoherentAt(s, j);
    if op.OperatorAct? && j in s.leased {
      HolderIsKnown(s, j);
    }
    hide Coherent, PackLease, IsRecord, HolderOf, Decrement;
    match op
    case AckLease(_, _, _, _) =>
    case OperatorAct(operator, _, now) => OperatorGone(s, operator, j, now);
    case PurgeJobs(_) =>
  }

  lemma OperatorGone(s: State, operator: OperatorOp, j: string, now: int)
    requires OnePlaceAt(s, j) && (j in s.leased ==> HolderOf(s, j) != None)
    requires Leaves(s, OperatorAct(operator, j, now), j)
    ensures PlaceOf(Scripts.Operator(s, operator, j, now).0, j) == Absent
  {
    hide HolderOf, Decrement;
    match operator
    case ForceAck =>
    case Cancel =>
  }

  lemma StepStays(s: State, op: Op, j: string)
    requires Coherent(s) && EnoughTokens(op)
    requires PlaceOf(s, j) != Absent && !Leaves(s, op, j)
    ensures PlaceOf(Apply(s, op).0, j) != Absent
  {
    assert CoherentAt(s, j);
    hide Coherent, PackLease, IsRecord;
    if AboutOneJob(op) && op.job != j {
      OtherJob(s, op, j);
      hide Apply;
    } else {
      match op
      case EnqueueJob(e, _, now, requested, mode) =>
        hide Scripts.Enqueue;
        EnqueueStays(s, e, j, now, requested, mode);
      case ReserveJobs(_, _, _, _, _, _, _) => ReserveStays(s, op, j);
      case ReapLeases(now, limit) =>
        Reaps.ReapRefines(s, now, limit);
        hide Scripts.Reap, Reaps.Recovered;
      case OperatorAct(operator, _, now) =>
        hide Scripts.Operator;
        OperatorStays(s, operator, j, now);
      case HeartbeatLease(_, _, _, _, _) =>
      case PurgeJobs(_) =>
      case PruneStale(_) =>
      case _ =>
        hide Apply, Holds;
        CompletionStays(s, op, j);
    }
  }

  lemma ReserveStays(s: State, op: Op, j: string)
    requires op.ReserveJobs? && Coherent(s) && EnoughTokens(op) && PlaceOf(s, j) != Absent
    ensures PlaceOf(Apply(s, op).0, j) != Absent
  {
    ReserveGrants(s, op);
    hide Apply, PackLease, Coherent;
    var (t, reply) := Apply(s, op);
    if reply.Reserved? {
      assert IsGranted(reply.grants, j) || UntouchedAt(s, t, j);
      if IsGranted(reply.grants, j) {
        var i :| 0 <= i < |reply.grants| && reply.grants[i].job == j;
        assert GrantedAt(s, t, j, op.worker, reply.grants[i].token, op.now + op.duration);
      }
    }
  }
}
