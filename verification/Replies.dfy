/** Replies tell the truth: a refused call changes nothing, and an accepted one leaves the job where the reply says. */
module Replies {
  import opened Wrappers
  import opened Codec
  import opened Policy
  import opened Decimal
  import opened LuaNumbers
  import opened Queue
  import opened Invariants
  import opened Steps
  import opened Coherence
  import Scripts

  predicate Refused(reply: Reply) {
    reply == LeaseMismatch || reply == NotFound || reply.InvalidState? || reply == PolicyMismatch
  }

  /** The job is at `place`, since `now` if it is ready or failed, until `at` if it is scheduled. */
  predicate IsAt(t: State, job: string, place: Place, now: int, at: int) {
    && PlaceOf(t, job) == place
    && (place == Ready ==> t.ready[job] == now && at == 0)
    && (place == Failed ==> t.failed[job] == now && at == 0)
    && (place == Scheduled ==> t.scheduled[job] == at)
  }

  /** The time a reply has to show: that of a schedule, else 0. */
  function ShownTime(t: State, job: string): int {
    if PlaceOf(t, job) == Scheduled then t.scheduled[job] else 0
  }

  /** What an accepted reply about one job says of the job. A leased job stays where it is. */
  ghost predicate Tells(s: State, t: State, job: string, now: int, reply: Reply) {
    match reply
    case Placed(status, place, shown) =>
      && (status == Unchanged <==> t == s)
      && (status == Created <==> PlaceOf(s, job) == Absent)
      && PlaceOf(t, job) == place
      && (status != Unchanged ==> IsAt(t, job, place, now, ShownTime(t, job)))
      && (status != Unchanged && place == Scheduled ==> t.scheduled[job] > now)
      && shown == if PlaceOf(s, job) == Failed then LuaNumber(ShownTime(t, job)) else FormatInt(ShownTime(t, job))
    case Counted(n, place, at) =>
      && IsAt(t, job, place, now, at) && Counter(t.failures, job) == n == Counter(s.failures, job) + 1
    case _ => true
  }

  lemma PutTells(s: State, job: string, place: Place, score: int)
    requires PlaceOf(s, job) == Absent && (place == Ready || place == Scheduled)
    ensures PlaceOf(Scripts.Put(s, job, place, score), job) == place
    ensures if place == Ready then Scripts.Put(s, job, place, score).ready[job] == score
            else Scripts.Put(s, job, place, score).scheduled[job] == score
  {
  }

  lemma MoveTells(s: State, job: string, now: int, requested: int, mode: ReplaceMode)
    requires OnePlaceAt(s, job) && (job in s.ready || job in s.scheduled)
    ensures var (t, reply) := Scripts.Move(s, job, now, requested, mode);
            reply.Placed? && Tells(s, t, job, now, reply)
  {
    var place, score := TargetPlace(now, requested), TargetScore(now, requested);
    hide Scripts.LeaveWaiting, Scripts.Put, Scripts.Replace, ShouldReplace, FormatInt;
    if (PlaceOf(s, job) == place && Scripts.WaitingScore(s, job) == score)
       || !ShouldReplace(mode, score, Scripts.WaitingScore(s, job)) {
      assert Scripts.Move(s, job, now, requested, mode).0 == s;
    } else {
      ReplaceTells(s, job, place, score);
      assert Scripts.Move(s, job, now, requested, mode).0 == Scripts.Replace(s, job, place, score);
    }
  }

  lemma ReplaceTells(s: State, job: string, place: Place, score: int)
    requires OnePlaceAt(s, job) && (job in s.ready || job in s.scheduled) && (place == Ready || place == Scheduled)
    requires !(PlaceOf(s, job) == place && Scripts.WaitingScore(s, job) == score)
    ensures var t := Scripts.Replace(s, job, place, score);
            && t != s && PlaceOf(t, job) == place
            && (if place == Ready then t.ready[job] == score else t.scheduled[job] == score)
  {
    LeftPlace(s, job);
    PutTells(Scripts.LeaveWaiting(s, job), job, place, score);
    MovedDiffers(s, job, place, score);
    hide Scripts.LeaveWaiting, Scripts.Put;
  }

  lemma LeftPlace(s: State, job: string)
    requires OnePlaceAt(s, job) && (job in s.ready || job in s.scheduled)
    ensures PlaceOf(Scripts.LeaveWaiting(s, job), job) == Absent
  {
  }

  lemma MovedDiffers(s: State, job: string, place: Place, score: int)
    requires OnePlaceAt(s, job) && (job in s.ready || job in s.scheduled) && (place == Ready || place == Scheduled)
    requires !(PlaceOf(s, job) == place && Scripts.WaitingScore(s, job) == score)
    ensures Scripts.Replace(s, job, place, score) != s
  {
    LeftPlace(s, job);
    var left := Scripts.LeaveWaiting(s, job);
    PutTells(left, job, place, score);
    if place == Ready {
      assert Scripts.Put(left, job, place, score).ready[job] == score;
    }
    hide Scripts.LeaveWaiting, Scripts.Put;
  }

  lemma ScheduleTells(s: State, job: string, now: int, requested: int, mode: ReplaceMode)
    requires CoherentAt(s, job)
    ensures var (t, reply) := Scripts.Schedule(s, job, now, requested, mode);
            (reply == InvalidState(Leased) && t == s) || (reply.Placed? && Tells(s, t, job, now, reply))
  {
    hide IsRecord, FormatInt, LuaNumber;
    match PlaceOf(s, job)
    case Leased =>
    case Failed =>
      PutTells(Scripts.Reactivate(s, job), job, TargetPlace(now, requested), TargetScore(now, requested));
      hide Scripts.Put;
    case Absent =>
      PutTells(s.(rerun := s.rerun - {job}), job, TargetPlace(now, requested), TargetScore(now, requested));
      hide Scripts.Put;
    case _ =>
      MoveTells(s, job, now, requested, mode);
      hide Scripts.Move, Tells;
  }

  lemma ZeroShown()
    ensures FormatInt(0) == LuaNumber(0) == "0"
  {
  }

  lemma ImmediateTells(s: State, job: string, now: int)
    requires CoherentAt(s, job)
    ensures var (t, reply) := Scripts.Immediate(s, job, now); reply.Placed? && Tells(s, t, job, now, reply)
  {
    ZeroShown();
    hide IsRecord, FormatInt, LuaNumber;
    match PlaceOf(s, job)
    case Ready =>
    case Leased =>
    case Scheduled =>
    case Failed =>
    case Absent =>
  }

  /** An enqueue or a reschedule is refused and changes nothing, or its reply tells where the job is now. */
  lemma EnqueueTells(s: State, op: EnqueueOp, job: string, now: int, requested: int, mode: ReplaceMode)
    requires CoherentAt(s, job)
    ensures var (t, reply) := Scripts.Enqueue(s, op, job, now, requested, mode);
            if Refused(reply) then t == s else reply.Placed? && Tells(s, t, job, now, reply)
  {
    match op
    case EnqueueImmediate =>
      ImmediateTells(s, job, now);
      hide Scripts.Immediate, Tells;
    case EnqueueScheduled =>
      ScheduleTells(s, job, now, requested, mode);
      hide Scripts.Schedule, Tells;
    case Reschedule =>
      hide IsRecord;
      if job in s.ready || job in s.scheduled {
        MoveTells(s, job, now, requested, mode);
      }
      hide Scripts.Move, Tells;
  }

  /** The time an accepted reply shows is the job's own if and only if the job was not failed, or the time has at most 14
      digits: any present-day schedule of a failed job comes back in scientific notation. */
  lemma ShownExactIff(s: State, op: EnqueueOp, job: string, now: int, requested: int, mode: ReplaceMode)
    requires CoherentAt(s, job)
    ensures var (t, reply) := Scripts.Enqueue(s, op, job, now, requested, mode);
            !Refused(reply) ==>
              (reply.shown == FormatInt(ShownTime(t, job))
               <==> PlaceOf(s, job) != Failed || Magnitude(ShownTime(t, job)) < SIGNIFICANT)
  {
    EnqueueTells(s, op, job, now, requested, mode);
    var t := Scripts.Enqueue(s, op, job, now, requested, mode).0;
    TextExactIff(ShownTime(t, job));
    hide Scripts.Enqueue, FormatInt, LuaNumber, IsAt;
  }

  lemma EnteredTells(s: State, t: State, job: string, n: int, now: int, at: int)
    requires PlaceOf(t, job) == Absent && Counter(t.failures, job) == n == Counter(s.failures, job) + 1
    ensures Tells(s, t.(failed := t.failed[job := now]), job, now, Counted(n, Failed, 0))
    ensures Tells(s, t.(ready := t.ready[job := now]), job, now, Counted(n, Ready, 0))
    ensures Tells(s, t.(scheduled := t.scheduled[job := at]), job, now, Counted(n, Scheduled, at))
  {
  }

  /** Where the policy sends a job after failure number `n`. */
  predicate Follows(reply: Reply, n: int, now: int, terminal: bool, policy: RetryPolicy) {
    && reply.Counted?
    && (reply.place == Failed <==> terminal || !Retries(policy, n))
    && (reply.place == Ready <==> !terminal && Retries(policy, n) && DelayMs(BackoffOf(policy), n) == 0)
    && (reply.place == Scheduled <==> !terminal && Retries(policy, n) && DelayMs(BackoffOf(policy), n) != 0)
    && (reply.place == Scheduled ==> reply.retryAt == now + DelayMs(BackoffOf(policy), n) * 1000)
  }

  lemma SettleTells(s: State, t: State, job: string, n: int, now: int, terminal: bool, policy: RetryPolicy)
    requires PlaceOf(t, job) == Absent && Counter(t.failures, job) == n == Counter(s.failures, job) + 1
    ensures var (u, reply) := Scripts.Settle(t, job, n, now, terminal, policy);
            Tells(s, u, job, now, reply) && Follows(reply, n, now, terminal, policy)
  {
    EnteredTells(s, t, job, n, now, now + DelayMs(BackoffOf(policy), n) * 1000);
    hide Retries, DelayMs, Tells, PlaceOf, Counter;
  }

  /** An ack that passes the fence ends the run; the job is ready again at once if a rerun was asked for. */
  lemma AckTells(s: State, job: string, worker: string, token: string, now: int)
    requires OnePlaceAt(s, job)
    ensures var (t, reply) := Scripts.Ack(s, job, worker, token, now);
            if !Holds(s, job, worker, token) then reply == LeaseMismatch && t == s
            else
              && reply == Done
              && if job in s.rerun then IsAt(t, job, Ready, now, 0) else PlaceOf(t, job) == Absent
  {
    hide PackLease, Decrement;
  }

  /** A completion with a next run puts the job where it is asked for, unless a rerun comes first. */
  lemma CompleteTells(s: State, job: string, worker: string, token: string, now: int, requested: int)
    requires OnePlaceAt(s, job)
    ensures var (t, reply) := Scripts.Complete(s, job, worker, token, now, requested);
            if !Holds(s, job, worker, token) then reply == LeaseMismatch && t == s
            else if job !in s.rerun && requested != 0 && requested > now then
              reply == Placed(Updated, Scheduled, FormatInt(requested)) && IsAt(t, job, Scheduled, now, requested)
            else reply == Placed(Updated, Ready, "0") && IsAt(t, job, Ready, now, 0)
  {
    hide PackLease, Decrement, FormatInt;
    if Holds(s, job, worker, token) {
      if job in s.rerun || TargetPlace(now, requested) == Ready {
      } else {
      }
    }
  }

  /** A failure that passes the fence is counted once, and the policy decides where the job goes. */
  lemma FailTells(s: State, job: string, worker: string, token: string, now: int, terminal: bool, policy: RetryPolicy)
    requires OnePlaceAt(s, job)
    ensures var (t, reply) := Scripts.Fail(s, job, worker, token, now, terminal, policy);
            if !Holds(s, job, worker, token) then reply == LeaseMismatch && t == s
            else Tells(s, t, job, now, reply) && Follows(reply, Counter(s.failures, job) + 1, now, terminal, policy)
  {
    hide PackLease, Decrement, Follows, Tells;
    if Holds(s, job, worker, token) {
      var t := Scripts.Release(s, job, Some(worker)).(failures := Increment(s.failures, job));
      SettleTells(s, t, job, Counter(t.failures, job), now, terminal, policy);
      hide Scripts.Settle;
    }
  }

  /** Which operator calls the state of a job admits. */
  predicate Admits(place: Place, operator: OperatorOp) {
    match operator
    case Cancel => place == Scheduled || place == Failed
    case Requeue => place == Ready || place == Scheduled || place == Failed
    case RetryNow => place == Ready || place == Scheduled || place == Failed
    case ForceRetry => place == Failed
    case ForceAck => place == Leased
    case ForceFail => place == Leased
  }

  /** Where an admitted call leaves the job. */
  function Destination(s: State, operator: OperatorOp, job: string): Place {
    match operator
    case Cancel => Absent
    case ForceAck => if job in s.rerun then Ready else Absent
    case ForceFail => Failed
    case _ => Ready
  }

  lemma ForceTells(s: State, operator: OperatorOp, job: string, now: int)
    requires OnePlaceAt(s, job) && job in s.leased && HolderOf(s, job) != None
    requires operator == ForceAck || operator == ForceFail
    ensures var (t, reply) := Scripts.Force(s, operator, job, now);
            reply == Done && IsAt(t, job, Destination(s, operator, job), now, 0)
  {
    hide HolderOf, Decrement;
  }

  /** An operator call succeeds exactly in the states that admit it, and then the job is where the call puts it. */
  lemma OperatorTells(s: State, operator: OperatorOp, job: string, now: int)
    requires Coherent(s)
    ensures var (t, reply) := Scripts.Operator(s, operator, job, now);
            if Admits(PlaceOf(s, job), operator) then
              && reply == Done
              && (if job in s.ready then t == s else IsAt(t, job, Destination(s, operator, job), now, 0))
            else t == s && reply == if PlaceOf(s, job) == Absent then NotFound else InvalidState(PlaceOf(s, job))
  {
    assert CoherentAt(s, job);
    if PlaceOf(s, job) == Leased {
      HolderIsKnown(s, job);
      if operator == ForceAck || operator == ForceFail {
        ForceTells(s, operator, job, now);
      }
      hide Coherent, IsRecord, Scripts.Force, IsAt;
    } else {
      UnleasedTells(s, operator, job, now);
      hide *;
    }
  }

  lemma UnleasedTells(s: State, operator: OperatorOp, job: string, now: int)
    requires OnePlaceAt(s, job) && PlaceOf(s, job) != Leased
    ensures var (t, reply) := Scripts.Operator(s, operator, job, now);
            if Admits(PlaceOf(s, job), operator) then
              && reply == Done
              && (if job in s.ready then t == s else IsAt(t, job, Destination(s, operator, job), now, 0))
            else t == s && reply == if PlaceOf(s, job) == Absent then NotFound else InvalidState(PlaceOf(s, job))
  {
    hide Scripts.Force;
    match PlaceOf(s, job)
    case Absent =>
    case Ready =>
    case Scheduled =>
    case Failed =>
  }

  /** `retry_now` on a failed job is an immediate enqueue. */
  lemma RetryNowIsEnqueue(s: State, job: string, now: int)
    requires CoherentAt(s, job) && job in s.failed
    ensures Scripts.Operator(s, RetryNow, job, now).0 == Scripts.Immediate(s, job, now).0
  {
    hide IsRecord;
  }

  /** A refused call never changes anything, in any state at all. */
  lemma RefusedChangesNothing(s: State, op: Op)
    requires Refused(Apply(s, op).1)
    ensures Apply(s, op).0 == s
  {
    hide PackLease, TargetPlace, HolderOf, Decrement;
    match op
    case EnqueueJob(e, job, now, requested, mode) =>
      hide Apply;
      RefusedEnqueue(s, e, job, now, requested, mode);
    case OperatorAct(operator, job, now) =>
    case FailLease(_, _, _, _, _, _) => hide Scripts.Settle;
    case _ =>
  }

  lemma RefusedEnqueue(s: State, e: EnqueueOp, job: string, now: int, requested: int, mode: ReplaceMode)
    requires Refused(Scripts.Enqueue(s, e, job, now, requested, mode).1)
    ensures Scripts.Enqueue(s, e, job, now, requested, mode).0 == s
  {
    hide Scripts.Put, Scripts.Replace, TargetPlace, TargetScore, ShouldReplace;
  }
}
