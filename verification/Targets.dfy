/** An accepted enqueue or reschedule puts the job exactly where it was asked for. */
module Targets {
  import opened Decimal
  import opened LuaNumbers
  import opened Queue
  import opened Invariants
  import opened Replies
  import opened ReservationSpec
  import Scripts

  /** The request names a moment that lies ahead. */
  predicate IsAhead(now: int, requested: int) {
    requested != 0 && requested > now
  }

  /** Scheduled for the requested moment if that lies ahead, else ready now. */
  predicate LandsAt(t: State, job: string, now: int, requested: int) {
    if IsAhead(now, requested) then PlaceOf(t, job) == Scheduled && t.scheduled[job] == requested
    else PlaceOf(t, job) == Ready && t.ready[job] == now
  }

  /** The job already is where the request would put it, or the mode prefers the time it has. */
  predicate StaysPut(s: State, job: string, now: int, requested: int, mode: ReplaceMode)
    requires job in s.ready || job in s.scheduled
  {
    var target := if IsAhead(now, requested) then requested else now;
    || (target == ActivationTime(s, job) && (job in s.scheduled <==> IsAhead(now, requested)))
    || (mode == IfEarlier && ActivationTime(s, job) <= target)
    || (mode == IfLater && ActivationTime(s, job) >= target)
  }

  /** What a call with a requested moment does to a job, whatever state the job is in. */
  ghost predicate Asked(s: State, t: State, reply: Reply, job: string, now: int, requested: int, mode: ReplaceMode) {
    && reply.Placed?
    && (reply.status == Unchanged <==> (job in s.ready || job in s.scheduled) && StaysPut(s, job, now, requested, mode))
    && (reply.status == Unchanged ==> t == s)
    && (reply.status != Unchanged ==> LandsAt(t, job, now, requested))
  }

  lemma PutLands(s: State, job: string, now: int, requested: int)
    requires PlaceOf(s, job) == Absent
    ensures LandsAt(Scripts.Put(s, job, TargetPlace(now, requested), TargetScore(now, requested)), job, now, requested)
  {
  }

  lemma MoveAsked(s: State, job: string, now: int, requested: int, mode: ReplaceMode)
    requires OnePlaceAt(s, job) && (job in s.ready || job in s.scheduled)
    ensures var (t, reply) := Scripts.Move(s, job, now, requested, mode);
            Asked(s, t, reply, job, now, requested, mode)
  {
    var place, score := TargetPlace(now, requested), TargetScore(now, requested);
    hide Scripts.LeaveWaiting, Scripts.Put, FormatInt;
    LeftPlace(s, job);
    PutLands(Scripts.LeaveWaiting(s, job), job, now, requested);
    if (PlaceOf(s, job) == place && Scripts.WaitingScore(s, job) == score)
       || !ShouldReplace(mode, score, Scripts.WaitingScore(s, job)) {
      assert StaysPut(s, job, now, requested, mode);
    } else {
      assert !StaysPut(s, job, now, requested, mode);
    }
  }

  /** Scheduling is refused exactly for a leased job; every other job lands where it was asked for, or is left alone
      exactly when it is there already or the mode says so. */
  lemma ScheduleLands(s: State, job: string, now: int, requested: int, mode: ReplaceMode)
    requires CoherentAt(s, job)
    ensures var (t, reply) := Scripts.Enqueue(s, EnqueueScheduled, job, now, requested, mode);
            if job in s.leased then t == s && reply == InvalidState(Leased)
            else
              && Asked(s, t, reply, job, now, requested, mode)
              && (reply.status == Created <==> PlaceOf(s, job) == Absent)
  {
    hide IsRecord, FormatInt, LuaNumber;
    match PlaceOf(s, job)
    case Leased =>
    case Failed =>
      PutLands(Scripts.Reactivate(s, job), job, now, requested);
      hide Scripts.Put, LandsAt;
    case Absent =>
      PutLands(s.(rerun := s.rerun - {job}), job, now, requested);
      hide Scripts.Put, LandsAt;
    case _ =>
      MoveAsked(s, job, now, requested, mode);
      MoveTells(s, job, now, requested, mode);
      hide Scripts.Move, Asked;
  }

  /** The same for a reschedule, which is refused exactly for a job that does not wait. */
  lemma RescheduleLands(s: State, job: string, now: int, requested: int, mode: ReplaceMode)
    requires CoherentAt(s, job)
    ensures var (t, reply) := Scripts.Enqueue(s, Reschedule, job, now, requested, mode);
            if job in s.ready || job in s.scheduled then Asked(s, t, reply, job, now, requested, mode)
            else t == s && reply == if PlaceOf(s, job) == Absent then NotFound else InvalidState(PlaceOf(s, job))
  {
    hide IsRecord;
    if job in s.ready || job in s.scheduled {
      MoveAsked(s, job, now, requested, mode);
    }
    hide Scripts.Move, Asked;
  }

  /** What an immediate enqueue does: a job that waits keeps its turn, a leased one runs again after this run, and any
      other is ready since now. */
  ghost predicate AtOnce(s: State, t: State, reply: Reply, job: string, now: int) {
    && reply.Placed?
    && (reply.status == Unchanged <==> job in s.ready || job in s.rerun)
    && (reply.status == Created <==> PlaceOf(s, job) == Absent)
    && match PlaceOf(s, job)
       case Ready => t == s
       case Leased => t == s.(rerun := s.rerun + {job})
       case _ => PlaceOf(t, job) == Ready && t.ready[job] == now && job !in t.scheduled && job !in t.failed
  }

  /** It never leaves a schedule behind. */
  lemma ImmediateLands(s: State, job: string, now: int, requested: int, mode: ReplaceMode)
    requires CoherentAt(s, job)
    ensures var (t, reply) := Scripts.Enqueue(s, EnqueueImmediate, job, now, requested, mode);
            AtOnce(s, t, reply, job, now)
  {
    hide IsRecord;
    var r := Scripts.Immediate(s, job, now);
    match PlaceOf(s, job)
    case Ready => assert AtOnce(s, r.0, r.1, job, now);
    case Leased => assert AtOnce(s, r.0, r.1, job, now);
    case _ => EnteredAtOnce(s, job, now);
    hide Scripts.Immediate, AtOnce;
  }

  lemma EnteredAtOnce(s: State, job: string, now: int)
    requires OnePlaceAt(s, job) && job !in s.rerun && PlaceOf(s, job) != Ready && PlaceOf(s, job) != Leased
    ensures var (t, reply) := Scripts.Immediate(s, job, now); AtOnce(s, t, reply, job, now)
  {
    match PlaceOf(s, job)
    case Scheduled =>
    case Failed =>
    case Absent =>
  }
}
