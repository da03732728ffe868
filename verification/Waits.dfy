/** How long a ready job waits: reservations reach it in the order of activation, whatever else happens. */
module Waits {
  import opened Wrappers
  import opened SortedSets
  import opened Policy
  import opened Decimal
  import opened LuaNumbers
  import opened Queue
  import opened Invariants
  import opened Steps
  import opened Coherence
  import opened LeaseSteps
  import opened ReservationSpec
  import opened JobSteps
  import opened Runs
  import opened Replies
  import Reaps
  import Reservations
  import Scripts

  /** The jobs a reservation takes before the ready job `j`, as soon as `j` is due: older ones, and of the same age the
      ready ones with a smaller id. */
  ghost function AheadOf(s: State, j: string): set<string>
    requires j in s.ready
  {
    (set k | k in s.ready && Before(s.ready, k, j)) + (set k | k in s.scheduled && s.scheduled[k] < s.ready[j])
  }

  /** One-based position in that order. */
  ghost function Turn(s: State, j: string): nat
    requires j in s.ready
  {
    |AheadOf(s, j)| + 1
  }

  /** A step that lets job `j`, ready since `since`, keep its turn: clocks have passed that moment, and nobody reschedules
      the job. */
  predicate Behind(op: Op, j: string, since: int) {
    match op
    case EnqueueJob(e, job, now, _, _) => now > since && (job == j ==> e == EnqueueImmediate)
    case ReserveJobs(_, now, _, _, _, _, _) => now >= since
    case HeartbeatLease(_, _, _, _, _) => true
    case AckLease(_, _, _, now) => now > since
    case CompleteLease(_, _, _, now, _) => now > since
    case FailLease(_, _, _, now, _, _) => now > since
    case ReapLeases(now, _) => now > since
    case OperatorAct(_, _, now) => now > since
    case PurgeJobs(_) => true
    case PruneStale(_) => true
  }

  /** What is known of one waiting job after a step: it waits as before, or since a moment after `since`. */
  ghost predicate LaterOnly(s: State, t: State, k: string, since: int) {
    && (k in t.ready ==> (k in s.ready && t.ready[k] == s.ready[k]) || t.ready[k] > since)
    && (k in t.scheduled ==> (k in s.scheduled && t.scheduled[k] == s.scheduled[k]) || t.scheduled[k] > since)
  }

  lemma IsAtLater(s: State, t: State, job: string, place: Place, now: int, at: int, since: int)
    requires IsAt(t, job, place, now, at) && OnePlaceAt(t, job) && now > since && (place == Scheduled ==> at > since)
    ensures LaterOnly(s, t, job, since)
  {
  }

  lemma EnqueueLater(s: State, t: State, reply: Reply, job: string, now: int, since: int)
    requires reply.Placed? && Tells(s, t, job, now, reply) && OnePlaceAt(t, job) && now > since
    ensures LaterOnly(s, t, job, since)
  {
    hide FormatInt, LuaNumber;
    if reply.status != Unchanged {
      IsAtLater(s, t, job, reply.place, now, ShownTime(t, job), since);
    }
  }

  lemma FailLater(s: State, t: State, reply: Reply, job: string, n: int, now: int, terminal: bool, policy: RetryPolicy, since: int)
    requires Tells(s, t, job, now, reply) && Follows(reply, n, now, terminal, policy) && OnePlaceAt(t, job) && now > since
    ensures LaterOnly(s, t, job, since)
  {
    hide Retries, DelayMs;
    IsAtLater(s, t, job, reply.place, now, reply.retryAt, since);
  }

  lemma OwnEntryLater(s: State, op: Op, j: string, since: int)
    requires Coherent(s) && EnoughTokens(op) && AboutOneJob(op) && Behind(op, j, since)
    ensures LaterOnly(s, Apply(s, op).0, op.job, since)
  {
    StepCoherent(s, op);
    assert CoherentAt(s, op.job) && CoherentAt(Apply(s, op).0, op.job);
    hide Coherent, IsRecord, Follows, Tells, IsAt, Scripts.Enqueue, Scripts.Ack, Scripts.Complete, Scripts.Fail,
         Scripts.Operator;
    match op
    case EnqueueJob(e, job, now, requested, mode) =>
      EnqueueTells(s, e, job, now, requested, mode);
      var (t, reply) := Apply(s, op);
      if !Refused(reply) {
        EnqueueLater(s, t, reply, job, now, since);
      }
    case HeartbeatLease(_, _, _, _, _) =>
    case AckLease(job, worker, token, now) =>
      AckTells(s, job, worker, token, now);
      if Holds(s, job, worker, token) && job in s.rerun {
        IsAtLater(s, Apply(s, op).0, job, Ready, now, 0, since);
      }
    case CompleteLease(job, worker, token, now, requested) =>
      CompleteTells(s, job, worker, token, now, requested);
      if Holds(s, job, worker, token) {
        var ahead := job !in s.rerun && requested != 0 && requested > now;
        IsAtLater(s, Apply(s, op).0, job, if ahead then Scheduled else Ready, now, if ahead then requested else 0, since);
      }
    case FailLease(job, worker, token, now, terminal, policy) =>
      FailTells(s, job, worker, token, now, terminal, policy);
      if Holds(s, job, worker, token) {
        FailLater(s, Apply(s, op).0, Apply(s, op).1, job, Counter(s.failures, job) + 1, now, terminal, policy, since);
      }
    case OperatorAct(operator, job, now) =>
      OperatorTells(s, operator, job, now);
      if Admits(PlaceOf(s, job), operator) && job !in s.ready {
        IsAtLater(s, Apply(s, op).0, job, Destination(s, operator, job), now, 0, since);
      }
  }

  /** No step puts a job ahead. */
  lemma EntryLater(s: State, op: Op, j: string, since: int, k: string)
    requires Coherent(s) && EnoughTokens(op) && Behind(op, j, since)
    ensures LaterOnly(s, Apply(s, op).0, k, since)
  {
    hide Coherent;
    if AboutOneJob(op) {
      if op.job == k {
        OwnEntryLater(s, op, j, since);
      } else {
        OtherJob(s, op, k);
      }
      hide Apply;
    } else {
      match op
      case ReserveJobs(_, _, _, _, _, _, _) => ReserveLater(s, op, k, since);
      case ReapLeases(now, limit) =>
        Reaps.ReapRefines(s, now, limit);
        hide Scripts.Reap, Reaps.Recovered;
      case PurgeJobs(_) =>
      case PruneStale(_) =>
    }
  }

  lemma ReserveLater(s: State, op: Op, k: string, since: int)
    requires op.ReserveJobs? && Coherent(s) && EnoughTokens(op)
    ensures LaterOnly(s, Apply(s, op).0, k, since)
  {
    ReserveGrants(s, op);
    hide Apply, Coherent;
    var (t, reply) := Apply(s, op);
    if reply.Reserved? {
      assert IsGranted(reply.grants, k) || UntouchedAt(s, t, k);
      if IsGranted(reply.grants, k) {
        var i :| 0 <= i < |reply.grants| && reply.grants[i].job == k;
        assert GrantedAt(s, t, k, op.worker, reply.grants[i].token, op.now + op.duration);
      }
    }
  }

  /** The job itself stays where it is until a reservation takes it. */
  lemma ReadyStays(s: State, op: Op, j: string, since: int)
    requires Coherent(s) && EnoughTokens(op) && Behind(op, j, since) && j in s.ready && !GrantedBy(s, op, j)
    ensures var t := Apply(s, op).0; j in t.ready && t.ready[j] == s.ready[j]
  {
    assert CoherentAt(s, j);
    hide Coherent, IsRecord;
    if AboutOneJob(op) && op.job != j {
      OtherJob(s, op, j);
      hide Apply;
    } else {
      match op
      case EnqueueJob(_, _, now, _, _) => hide FormatInt;
      case ReserveJobs(_, _, _, _, _, _, _) =>
        ReserveGrants(s, op);
        hide Apply;
        var (t, reply) := Apply(s, op);
        assert reply.Reserved? ==> IsGranted(reply.grants, j) || UntouchedAt(s, t, j);
      case ReapLeases(now, limit) =>
        Reaps.ReapRefines(s, now, limit);
        hide Scripts.Reap;
        if j in Reaps.Recovered(s, now, limit) {
          Reaps.RecoveredExpired(s, now, limit, j);
        }
        hide Reaps.Recovered;
      case OperatorAct(operator, _, now) =>
        OperatorTells(s, operator, j, now);
        hide Scripts.Operator;
      case HeartbeatLease(_, _, _, _, _) =>
      case PurgeJobs(_) =>
      case PruneStale(_) =>
      case _ =>
        Unfenced(s, op);
        hide Apply;
    }
  }

  /** The order of the waiting jobs is the order of the eligible ones, once `j` is due. */
  lemma AheadIsEligible(s: State, now: int, j: string)
    requires OnePlace(s) && j in s.ready && s.ready[j] <= now
    ensures j in Eligible(s, now) && Ahead(Eligible(s, now), j) == AheadOf(s, j)
  {
    var z := Eligible(s, now);
    assert j in z;
    hide LexBefore;
    forall k ensures k in Ahead(z, j) <==> k in AheadOf(s, j) {
      assert OnePlaceAt(s, k);
    }
  }

  /** The step is a reservation that the store accepts. */
  predicate Accepted(s: State, op: Op) {
    op.ReserveJobs? && op.capacity > 0 && Apply(s, op).1.Reserved?
  }

  lemma AcceptedTakes(s: State, op: Op)
    requires Coherent(s) && EnoughTokens(op) && Accepted(s, op)
    ensures var (t, reply) := Apply(s, op);
            var order := Ranked(Eligible(s, op.now));
            var got := order[..Least(op.capacity, |order|)];
            && JobsOf(reply.grants) == got
            && t.ready == s.ready - Members(got) && t.scheduled == s.scheduled - Members(got)
  {
    var key := PolicyKey(op.policy);
    AcceptedPolicy(s, op);
    CoherentIndexes(s);
    Apart(s, op.worker, op.now, key, op.record);
    hide Coherent, OnePlace, ScheduledApart, PolicyKey, Scripts.Reserve, Eligible, Ranked, Assigned, Members, Records;
    Reservations.ReserveTakesFirst(s, op.worker, op.now, op.capacity, op.duration, key, op.record, op.tokens);
  }

  lemma AcceptedPolicy(s: State, op: Op)
    requires Accepted(s, op)
    ensures s.policy == None || s.policy == Some(PolicyKey(op.policy))
  {
    hide Scripts.GrantLoop, Scripts.Register, PolicyKey;
  }

  lemma GrantedMembers(grants: seq<Grant>, j: string)
    ensures IsGranted(grants, j) <==> j in JobsOf(grants)
  {
    if IsGranted(grants, j) {
      var i :| 0 <= i < |grants| && grants[i].job == j;
      assert JobsOf(grants)[i] == j;
    }
  }

  /** An accepted reservation that does not take the job brings its turn forward by its whole capacity. */
  lemma ReserveBringsForward(s: State, op: Op, j: string)
    requires Coherent(s) && EnoughTokens(op) && Accepted(s, op)
    requires j in s.ready && s.ready[j] <= op.now && !GrantedBy(s, op, j)
    ensures var t := Apply(s, op).0; j in t.ready && Turn(t, j) + op.capacity == Turn(s, j)
  {
    var z := Eligible(s, op.now);
    CoherentIndexes(s);
    AheadIsEligible(s, op.now, j);
    AcceptedTakes(s, op);
    var t := Apply(s, op).0;
    GrantedMembers(Apply(s, op).1.grants, j);
    hide Coherent, OnePlace, Apply, Eligible, Ranked, Members, IsGranted, JobsOf, Ahead;
    var n := Least(op.capacity, |z|);
    var got := Ranked(z)[..n];
    Reservations.FirstAhead(z, j, n);
    Reservations.MembersIn(got, j);
    TakenAhead(s, t, j, Members(got));
  }

  lemma TakenAhead(s: State, t: State, j: string, got: set<string>)
    requires j in s.ready && j !in got && got <= AheadOf(s, j)
    requires t.ready == s.ready - got && t.scheduled == s.scheduled - got
    ensures j in t.ready && |AheadOf(t, j)| == |AheadOf(s, j)| - |got|
  {
    hide LexBefore;
    forall k ensures k in AheadOf(t, j) <==> k in AheadOf(s, j) - got {
      assert k in t.ready <==> k in s.ready && k !in got;
      assert k in t.scheduled <==> k in s.scheduled && k !in got;
    }
    assert AheadOf(t, j) == AheadOf(s, j) - got;
    hide AheadOf;
  }

  /** Any other step leaves the turn of the job where it was, or brings it forward. */
  lemma StepTurn(s: State, op: Op, j: string, since: int)
    requires Coherent(s) && EnoughTokens(op) && Behind(op, j, since)
    requires j in s.ready && s.ready[j] == since && !GrantedBy(s, op, j)
    ensures var t := Apply(s, op).0;
            && j in t.ready && t.ready[j] == since
            && Turn(t, j) + (if Accepted(s, op) then op.capacity else 0) <= Turn(s, j)
  {
    ReadyStays(s, op, j, since);
    if Accepted(s, op) {
      ReserveBringsForward(s, op, j);
    } else {
      var t := Apply(s, op).0;
      hide Coherent, Apply, Behind, LexBefore, GrantedBy;
      forall k | k in AheadOf(t, j) ensures k in AheadOf(s, j) {
        EntryLater(s, op, j, since, k);
      }
      Reservations.SubsetSize(AheadOf(t, j), AheadOf(s, j));
    }
  }

  /** What the accepted reservations among the steps `i` .. `n` asked for. */
  function Asked(ops: seq<Op>, i: nat, n: nat): nat
    requires i <= n <= |ops|
    decreases n
  {
    if i == n then 0 else Asked(ops, i, n - 1) + if Accepted(After(ops, n - 1), ops[n - 1]) then ops[n - 1].capacity else 0
  }

  /** A ready job keeps its turn, and every accepted reservation brings it forward by as much as it asks for. */
  lemma {:induction false} TurnComes(ops: seq<Op>, i: nat, n: nat, j: string, since: int)
    requires i <= n <= |ops| && ValidRun(ops)
    requires j in After(ops, i).ready && After(ops, i).ready[j] == since
    requires forall m | i <= m < n :: Behind(ops[m], j, since)
    ensures || (exists m :: i <= m < n && GrantedBy(After(ops, m), ops[m], j))
            || (&& j in After(ops, n).ready && After(ops, n).ready[j] == since
                && Turn(After(ops, n), j) + Asked(ops, i, n) <= Turn(After(ops, i), j))
    decreases n
  {
    hide Coherent, Apply, Issued, GrantedBy, Accepted, Behind, Turn;
    if i < n {
      TurnComes(ops, i, n - 1, j, since);
      if !(exists m :: i <= m < n && GrantedBy(After(ops, m), ops[m], j)) {
        RunCoherent(ops, n - 1);
        StepHasTokens(ops, n - 1);
        StepTurn(After(ops, n - 1), ops[n - 1], j, since);
      }
    }
  }

  /** So no ready job starves: once the accepted reservations have asked for as many jobs as its turn, one of them has
      been granted this job. */
  lemma ReadyIsReserved(ops: seq<Op>, i: nat, n: nat, j: string, since: int)
    requires i <= n <= |ops| && ValidRun(ops)
    requires j in After(ops, i).ready && After(ops, i).ready[j] == since
    requires forall m | i <= m < n :: Behind(ops[m], j, since)
    requires Asked(ops, i, n) >= Turn(After(ops, i), j)
    ensures exists m :: i <= m < n && GrantedBy(After(ops, m), ops[m], j)
  {
    hide After, Issued, GrantedBy, Behind, AheadOf, Asked;
    TurnComes(ops, i, n, j, since);
  }
}
