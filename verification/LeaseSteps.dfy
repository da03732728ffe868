/** What single steps do to leases: who begins one, who ends one, and who is turned away. */
module LeaseSteps {
  import opened Wrappers
  import opened SortedSets
  import opened Codec
  import opened Policy
  import opened Queue
  import opened Invariants
  import opened Steps
  import opened Coherence
  import opened ReservationSpec
  import Reservations
  import Scripts

  /** A heartbeat or a completion sent on behalf of one attempt. */
  predicate SentBy(op: Op, job: string, worker: string, token: string) {
    match op
    case HeartbeatLease(j, w, t, _, _) => j == job && w == worker && t == token
    case _ => CompletionBy(op, job, worker, token)
  }

  predicate CompletionBy(op: Op, job: string, worker: string, token: string) {
    match op
    case AckLease(j, w, t, _) => j == job && w == worker && t == token
    case CompleteLease(j, w, t, _, _) => j == job && w == worker && t == token
    case FailLease(j, w, t, _, _, _) => j == job && w == worker && t == token
    case _ => false
  }

  predicate Forces(op: Op, job: string) {
    op.OperatorAct? && (op.operator == ForceAck || op.operator == ForceFail) && op.job == job
  }

  /** The fence: a call for an attempt that does not hold the lease changes nothing. */
  lemma Fenced(s: State, op: Op, job: string, worker: string, token: string)
    requires SentBy(op, job, worker, token) && !Holds(s, job, worker, token)
    ensures Apply(s, op) == (s, LeaseMismatch)
  {
    hide PackLease;
  }

  lemma ReleaseNoNewLease(s: State, t: State, job: string, holder: Option<string>)
    requires LeasesKept(Scripts.Release(s, job, holder), t)
    ensures NoNewLease(s, t) && job !in t.leaseMeta && job !in t.leased
  {
  }

  lemma {:induction false} ReapNoNewLease(s: State, now: int, limit: nat)
    ensures NoNewLease(s, Scripts.Reap(s, now, limit).0)
    decreases limit
  {
    hide *;
    Scripts.ReapUnfold(s, now, limit);
    KeptNoNewLease(s, s);
    if limit > 0 && UpTo(s.leased, now) != map[] {
      var job := First(UpTo(s.leased, now));
      var t := Scripts.ReapOne(s, job, now);
      ReleaseNoNewLease(s, t, job, HolderOf(s, job));
      ReapNoNewLease(t, now, limit - 1);
      NoNewLeaseTransitive(s, t, Scripts.Reap(t, now, limit - 1).0);
    }
  }

  lemma NoNewLeaseTransitive(s: State, t: State, u: State)
    requires NoNewLease(s, t) && NoNewLease(t, u)
    ensures NoNewLease(s, u)
  {
  }

  lemma KeptNoNewLease(s: State, t: State)
    ensures LeasesKept(s, t) || s == t ==> NoNewLease(s, t)
  {
  }

  /** Every step but a reservation. */
  lemma OthersBeginNoLease(s: State, op: Op)
    requires !op.ReserveJobs?
    ensures NoNewLease(s, Apply(s, op).0)
  {
    match op
    case EnqueueJob(e, job, now, requested, mode) =>
      assert LeasesKept(s, Scripts.Enqueue(s, e, job, now, requested, mode).0);
      hide *;
      KeptNoNewLease(s, Apply(s, op).0);
    case ReapLeases(now, limit) => ReapNoNewLease(s, now, limit);
    case OperatorAct(operator, job, now) =>
      hide Scripts.Operator, Scripts.Release, LeasesKept, NoNewLease;
      var t := Scripts.Operator(s, operator, job, now).0;
      if LeasesKept(s, t) {
        KeptNoNewLease(s, t);
      } else {
        ReleaseNoNewLease(s, t, job, HolderOf(s, job));
      }
    case PurgeJobs(jobs) => KeptNoNewLease(s, Apply(s, op).0);
    case PruneStale(workers) =>
    case HeartbeatLease(_, _, _, _, _) => hide PackLease;
    case _ => CompletionEndsLease(s, op);
  }

  /** A completion that passes the fence ends the lease; one that does not changes nothing. */
  lemma CompletionEndsLease(s: State, op: Op)
    requires op.AckLease? || op.CompleteLease? || op.FailLease?
    ensures NoNewLease(s, Apply(s, op).0)
    ensures Holds(s, op.job, op.worker, op.token) ==>
              op.job !in Apply(s, op).0.leaseMeta && op.job !in Apply(s, op).0.leased
  {
    if Holds(s, op.job, op.worker, op.token) {
      assert LeasesKept(Scripts.Release(s, op.job, Some(op.worker)), Apply(s, op).0);
      hide *;
      ReleaseNoNewLease(s, Apply(s, op).0, op.job, Some(op.worker));
    } else {
      Fenced(s, op, op.job, op.worker, op.token);
      hide *;
      KeptNoNewLease(s, s);
    }
  }

  /** A reservation is refused, or it registers the worker under the pinned policy and grants the eligible jobs. */
  lemma ReserveGrants(s: State, op: Op)
    requires op.ReserveJobs? && Coherent(s) && EnoughTokens(op)
    ensures var (t, reply) := Apply(s, op);
            || (reply == PolicyMismatch && t == s)
            || (&& reply.Reserved?
                && Grants(s, t, reply.grants, op.worker, op.now + op.duration, op.tokens)
                && (|reply.grants| > 0 ==> t.policy == Some(PolicyKey(op.policy)))
                && (s.policy == None || t.policy == s.policy))
  {
    hide *;
    var key := PolicyKey(op.policy);
    CoherentIndexes(s);
    ReserveIs(s, op);
    if op.capacity == 0 {
      NoGrants(s, op.worker, op.now + op.duration, op.tokens);
    } else if s.policy == None || s.policy == Some(key) {
      ReserveAccepted(s, op.worker, op.now, op.capacity, op.duration, key, op.record, op.tokens);
    } else {
      ReserveRefused(s, op.worker, op.now, op.capacity, op.duration, key, op.record, op.tokens);
    }
  }

  lemma ReserveIs(s: State, op: Op)
    requires op.ReserveJobs?
    ensures EnoughTokens(op) ==> |op.tokens| >= op.capacity
    ensures Apply(s, op)
         == if op.capacity == 0 then (s, Reserved([], 0))
            else Scripts.Reserve(s, op.worker, op.now, op.capacity, op.duration, PolicyKey(op.policy), op.record, op.tokens)
  {
    hide Scripts.Reserve, PolicyKey;
  }

  lemma NoGrants(s: State, worker: string, deadline: int, tokens: seq<string>)
    ensures Grants(s, s, [], worker, deadline, tokens)
  {
  }

  lemma ReserveRefused(s: State, worker: string, now: int, capacity: nat, duration: int, key: string, record: string,
                       tokens: seq<string>)
    requires s.policy != None && s.policy != Some(key)
    ensures Scripts.Reserve(s, worker, now, capacity, duration, key, record, tokens) == (s, PolicyMismatch)
  {
  }

  lemma ReserveAccepted(s: State, worker: string, now: int, capacity: nat, duration: int, key: string, record: string,
                        tokens: seq<string>)
    requires OnePlace(s) && |tokens| >= capacity
    requires s.policy == None || s.policy == Some(key)
    ensures var (t, reply) := Scripts.Reserve(s, worker, now, capacity, duration, key, record, tokens);
            && reply.Reserved?
            && Grants(s, t, reply.grants, worker, now + duration, tokens)
            && t.policy == Some(key)
  {
    hide *;
    var (t, reply) := Scripts.Reserve(s, worker, now, capacity, duration, key, record, tokens);
    var s0 := Scripts.Register(s, worker, now, key, record);
    Apart(s, worker, now, key, record);
    Reservations.ReserveTakesFirst(s, worker, now, capacity, duration, key, record, tokens);
    Reservations.FirstEligibleGrants(s0, t, reply.grants, worker, now, capacity, now + duration, tokens);
    Reservations.FirstEligibleRest(s0, t, reply.grants, worker, now, capacity, now + duration, tokens);
    Unregister(s, t, reply.grants, worker, now, key, record, now + duration, tokens);
  }

  lemma Apart(s: State, worker: string, now: int, key: string, record: string)
    requires OnePlace(s)
    ensures ScheduledApart(s) && OnePlace(Scripts.Register(s, worker, now, key, record))
    ensures Scripts.Register(s, worker, now, key, record).policy == Some(key)
  {
    assert forall j | j in s.scheduled :: OnePlaceAt(s, j);
    forall j ensures OnePlaceAt(Scripts.Register(s, worker, now, key, record), j) {
      assert OnePlaceAt(s, j);
    }
  }

  lemma Unregister(s: State, t: State, grants: seq<Grant>, worker: string, now: int, key: string, record: string,
                   deadline: int, tokens: seq<string>)
    requires Grants(Scripts.Register(s, worker, now, key, record), t, grants, worker, deadline, tokens)
    ensures Grants(s, t, grants, worker, deadline, tokens)
  {
    var s0 := Scripts.Register(s, worker, now, key, record);
    hide PackLease, IsGranted;
    forall i | 0 <= i < |grants| ensures GrantedAt(s, t, grants[i].job, worker, grants[i].token, deadline) {
      assert GrantedAt(s0, t, grants[i].job, worker, grants[i].token, deadline);
    }
    forall j ensures IsGranted(grants, j) || UntouchedAt(s, t, j) {
      assert IsGranted(grants, j) || UntouchedAt(s0, t, j);
    }
  }

  /** Only a reservation begins an attempt, and the attempt is one it reports: its own worker, one of its tokens. */
  lemma AttemptBegins(s: State, op: Op, job: string, worker: string, token: string)
    requires Coherent(s) && EnoughTokens(op)
    requires !Holds(s, job, worker, token) && Holds(Apply(s, op).0, job, worker, token)
    ensures op.ReserveJobs? && worker == op.worker && token in op.tokens
    ensures Apply(s, op).1.Reserved? && Grant(job, token) in Apply(s, op).1.grants
    ensures job !in s.leased
  {
    if op.ReserveJobs? {
      ReserveGrants(s, op);
      hide PackLease, Apply;
      var (t, reply) := Apply(s, op);
      assert IsGranted(reply.grants, job) || UntouchedAt(s, t, job);
      if IsGranted(reply.grants, job) {
        var i :| 0 <= i < |reply.grants| && reply.grants[i].job == job;
        assert GrantedAt(s, t, job, op.worker, reply.grants[i].token, op.now + op.duration);
        PackInjective(worker, token, op.worker, reply.grants[i].token);
        assert reply.grants[i] == Grant(job, token);
      }
    } else {
      OthersBeginNoLease(s, op);
    }
  }
}
