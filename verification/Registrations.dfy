/** What a namespace knows of its workers: when each was last heard of, and the record it registered with. */
module Registrations {
  import opened Wrappers
  import opened SortedSets
  import opened Codec
  import opened Policy
  import opened Queue
  import opened Invariants
  import opened Steps
  import opened Coherence
  import opened LeaseSteps
  import opened ReservationSpec
  import opened Runs
  import Reaps
  import Reservations
  import Scripts

  /** The step registers the worker: its reservation is accepted. */
  predicate Registers(s: State, op: Op, worker: string) {
    op.ReserveJobs? && op.worker == worker && op.capacity > 0 && Apply(s, op).1.Reserved?
  }

  /** The step is a sign of life of the worker that the store accepts. */
  predicate Signs(s: State, op: Op, worker: string) {
    || Registers(s, op, worker)
    || (op.HeartbeatLease? && op.worker == worker && Apply(s, op).1 == Done)
  }

  predicate Prunes(op: Op, worker: string) {
    op.PruneStale? && worker in op.workers
  }

  function Looked<V>(m: map<string, V>, key: string): Option<V> {
    if key in m then Some(m[key]) else None
  }

  /** What one step does to the two entries of a worker. */
  ghost predicate RegistrationStep(s: State, op: Op, worker: string) {
    var t := Apply(s, op).0;
    && Looked(t.lastSeen, worker)
       == (if Signs(s, op, worker) then Some(op.now) else if Prunes(op, worker) then None else Looked(s.lastSeen, worker))
    && Looked(t.workerConfigs, worker)
       == (if Registers(s, op, worker) then Some(op.record) else if Prunes(op, worker) then None
           else Looked(s.workerConfigs, worker))
  }

  lemma ReserveRegisters(s: State, op: Op)
    requires op.ReserveJobs? && Coherent(s) && EnoughTokens(op)
    ensures var (t, reply) := Apply(s, op);
            if op.capacity > 0 && reply.Reserved? then
              t.lastSeen == s.lastSeen[op.worker := op.now] && t.workerConfigs == s.workerConfigs[op.worker := op.record]
            else t == s
  {
    var key := PolicyKey(op.policy);
    if op.capacity > 0 && (s.policy == None || s.policy == Some(key)) {
      CoherentIndexes(s);
      Apart(s, op.worker, op.now, key, op.record);
      hide Coherent, OnePlace, ScheduledApart, PolicyKey, Scripts.Reserve, Eligible, Ranked, Assigned, Members, Records;
      Reservations.ReserveTakesFirst(s, op.worker, op.now, op.capacity, op.duration, key, op.record, op.tokens);
    }
  }

  lemma StepRegistration(s: State, op: Op, worker: string)
    requires Coherent(s) && EnoughTokens(op)
    ensures RegistrationStep(s, op, worker)
  {
    hide Coherent, PackLease;
    match op
    case EnqueueJob(e, job, now, requested, mode) =>
      assert LeasesKept(s, Scripts.Enqueue(s, e, job, now, requested, mode).0);
      hide Scripts.Enqueue;
    case ReserveJobs(_, _, _, _, _, _, _) =>
      ReserveRegisters(s, op);
      hide Apply;
    case ReapLeases(now, limit) =>
      Reaps.ReapRefines(s, now, limit);
      hide Scripts.Reap, Reaps.Recovered;
    case OperatorAct(operator, job, now) =>
      assert LeasesKept(s, Scripts.Operator(s, operator, job, now).0)
             || LeasesKept(Scripts.Release(s, job, HolderOf(s, job)), Scripts.Operator(s, operator, job, now).0);
      hide Scripts.Operator;
    case HeartbeatLease(_, _, _, _, _) =>
    case PurgeJobs(_) =>
    case PruneStale(_) =>
    case _ =>
      CompletionKeepsWorkers(s, op);
      hide Apply;
  }

  lemma CompletionKeepsWorkers(s: State, op: Op)
    requires op.AckLease? || op.CompleteLease? || op.FailLease?
    ensures Apply(s, op).0.lastSeen == s.lastSeen && Apply(s, op).0.workerConfigs == s.workerConfigs
  {
    if Holds(s, op.job, op.worker, op.token) {
      assert LeasesKept(Scripts.Release(s, op.job, Some(op.worker)), Apply(s, op).0);
      hide Apply;
    } else {
      Fenced(s, op, op.job, op.worker, op.token);
    }
  }

  /** The latest accepted sign of life of the worker among the first `i` steps, unless it was pruned since. */
  function LastSign(ops: seq<Op>, i: nat, worker: string): Option<int>
    requires i <= |ops|
  {
    if i == 0 then None
    else if Signs(After(ops, i - 1), ops[i - 1], worker) then Some(ops[i - 1].now)
    else if Prunes(ops[i - 1], worker) then None
    else LastSign(ops, i - 1, worker)
  }

  /** The record of its latest accepted reservation, unless it was pruned since. */
  function LastRecord(ops: seq<Op>, i: nat, worker: string): Option<string>
    requires i <= |ops|
  {
    if i == 0 then None
    else if Registers(After(ops, i - 1), ops[i - 1], worker) then Some(ops[i - 1].record)
    else if Prunes(ops[i - 1], worker) then None
    else LastRecord(ops, i - 1, worker)
  }

  /** After every step of every run the namespace knows exactly that. */
  lemma {:induction false} RegistrationsExact(ops: seq<Op>, i: nat, worker: string)
    requires i <= |ops| && ValidRun(ops)
    ensures Looked(After(ops, i).lastSeen, worker) == LastSign(ops, i, worker)
    ensures Looked(After(ops, i).workerConfigs, worker) == LastRecord(ops, i, worker)
    decreases i
  {
    hide Coherent, Apply, Issued, Signs, Registers, Prunes;
    if i > 0 {
      RegistrationsExact(ops, i - 1, worker);
      RunCoherent(ops, i - 1);
      StepHasTokens(ops, i - 1);
      StepRegistration(After(ops, i - 1), ops[i - 1], worker);
    }
  }
}
