/** What every step keeps, job by job and worker by worker. */
module Invariants {
  import opened Wrappers
  import opened Codec
  import opened Queue

  ghost predicate IsRecord(meta: string) {
    exists worker, token :: meta == PackLease(worker, token)
  }

  /** A job is in at most one of the four placement sets. */
  ghost predicate OnePlaceAt(s: State, j: string) {
    && (j in s.ready ==> j !in s.scheduled && j !in s.leased && j !in s.failed)
    && (j in s.scheduled ==> j !in s.leased && j !in s.failed)
    && (j in s.leased ==> j !in s.failed)
  }

  /** The indexes agree about one job. */
  ghost predicate CoherentAt(s: State, j: string) {
    && OnePlaceAt(s, j)
    && (j in s.leaseMeta <==> j in s.leased)
    && (j in s.leaseMeta ==> IsRecord(s.leaseMeta[j]))
    && (j in s.rerun ==> j in s.leased)
    && (j in s.failed ==> j in s.failures)
    && (j in s.failures ==> s.failures[j] >= 1 && PlaceOf(s, j) != Absent)
  }

  ghost predicate OnePlace(s: State) {
    forall j :: OnePlaceAt(s, j)
  }

  /** No scheduled job is also ready or leased: all that a reservation needs. */
  ghost predicate ScheduledApart(s: State) {
    forall j | j in s.scheduled :: j !in s.ready && j !in s.leased
  }

  ghost predicate Coherent(s: State) {
    forall j :: CoherentAt(s, j)
  }

  /** In the middle of a script: one job has been taken out of every index but its failure counter. */
  ghost predicate DetachedAt(s: State, job: string) {
    && PlaceOf(s, job) == Absent && job !in s.leaseMeta && job !in s.rerun
    && (job in s.failures ==> s.failures[job] >= 1)
  }

  ghost predicate Detached(s: State, job: string) {
    DetachedAt(s, job) && forall j | j != job :: CoherentAt(s, j)
  }

  /** The leased jobs whose record names `worker`. */
  ghost function HeldBy(s: State, worker: string): set<string> {
    set j | j in s.leaseMeta && WorkerFromMeta(s.leaseMeta[j]) == Some(worker)
  }

  /** A stored counter is positive and never counts a lease that is not there; `exact` asks for equality. */
  ghost predicate CounterAt(s: State, worker: string, exact: bool) {
    && (worker in s.workerLeases ==> s.workerLeases[worker] >= 1)
    && Counter(s.workerLeases, worker) <= |HeldBy(s, worker)|
    && (exact ==> Counter(s.workerLeases, worker) == |HeldBy(s, worker)|)
  }

  ghost predicate CountersRight(s: State, exact: bool) {
    forall worker :: CounterAt(s, worker, exact)
  }

  /** No lease begins: every record and every index entry of `t` was there in `s`. */
  ghost predicate NoNewLease(s: State, t: State) {
    && (forall j | j in t.leaseMeta :: j in s.leaseMeta && t.leaseMeta[j] == s.leaseMeta[j])
    && (forall j | j in t.leased :: j in s.leased)
  }
}
