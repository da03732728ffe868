/** What a reservation should do, without its loops. */
module ReservationSpec {
  import opened SortedSets
  import opened Codec
  import opened Queue

  /** The jobs a reservation at `now` may take. The score is twice the activation time, plus one for a scheduled job,
      so that the order of the set is: activation time, then `ready` before `scheduled`, then job id. */
  function Eligible(s: State, now: int): ZSet {
    map j | j in s.ready.Keys + UpTo(s.scheduled, now).Keys ::
      if j in s.ready then 2 * s.ready[j] else 2 * s.scheduled[j] + 1
  }

  function ActivationTime(s: State, j: string): int
    requires j in s.ready || j in s.scheduled
  {
    if j in s.ready then s.ready[j] else s.scheduled[j]
  }

  function Least(a: nat, b: nat): nat {
    if a <= b then a else b
  }

  function Members(order: seq<string>): set<string> {
    set j | j in order
  }

  /** `after` is `before` with the keys of `order` set to `values`, one by one. */
  ghost predicate Assigned<V(!new)>(before: map<string, V>, after: map<string, V>, order: seq<string>, values: seq<V>)
    requires |order| == |values|
  {
    && after.Keys == before.Keys + Members(order)
    && (forall j | j in before && j !in order :: after[j] == before[j])
    && (forall i | 0 <= i < |order| :: after[order[i]] == values[i])
  }

  function Records(worker: string, tokens: seq<string>): (r: seq<string>)
    ensures |r| == |tokens| && forall i | 0 <= i < |r| :: r[i] == PackLease(worker, tokens[i])
  {
    seq(|tokens|, i requires 0 <= i < |tokens| => PackLease(worker, tokens[i]))
  }

  /** The specification of a reservation: the jobs of `taken` leave their source set, and the jobs of `leased` are
      leased in that order, with the tokens in their order. */
  ghost predicate Takes(s: State, t: State, grants: seq<Grant>, taken: seq<string>, leased: seq<string>, worker: string,
                        deadline: int, tokens: seq<string>)
    requires |leased| == |tokens|
  {
    && t.ready == s.ready - Members(taken) && t.scheduled == s.scheduled - Members(taken)
    && |grants| == |leased| && (forall i | 0 <= i < |leased| :: grants[i] == Grant(leased[i], tokens[i]))
    && Assigned(s.leased, t.leased, leased, seq(|leased|, _ => deadline))
    && Assigned(s.leaseMeta, t.leaseMeta, leased, Records(worker, tokens))
    && Counter(t.workerLeases, worker) == Counter(s.workerLeases, worker) + |leased|
    && t.workerLeases - {worker} == s.workerLeases - {worker}
    && t == s.(ready := t.ready, scheduled := t.scheduled, leased := t.leased, leaseMeta := t.leaseMeta,
               workerLeases := t.workerLeases)
  }

  lemma AssignedStep<V(!new)>(before: map<string, V>, k: string, v: V, after: map<string, V>, order: seq<string>,
                              values: seq<V>)
    requires |order| == |values| && k !in order
    requires Assigned(before[k := v], after, order, values)
    ensures Assigned(before, after, [k] + order, [v] + values)
  {
    assert Members([k] + order) == {k} + Members(order);
  }

  /** The specification in terms of the order of the eligible jobs: the first `capacity` of them, or as many as there
      are. If the tokens run out first, one more job has left its source set by then. */
  ghost predicate TakesFirst(s: State, r: (State, seq<Grant>), order: seq<string>, worker: string, capacity: nat,
                             deadline: int, tokens: seq<string>) {
    var wanted := Least(capacity, |order|);
    var granted := Least(wanted, |tokens|);
    Takes(s, r.0, r.1, order[..Least(wanted, |tokens| + 1)], order[..granted], worker, deadline, tokens[..granted])
  }

  function JobsOf(grants: seq<Grant>): (jobs: seq<string>)
    ensures |jobs| == |grants| && forall i | 0 <= i < |jobs| :: jobs[i] == grants[i].job
  {
    seq(|grants|, i requires 0 <= i < |grants| => grants[i].job)
  }

  /** Exactly the first eligible jobs are leased, in order, each with its own token; fewer than `capacity` of them means
      that none is left. */
  ghost predicate FirstEligible(s: State, t: State, grants: seq<Grant>, worker: string, now: int, capacity: nat,
                                deadline: int, tokens: seq<string>)
    requires |tokens| >= capacity
  {
    var order := Ranked(Eligible(s, now));
    var n := Least(capacity, |order|);
    && JobsOf(grants) == order[..n]
    && Takes(s, t, grants, order[..n], order[..n], worker, deadline, tokens[..n])
    && (|grants| < capacity ==> Eligible(t, now) == map[])
  }

  /** From `s` to `t` jobs only move towards `leased`, and none disappears from the jobs that are not terminal. */
  ghost predicate MovesForward(s: State, t: State) {
    && Live(t) == Live(s)
    && s.leased.Keys <= t.leased.Keys
    && t.ready.Keys <= s.ready.Keys
    && (forall j | j in t.scheduled :: j in s.scheduled && t.scheduled[j] == s.scheduled[j])
  }

  /** A job a reservation may take in any state, with or without duplicates. */
  ghost predicate Takable(s: State, job: string, now: int) {
    job in s.ready || (job in s.scheduled && s.scheduled[job] <= now && job !in s.leased)
  }

  ghost predicate AllTakable(s: State, grants: seq<Grant>, now: int) {
    forall i | 0 <= i < |grants| :: Takable(s, grants[i].job, now)
  }

  lemma MovesForwardTransitive(s: State, t: State, u: State)
    requires MovesForward(s, t) && MovesForward(t, u)
    ensures MovesForward(s, u)
  {
  }

  lemma TakableBefore(s: State, t: State, grants: seq<Grant>, now: int)
    requires MovesForward(s, t) && AllTakable(t, grants, now)
    ensures AllTakable(s, grants, now)
  {
    forall i | 0 <= i < |grants| ensures Takable(s, grants[i].job, now) {
      assert Takable(t, grants[i].job, now);
      assert Live(t) == Live(s);
    }
  }

  lemma TakableCons(s: State, g: Grant, grants: seq<Grant>, now: int)
    requires Takable(s, g.job, now) && AllTakable(s, grants, now)
    ensures AllTakable(s, [g] + grants, now)
  {
  }

  /** Everything the steps of a run need to know about one job across a reservation. */
  ghost predicate UntouchedAt(s: State, t: State, j: string) {
    && (j in t.ready <==> j in s.ready) && (j in s.ready ==> t.ready[j] == s.ready[j])
    && (j in t.scheduled <==> j in s.scheduled) && (j in s.scheduled ==> t.scheduled[j] == s.scheduled[j])
    && (j in t.leased <==> j in s.leased) && (j in s.leased ==> t.leased[j] == s.leased[j])
    && (j in t.leaseMeta <==> j in s.leaseMeta) && (j in s.leaseMeta ==> t.leaseMeta[j] == s.leaseMeta[j])
  }

  ghost predicate GrantedAt(s: State, t: State, j: string, worker: string, token: string, deadline: int) {
    && (j in s.ready || j in s.scheduled) && j !in s.leased
    && j !in t.ready && j !in t.scheduled && j in t.leased && t.leased[j] == deadline
    && Holds(t, j, worker, token)
  }

  predicate IsGranted(grants: seq<Grant>, j: string) {
    exists i | 0 <= i < |grants| :: grants[i].job == j
  }

  /** The granted jobs, each once and with its own token, and nothing else. */
  ghost predicate Grants(s: State, t: State, grants: seq<Grant>, worker: string, deadline: int, tokens: seq<string>) {
    && |grants| <= |tokens|
    && (forall i | 0 <= i < |grants| :: grants[i].token == tokens[i])
    && (forall i | 0 <= i < |grants| :: GrantedAt(s, t, grants[i].job, worker, grants[i].token, deadline))
    && (forall i, k | 0 <= i < k < |grants| :: grants[i].job != grants[k].job)
    && (forall j :: IsGranted(grants, j) || UntouchedAt(s, t, j))
    && t.rerun == s.rerun && t.failures == s.failures && t.failed == s.failed
  }
}
