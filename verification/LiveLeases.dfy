/** A lease that is kept alive is not stolen. */
module LiveLeases {
  import opened Codec
  import opened Queue
  import opened Invariants
  import opened Steps
  import opened LeaseSteps
  import opened ReservationSpec
  import opened LeaseLedger
  import opened Runs

  datatype Attempt = Attempt(job: string, worker: string, token: string)

  predicate HasLease(s: State, a: Attempt) {
    Holds(s, a.job, a.worker, a.token)
  }

  /** Step `g` of the run is the reservation that reports this attempt. */
  predicate GrantsAttempt(ops: seq<Op>, g: nat, a: Attempt)
    requires g < |ops|
  {
    && ops[g].ReserveJobs? && ops[g].worker == a.worker
    && ReplyAt(ops, g).Reserved? && Grant(a.job, a.token) in ReplyAt(ops, g).grants
  }

  predicate IsBeat(op: Op, a: Attempt) {
    op.HeartbeatLease? && SentBy(op, a.job, a.worker, a.token)
  }

  /** When the attempt last gave a sign of life before step `i`: its latest heartbeat, or else its grant at `g`. */
  function LastBeat(ops: seq<Op>, g: nat, i: nat, a: Attempt): int
    requires g < i <= |ops| && ops[g].ReserveJobs?
    decreases i
  {
    if i == g + 1 then ops[g].now
    else if IsBeat(ops[i - 1], a) then ops[i - 1].now
    else LastBeat(ops, g, i - 1, a)
  }

  lemma GrantHasLease(ops: seq<Op>, g: nat, a: Attempt)
    requires g < |ops| && ValidRun(ops) && GrantsAttempt(ops, g, a)
    ensures HasLease(After(ops, g + 1), a)
    ensures After(ops, g + 1).leased[a.job] == ops[g].now + ops[g].duration
  {
    RunCoherent(ops, g);
    StepHasTokens(ops, g);
    var s := After(ops, g);
    ReserveGrants(s, ops[g]);
    hide Coherent, Apply, PackLease, Issued;
    var grants := ReplyAt(ops, g).grants;
    var i :| 0 <= i < |grants| && grants[i] == Grant(a.job, a.token);
    assert GrantedAt(s, After(ops, g + 1), grants[i].job, a.worker, grants[i].token, ops[g].now + ops[g].duration);
  }

  /** Steps `g` .. `n` of the run let the attempt live: heartbeats ask for the same duration as the grant, every reap
      comes less than that duration after the latest sign of life, and nobody completes or forces the run. */
  ghost predicate KeptAlive(ops: seq<Op>, g: nat, n: nat, a: Attempt)
    requires g < n <= |ops| && ops[g].ReserveJobs?
  {
    forall i | g < i < n ::
      && (IsBeat(ops[i], a) ==> ops[i].duration == ops[g].duration)
      && (ops[i].ReapLeases? ==> ops[i].now < LastBeat(ops, g, i, a) + ops[g].duration)
      && !CompletionBy(ops[i], a.job, a.worker, a.token)
      && !Forces(ops[i], a.job)
  }

  /** Then no reap removes it: it still holds its lease, until exactly one lease duration after its last sign of life. */
  lemma {:induction false} LiveLeaseNotStolen(ops: seq<Op>, g: nat, n: nat, a: Attempt)
    requires g < n <= |ops| && ValidRun(ops) && GrantsAttempt(ops, g, a)
    requires KeptAlive(ops, g, n, a)
    ensures HasLease(After(ops, n), a)
    ensures After(ops, n).leased[a.job] == LastBeat(ops, g, n, a) + ops[g].duration
    decreases n
  {
    hide Coherent, Apply, Issued;
    if n == g + 1 {
      GrantHasLease(ops, g, a);
    } else {
      assert KeptAlive(ops, g, n - 1, a);
      LiveLeaseNotStolen(ops, g, n - 1, a);
      RunCoherent(ops, n - 1);
      StepHasTokens(ops, n - 1);
      StepKeepsAttempt(After(ops, n - 1), ops[n - 1], a.job, a.worker, a.token);
    }
  }
}
