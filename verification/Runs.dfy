/** Runs: any interleaving of steps from any number of clients, with whatever clocks they have. */
module Runs {
  import opened Policy
  import opened Queue
  import opened Invariants
  import opened Steps
  import opened Coherence
  import opened LeaseSteps
  import Counters

  /** The state after the first `i` steps of a run that starts from an empty namespace. */
  function After(ops: seq<Op>, i: nat): State
    requires i <= |ops|
  {
    if i == 0 then EMPTY else Apply(After(ops, i - 1), ops[i - 1]).0
  }

  function ReplyAt(ops: seq<Op>, i: nat): Reply
    requires i < |ops|
  {
    Apply(After(ops, i), ops[i]).1
  }

  /** The tokens clients have sent with their first `i` steps, each with the policy of the worker that made it. */
  function Issued(ops: seq<Op>, i: nat): map<string, RetryPolicy>
    requires i <= |ops|
  {
    if i == 0 then map[]
    else
      var op := ops[i - 1];
      if op.ReserveJobs? then Issued(ops, i - 1) + (map t | t in op.tokens :: op.policy) else Issued(ops, i - 1)
  }

  /** What clients guarantee: a reservation brings a fresh token for each unit of capacity, and a failure is reported
      under the policy of the worker that made the token. */
  ghost predicate ValidStep(issued: map<string, RetryPolicy>, op: Op) {
    match op
    case ReserveJobs(_, _, capacity, _, _, _, tokens) =>
      && |tokens| >= capacity
      && (forall i, k | 0 <= i < k < |tokens| :: tokens[i] != tokens[k])
      && (forall t | t in tokens :: t !in issued)
    case FailLease(_, _, token, _, _, policy) => token in issued ==> policy == issued[token]
    case _ => true
  }

  ghost predicate ValidRun(ops: seq<Op>) {
    forall i | 0 <= i < |ops| :: ValidStep(Issued(ops, i), ops[i])
  }

  lemma StepHasTokens(ops: seq<Op>, i: nat)
    requires i < |ops| && ValidRun(ops)
    ensures EnoughTokens(ops[i])
  {
    assert ValidStep(Issued(ops, i), ops[i]);
  }

  /** Index coherence holds after every step of every run. */
  lemma {:induction false} RunCoherent(ops: seq<Op>, i: nat)
    requires i <= |ops| && ValidRun(ops)
    ensures Coherent(After(ops, i))
    decreases i
  {
    hide Coherent, Apply;
    if i == 0 {
      EmptyCoherent();
    } else {
      RunCoherent(ops, i - 1);
      assert ValidStep(Issued(ops, i - 1), ops[i - 1]);
      StepCoherent(After(ops, i - 1), ops[i - 1]);
    }
  }

  /** The lease counters are exact as long as no worker is pruned while it holds a lease, and a lower bound in any case. */
  lemma {:induction false} RunCounters(ops: seq<Op>, i: nat, exact: bool)
    requires i <= |ops| && ValidRun(ops)
    requires exact ==> forall k | 0 <= k < i :: Counters.PrunesIdle(After(ops, k), ops[k])
    ensures CountersRight(After(ops, i), exact)
    decreases i
  {
    hide Coherent, CountersRight, Apply, Counters.PrunesIdle;
    if i == 0 {
      Counters.EmptyCounters(exact);
    } else {
      RunCounters(ops, i - 1, exact);
      RunCoherent(ops, i - 1);
      assert ValidStep(Issued(ops, i - 1), ops[i - 1]);
      Counters.StepCounters(After(ops, i - 1), ops[i - 1], exact);
    }
  }

  /** That is the exact condition: the counters are right after every step of a run if and only if each prune of the run
      found its workers without leases. */
  lemma RunCountersExactIff(ops: seq<Op>, n: nat)
    requires n <= |ops| && ValidRun(ops)
    ensures (forall i | 0 <= i <= n :: CountersRight(After(ops, i), true))
       <==> (forall k | 0 <= k < n :: Counters.PrunesIdle(After(ops, k), ops[k]))
  {
    hide CountersRight, After, Issued, Apply, Coherent, Counters.PrunesIdle;
    if forall k | 0 <= k < n :: Counters.PrunesIdle(After(ops, k), ops[k]) {
      forall i | 0 <= i <= n ensures CountersRight(After(ops, i), true) {
        RunCounters(ops, i, true);
      }
    } else {
      var k :| 0 <= k < n && !Counters.PrunesIdle(After(ops, k), ops[k]);
      RunCoherent(ops, k);
      StepHasTokens(ops, k);
      NextState(ops, k);
      if CountersRight(After(ops, k), true) {
        Counters.StepCountersIff(After(ops, k), ops[k]);
        assert !CountersRight(After(ops, k + 1), true);
      }
    }
  }

  lemma NextState(ops: seq<Op>, k: nat)
    requires k < |ops|
    ensures After(ops, k + 1) == Apply(After(ops, k), ops[k]).0
  {
    hide Apply;
  }

  lemma {:induction false} IssuedGrows(ops: seq<Op>, i: nat, k: nat, token: string)
    requires i <= k <= |ops| && token in Issued(ops, i)
    ensures token in Issued(ops, k)
    decreases k
  {
    if i < k {
      IssuedGrows(ops, i, k - 1, token);
    }
  }

  /** The step that begins an attempt is the reservation that reports it. */
  lemma BeginsByGrant(ops: seq<Op>, i: nat, job: string, worker: string, token: string)
    requires i < |ops| && ValidRun(ops)
    requires !Holds(After(ops, i), job, worker, token) && Holds(After(ops, i + 1), job, worker, token)
    ensures ops[i].ReserveJobs? && worker == ops[i].worker && token in ops[i].tokens && token !in Issued(ops, i)
    ensures ReplyAt(ops, i).Reserved? && Grant(job, token) in ReplyAt(ops, i).grants
    ensures job !in After(ops, i).leased
  {
    hide Coherent, Apply, Holds;
    RunCoherent(ops, i);
    assert ValidStep(Issued(ops, i), ops[i]);
    AttemptBegins(After(ops, i), ops[i], job, worker, token);
  }

  lemma {:induction false} HeldIsIssued(ops: seq<Op>, i: nat, job: string, worker: string, token: string)
    requires i <= |ops| && ValidRun(ops)
    requires Holds(After(ops, i), job, worker, token)
    ensures token in Issued(ops, i)
    decreases i
  {
    hide Coherent, Apply;
    if i > 0 {
      if Holds(After(ops, i - 1), job, worker, token) {
        HeldIsIssued(ops, i - 1, job, worker, token);
      } else {
        BeginsByGrant(ops, i - 1, job, worker, token);
      }
    }
  }

  /** An attempt whose token is used and that does not hold its lease never holds it again. */
  lemma {:induction false} NeverAgain(ops: seq<Op>, i: nat, k: nat, job: string, worker: string, token: string)
    requires i <= k <= |ops| && ValidRun(ops)
    requires token in Issued(ops, i) && !Holds(After(ops, i), job, worker, token)
    ensures !Holds(After(ops, k), job, worker, token)
    decreases k
  {
    hide Holds, Apply;
    if i < k {
      NeverAgain(ops, i, k - 1, job, worker, token);
      IssuedGrows(ops, i, k - 1, token);
      if Holds(After(ops, k), job, worker, token) {
        BeginsByGrant(ops, k - 1, job, worker, token);
      }
    }
  }

  ghost predicate EndsAt(ops: seq<Op>, i: nat, job: string, worker: string, token: string)
    requires i < |ops|
  {
    Holds(After(ops, i), job, worker, token) && !Holds(After(ops, i + 1), job, worker, token)
  }

  /** Fencing over whole runs: an attempt ends at most once ... */
  lemma EndsAtMostOnce(ops: seq<Op>, i: nat, k: nat, job: string, worker: string, token: string)
    requires i < k < |ops| && ValidRun(ops)
    requires EndsAt(ops, i, job, worker, token)
    ensures !EndsAt(ops, k, job, worker, token)
  {
    hide Holds, After, Issued;
    HeldIsIssued(ops, i, job, worker, token);
    IssuedGrows(ops, i, i + 1, token);
    NeverAgain(ops, i + 1, k, job, worker, token);
  }

  /** ... and every later heartbeat or completion of that attempt is turned away and leaves the store as it is,
      whatever other steps came in between. Retrying a completion with an unknown outcome is therefore safe. */
  lemma LateCallsAreFenced(ops: seq<Op>, i: nat, k: nat, job: string, worker: string, token: string)
    requires i < k < |ops| && ValidRun(ops)
    requires EndsAt(ops, i, job, worker, token)
    requires SentBy(ops[k], job, worker, token)
    ensures ReplyAt(ops, k) == LeaseMismatch && After(ops, k + 1) == After(ops, k)
  {
    hide Holds, Issued;
    HeldIsIssued(ops, i, job, worker, token);
    IssuedGrows(ops, i, i + 1, token);
    NeverAgain(ops, i + 1, k, job, worker, token);
    Fenced(After(ops, k), ops[k], job, worker, token);
  }

  /** However often a completion of one attempt is sent, at most one of them takes effect. */
  lemma CompletesAtMostOnce(ops: seq<Op>, i: nat, k: nat, job: string, worker: string, token: string)
    requires i < k < |ops| && ValidRun(ops)
    requires CompletionBy(ops[i], job, worker, token) && CompletionBy(ops[k], job, worker, token)
    ensures ReplyAt(ops, i) == LeaseMismatch || ReplyAt(ops, k) == LeaseMismatch
  {
    if Holds(After(ops, i), job, worker, token) {
      CompletionEndsLease(After(ops, i), ops[i]);
      assert EndsAt(ops, i, job, worker, token);
      LateCallsAreFenced(ops, i, k, job, worker, token);
    } else {
      Fenced(After(ops, i), ops[i], job, worker, token);
    }
  }
}
