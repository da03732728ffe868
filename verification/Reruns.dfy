/** No accepted immediate enqueue is lost, over whole runs. */
module Reruns {
  import opened Queue
  import opened Invariants
  import opened Steps
  import opened Coherence
  import opened JobSteps
  import opened Runs
  import Scripts

  /** The latest step before `i` that enqueued `j` immediately, or -1. */
  function LastImmediate(ops: seq<Op>, i: nat, j: string): (k: int)
    requires i <= |ops|
    ensures -1 <= k < i
    ensures k >= 0 ==> ImmediateFor(ops[k], j)
  {
    if i == 0 then -1 else if ImmediateFor(ops[i - 1], j) then i - 1 else LastImmediate(ops, i - 1, j)
  }

  /** The latest step before `i` that granted a lease on `j`, or -1. */
  function LastGrant(ops: seq<Op>, i: nat, j: string): (k: int)
    requires i <= |ops|
    ensures -1 <= k < i
    ensures k >= 0 ==> GrantedBy(After(ops, k), ops[k], j)
  {
    if i == 0 then -1 else if GrantedBy(After(ops, i - 1), ops[i - 1], j) then i - 1 else LastGrant(ops, i - 1, j)
  }

  ghost predicate RerunSays(s: State, j: string, immediate: int, grant: int) {
    && (j in s.leased ==> grant >= 0)
    && (j in s.rerun <==> j in s.leased && immediate > grant)
  }

  lemma RerunInductive(s: State, op: Op, j: string, i: nat, immediate: int, grant: int)
    requires Coherent(s) && EnoughTokens(op)
    requires immediate < i && grant < i && RerunSays(s, j, immediate, grant)
    ensures RerunSays(Apply(s, op).0, j, if ImmediateFor(op, j) then i else immediate,
                      if GrantedBy(s, op, j) then i else grant)
  {
    StepCoherent(s, op);
    assert CoherentAt(Apply(s, op).0, j);
    hide Coherent, Apply;
    StepRerun(s, op, j);
  }

  /** At every point of every run the rerun mark says exactly this: the job is leased, and an immediate enqueue has
      been accepted since that lease was granted. */
  lemma {:induction false} RerunExact(ops: seq<Op>, i: nat, j: string)
    requires i <= |ops| && ValidRun(ops)
    ensures j in After(ops, i).leased ==> LastGrant(ops, i, j) >= 0
    ensures j in After(ops, i).rerun <==>
              j in After(ops, i).leased && LastImmediate(ops, i, j) > LastGrant(ops, i, j)
    decreases i
  {
    hide Coherent, Apply, Issued, GrantedBy, ImmediateFor;
    if i > 0 {
      RerunExact(ops, i - 1, j);
      RunCoherent(ops, i - 1);
      StepHasTokens(ops, i - 1);
      RerunInductive(After(ops, i - 1), ops[i - 1], j, i - 1, LastImmediate(ops, i - 1, j), LastGrant(ops, i - 1, j));
    }
  }

  lemma {:induction false} LastImmediateAtLeast(ops: seq<Op>, i: nat, j: string, k: nat)
    requires k < i <= |ops| && ImmediateFor(ops[k], j)
    ensures LastImmediate(ops, i, j) >= k
    decreases i
  {
    if k < i - 1 {
      LastImmediateAtLeast(ops, i - 1, j, k);
    }
  }

  lemma PlacedByImmediate(ops: seq<Op>, k: nat, j: string)
    requires k < |ops| && ImmediateFor(ops[k], j)
    ensures PlaceOf(After(ops, k + 1), j) != Absent
  {
    var op := ops[k];
    assert PlaceOf(Scripts.Immediate(After(ops, k), j, op.now).0, j) != Absent;
    EnqueueIsImmediate(After(ops, k), j, op.now, op.requested, op.mode);
    hide Scripts.Immediate, Scripts.Enqueue, PlaceOf;
  }

  /** The step at `i` takes `j` out of the queue; if it finishes a run, the lease of that run was granted after step `k`. */
  ghost predicate LeavesAfter(ops: seq<Op>, i: nat, k: nat, j: string)
    requires i < |ops|
  {
    && k < i
    && Leaves(After(ops, i), ops[i], j)
    && (ops[i].AckLease? || (ops[i].OperatorAct? && ops[i].operator == ForceAck) ==> LastGrant(ops, i, j) > k)
  }

  /** An immediate enqueue of step `k` is accepted in every state. After it the job is in the queue, or it has left by
      a run that was granted after the enqueue, by a cancel, or by a purge. */
  lemma {:induction false} NoEnqueueLost(ops: seq<Op>, k: nat, n: nat, j: string)
    requires k < n <= |ops| && ValidRun(ops) && ImmediateFor(ops[k], j)
    ensures PlaceOf(After(ops, n), j) != Absent || exists i :: k < i < n && LeavesAfter(ops, i, k, j)
    decreases n
  {
    hide PlaceOf, Apply, After, Issued, ValidRun, ImmediateFor, LeavesAfter;
    if n == k + 1 {
      PlacedByImmediate(ops, k, j);
    } else {
      NoEnqueueLost(ops, k, n - 1, j);
      if PlaceOf(After(ops, n - 1), j) != Absent && PlaceOf(After(ops, n), j) == Absent {
        LeavesAfterEnqueue(ops, n - 1, k, j);
      }
    }
  }

  lemma LeavesAfterEnqueue(ops: seq<Op>, i: nat, k: nat, j: string)
    requires k < i < |ops| && ValidRun(ops) && ImmediateFor(ops[k], j)
    requires PlaceOf(After(ops, i), j) != Absent && PlaceOf(After(ops, i + 1), j) == Absent
    ensures LeavesAfter(ops, i, k, j)
  {
    RunCoherent(ops, i);
    assert ValidStep(Issued(ops, i), ops[i]);
    RerunExact(ops, i, j);
    LastImmediateAtLeast(ops, i, j, k);
    hide Coherent, Apply, Issued, PlaceOf;
    StepLeaves(After(ops, i), ops[i], j);
    GrantIsNoEnqueue(ops, i, k, j);
  }

  lemma GrantIsNoEnqueue(ops: seq<Op>, i: nat, k: nat, j: string)
    requires k < i <= |ops| && ImmediateFor(ops[k], j)
    ensures LastGrant(ops, i, j) != k
  {
    hide After, Apply, LastGrant;
  }
}
