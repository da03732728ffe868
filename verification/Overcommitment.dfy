/** What the composed system does not promise: the leases the store holds for a worker are not bounded by its concurrency. */
module Overcommitment {
  import opened Wrappers
  import opened SortedSets
  import opened Codec
  import opened Policy
  import opened Queue
  import opened Invariants
  import opened Steps
  import opened ReservationSpec
  import opened Runs
  import opened WorkerState
  import opened Fleet
  import opened FleetSafety
  import Reservations
  import Scripts

  const WORKER: Config := Config("w", 1, 2, 1, 1, 1, 1, Never)

  function Enqueued(job: string): Op {
    EnqueueJob(EnqueueImmediate, job, 0, 0, Always)
  }

  function Reserved1(token: string): Op {
    Fleet.Reservation(WORKER, 1, 0, "", [token])
  }

  lemma FirstOfReady(s: State) returns (job: string)
    requires s.ready != map[] && s.scheduled == map[]
    ensures job in s.ready && |Eligible(s, 0)| >= 1 && Ranked(Eligible(s, 0))[..1] == [job]
  {
    var z := Eligible(s, 0);
    var j :| j in s.ready;
    assert j in z;
    RankedMembers(z);
    hide Ranked;
    job := Ranked(z)[0];
    assert job in Ranked(z);
  }

  lemma TakenIs(s: State, t: State, job: string, token: string, grants: seq<Grant>)
    requires s.scheduled == map[] && job in s.ready
    requires Takes(s, t, grants, [job], [job], "w", 2, [token])
    ensures grants == [Grant(job, token)]
    ensures t.ready == s.ready - {job} && t.scheduled == map[] && t.leased.Keys == s.leased.Keys + {job}
    ensures t.leaseMeta == s.leaseMeta[job := PackLease("w", token)] && t.policy == s.policy
  {
    hide PackLease;
    assert Members([job]) == {job};
    assert Records("w", [token])[0] == PackLease("w", token);
    assert [job][0] == job;
    hide Members;
  }

  lemma ReservedIs(s: State, token: string)
    ensures Apply(s, Reserved1(token)) == Scripts.Reserve(s, "w", 0, 1, 2, PolicyKey(Never), "", [token])
    ensures Scripts.Register(s, "w", 0, PolicyKey(Never), "")
         == s.(policy := Some(PolicyKey(Never)), lastSeen := s.lastSeen["w" := 0], workerConfigs := s.workerConfigs["w" := ""])
  {
    hide Scripts.Reserve, PolicyKey;
  }

  /** A reservation for one job takes one of the ready jobs for the worker. */
  lemma TakesOne(s: State, token: string) returns (job: string)
    requires s.ready != map[] && s.scheduled == map[] && s.ready.Keys !! s.leased.Keys
    requires s.policy == None || s.policy == Some(PolicyKey(Never))
    ensures var (t, reply) := Apply(s, Reserved1(token));
            && job in s.ready && reply.Reserved? && reply.grants == [Grant(job, token)]
            && t.ready == s.ready - {job} && t.scheduled == map[] && t.leased.Keys == s.leased.Keys + {job}
            && t.leaseMeta == s.leaseMeta[job := PackLease("w", token)]
            && t.policy == Some(PolicyKey(Never))
  {
    hide PolicyKey, PackLease, Scripts.Reserve, Eligible, Ranked, Takes, Apply, Assigned, Scripts.Register;
    var key := PolicyKey(Never);
    var s0 := Scripts.Register(s, "w", 0, key, "");
    ReservedIs(s, token);
    Reservations.ReserveTakesFirst(s, "w", 0, 1, 2, key, "", [token]);
    job := FirstOfReady(s0);
    var (t, reply) := Scripts.Reserve(s, "w", 0, 1, 2, key, "", [token]);
    assert [token][..1] == [token];
    TakenIs(s0, t, job, token, reply.grants);
  }

  /** Two jobs come in; the reply to a reservation is lost; the worker, still idle, reserves again. */
  function Story(): seq<Action> {
    [Environment(Enqueued("a")), Environment(Enqueued("b")),
     StoreReserves(0, 0, "", ["s"]), ReplyLost(0, false), StoreReserves(0, 0, "", ["t"])]
  }

  function Trace(): seq<Op> {
    [Enqueued("a"), Enqueued("b"), Reserved1("s"), Reserved1("t")]
  }

  lemma TwoReady()
    ensures After(Trace(), 2) == EMPTY.(ready := map["a" := 0, "b" := 0])
  {
    var ops := Trace();
    assert "b" != "a" by {
      assert "b"[0] != "a"[0];
    }
    assert After(ops, 1) == EMPTY.(ready := map["a" := 0]);
    assert After(ops, 2) == Apply(After(ops, 1), Enqueued("b")).0;
  }

  /** What the store holds along the way. */
  lemma StoreAlong()
    ensures ReplyAt(Trace(), 2).Reserved? && ReplyAt(Trace(), 3).Reserved?
    ensures After(Trace(), 4).leased.Keys == {"a", "b"} && HeldBy(After(Trace(), 4), "w") == {"a", "b"}
  {
    hide Apply, PackLease, WorkerFromMeta, PolicyKey;
    var ops := Trace();
    TwoReady();
    assert "b" != "a" by {
      assert "b"[0] != "a"[0];
    }
    assert "a" in After(ops, 2).ready && "b" in After(ops, 2).ready;
    var first := TakesOne(After(ops, 2), "s");
    assert After(ops, 3) == Apply(After(ops, 2), ops[2]).0;
    assert (if first == "a" then "b" else "a") in After(ops, 3).ready;
    var second := TakesOne(After(ops, 3), "t");
    assert After(ops, 4) == Apply(After(ops, 3), ops[3]).0;
    WorkerOfPacked("w", "s");
    WorkerOfPacked("w", "t");
  }

  lemma TraceFresh()
    ensures ValidStep(Issued(Trace(), 0), Trace()[0]) && ValidStep(Issued(Trace(), 1), Trace()[1])
    ensures ValidStep(Issued(Trace(), 2), Trace()[2]) && ValidStep(Issued(Trace(), 3), Trace()[3])
  {
    assert "s" != "t" by {
      assert "s"[0] != "t"[0];
    }
    assert Issued(Trace(), 2) == map[];
    assert Issued(Trace(), 3).Keys == {"s"};
  }

  /** The steps of the store after each action. */
  function StepsBy(n: nat): nat
    requires n <= 5
    ensures StepsBy(n) <= |Trace()|
  {
    if n == 4 then 3 else if n == 5 then 4 else n
  }

  /** One idle worker, waiting for a reply or not. */
  predicate Idle(sys: System, ops: seq<Op>, waits: bool) {
    && sys.ops == ops && |sys.processes| == 1
    && sys.processes[0] == Start(WORKER).(awaiting := sys.processes[0].awaiting)
    && (sys.processes[0].awaiting != None <==> waits)
  }

  lemma EnqueueKeepsIdle(sys: System, ops: seq<Op>, op: Op)
    requires Idle(sys, ops, false)
    ensures Idle(Perform(sys, Environment(op)), ops + [op], false)
  {
    hide Losses;
  }

  lemma ReserveKeepsIdle(sys: System, ops: seq<Op>, token: string)
    requires Idle(sys, ops, false) && Apply(After(ops, |ops|), Reserved1(token)).1.Reserved?
    ensures Idle(Perform(sys, StoreReserves(0, 0, "", [token])), ops + [Reserved1(token)], true)
  {
    hide Apply, After, Losses, Utters;
  }

  lemma LossKeepsIdle(sys: System, ops: seq<Op>)
    requires Idle(sys, ops, true)
    ensures Idle(Perform(sys, ReplyLost(0, false)), ops, false)
  {
    hide Losses, Utters;
  }

  /** The system along the way: the worker stays idle throughout. */
  lemma {:induction false} Along(n: nat)
    requires n <= 5
    ensures Idle(Reach([WORKER], Story(), n), Trace()[..StepsBy(n)], n == 3 || n == 5)
    decreases n
  {
    hide Apply, After, Issued, Perform, Idle;
    if n == 0 {
      StartsIdle();
    } else {
      Along(n - 1);
      var before, k := Reach([WORKER], Story(), n - 1), StepsBy(n - 1);
      TakenPrefix(Trace(), k, k);
      StoreAlong();
      assert n != 4 ==> Trace()[..StepsBy(n)] == Trace()[..k] + [Trace()[k]];
      hide Reach;
      assert Reach([WORKER], Story(), n) == Perform(before, Story()[n - 1]) by {
        ReachNext(n);
      }
      if n <= 2 {
        EnqueueKeepsIdle(before, Trace()[..k], Trace()[k]);
      } else if n == 4 {
        LossKeepsIdle(before, Trace()[..k]);
      } else {
        ReserveKeepsIdle(before, Trace()[..k], if n == 3 then "s" else "t");
      }
    }
  }

  lemma StartsIdle()
    ensures Idle(Reach([WORKER], Story(), 0), [], false)
  {
  }

  lemma ReachNext(n: nat)
    requires 0 < n <= 5
    ensures Reach([WORKER], Story(), n) == Perform(Reach([WORKER], Story(), n - 1), Story()[n - 1])
  {
    hide Perform;
  }

  lemma StoryPossible()
    ensures Possible([WORKER], Story())
  {
    hide Apply, After, Issued, ValidStep, Reach;
    TraceFresh();
    forall n | 0 <= n < 5 ensures Enabled(Reach([WORKER], Story(), n), Story()[n]) {
      Along(n);
      TakenPrefix(Trace(), StepsBy(n), StepsBy(n));
    }
  }

  /** So a worker of concurrency one can hold two leases at once, without running anything. */
  lemma LeasesMayExceedConcurrency()
    ensures Possible([WORKER], Story())
    ensures var sys := Reach([WORKER], Story(), 5);
            && |sys.processes| == 1 && sys.processes[0].config == WORKER && sys.processes[0].local.active == map[]
            && HeldBy(Fleet.Store(sys), WORKER.id) == {"a", "b"} && |{"a", "b"}| > WORKER.concurrency
  {
    hide After, Reach, Possible, HeldBy, Story, Issued, Apply, Trace;
    StoryPossible();
    Along(5);
    TakenPrefix(Trace(), 4, 4);
    StoreAlong();
    assert |Trace()[..4]| == 4;
    assert "b" != "a" by {
      assert "b"[0] != "a"[0];
    }
    assert |{"a", "b"}| == 2;
  }
}
