/** How many leases the store can hold for one worker id. */
module LeaseBounds {
  import opened Wrappers
  import opened Codec
  import opened Queue
  import opened Invariants
  import opened Runs
  import opened LiveLeases
  import opened WorkerState
  import opened Fleet
  import opened FleetSafety
  import opened LeaseAccounts

  /** The live leases of worker `id` that this process answers for. */
  function HeldThrough(p: Process, s: State, id: string): set<Attempt> {
    if p.config.id == id then set key | key in Carried(p) && HasLease(s, AttemptOf(p, key)) :: AttemptOf(p, key) else {}
  }

  /** Those of the first `n` processes. */
  function HeldThroughFirst(sys: System, n: nat, id: string): set<Attempt>
    requires n <= |sys.processes|
  {
    if n == 0 then {} else HeldThroughFirst(sys, n - 1, id) + HeldThrough(sys.processes[n - 1], Store(sys), id)
  }

  /** The live leases of worker `id` that nobody answers for. */
  function LiveLost(sys: System, id: string): set<Attempt> {
    set x | x in sys.lost && x.worker == id && HasLease(Store(sys), x)
  }

  /** The same as a number, process by process. */
  function CountThroughFirst(sys: System, n: nat, id: string): nat
    requires n <= |sys.processes|
  {
    if n == 0 then 0 else CountThroughFirst(sys, n - 1, id) + |HeldThrough(sys.processes[n - 1], Store(sys), id)|
  }

  /** What the processes of worker `id` may run together. */
  function ConcurrencyOfFirst(sys: System, n: nat, id: string): nat
    requires n <= |sys.processes|
  {
    if n == 0 then 0
    else ConcurrencyOfFirst(sys, n - 1, id) + if sys.processes[n - 1].config.id == id then sys.processes[n - 1].config.concurrency else 0
  }

  lemma HeldAnswers(p: Process, s: State, id: string, x: Attempt)
    ensures x in HeldThrough(p, s, id) <==> x.worker == id && HasLease(s, x) && Answers(p, x)
  {
    hide HasLease, Carried;
    var key := Grant(x.job, x.token);
    if x.worker == id && Answers(p, x) {
      assert AttemptOf(p, key) == x;
    }
  }

  lemma {:induction false} HeldByFirst(sys: System, n: nat, id: string, x: Attempt)
    requires n <= |sys.processes|
    ensures x in HeldThroughFirst(sys, n, id) <==>
              x.worker == id && HasLease(Store(sys), x) && exists i :: 0 <= i < n && Answers(sys.processes[i], x)
  {
    hide HasLease, HeldThrough, Answers, Store;
    if n > 0 {
      HeldByFirst(sys, n - 1, id, x);
      HeldAnswers(sys.processes[n - 1], Store(sys), id, x);
    }
  }

  /** Attempts with different jobs are as many as their jobs. */
  lemma {:induction false} CountByJob(attempts: set<Attempt>, jobs: set<string>)
    requires forall x | x in attempts :: x.job in jobs
    requires forall j | j in jobs :: exists x :: x in attempts && x.job == j
    requires forall x, y | x in attempts && y in attempts && x.job == y.job :: x == y
    ensures |attempts| == |jobs|
    decreases |attempts|
  {
    if attempts != {} {
      var x :| x in attempts;
      CountByJob(attempts - {x}, jobs - {x.job});
    } else {
      assert jobs == {};
    }
  }

  lemma {:induction false} CountByKey(attempts: set<Attempt>, keys: set<AttemptKey>, id: string)
    requires forall x | x in attempts :: x.worker == id && Grant(x.job, x.token) in keys
    ensures |attempts| <= |keys|
    decreases |attempts|
  {
    if attempts != {} {
      var x :| x in attempts;
      forall y | y in attempts - {x} ensures Grant(y.job, y.token) in keys - {Grant(x.job, x.token)} {
        assert y == Attempt(y.job, id, y.token) && x == Attempt(x.job, id, x.token);
      }
      CountByKey(attempts - {x}, keys - {Grant(x.job, x.token)}, id);
    }
  }

  lemma SeqCount(grants: seq<Grant>)
    ensures |set g | g in grants| <= |grants|
  {
    if grants != [] {
      SeqCount(grants[1..]);
      assert (set g | g in grants) == {grants[0]} + set g | g in grants[1..];
    }
  }

  /** No process answers for more than it may run. */
  lemma CarriedWithin(p: Process)
    requires Tracks(p.local, p.config) && (p.awaiting != None ==> Fits(p.local, p.config, p.awaiting.value))
    ensures |Carried(p)| <= p.config.concurrency
  {
    if p.awaiting != None {
      SeqCount(p.awaiting.value);
    }
  }

  lemma HeldWithin(p: Process, s: State, id: string)
    requires Tracks(p.local, p.config) && (p.awaiting != None ==> Fits(p.local, p.config, p.awaiting.value))
    ensures |HeldThrough(p, s, id)| <= if p.config.id == id then p.config.concurrency else 0
  {
    CarriedWithin(p);
    forall x | x in HeldThrough(p, s, id) ensures x.worker == id && Grant(x.job, x.token) in Carried(p) {
      HeldAnswers(p, s, id, x);
    }
    hide Carried, HeldThrough, HasLease, Tracks, Fits;
    if p.config.id == id {
      CountByKey(HeldThrough(p, s, id), Carried(p), id);
    } else {
      assert HeldThrough(p, s, id) == {};
    }
  }

  /** The record of a job the worker holds is that of a live attempt of the worker, and of no other. */
  lemma HeldHasAttempt(s: State, id: string, job: string)
    requires Coherent(s)
    ensures job in HeldBy(s, id) <==> exists x: Attempt :: x.worker == id && x.job == job && HasLease(s, x)
  {
    assert CoherentAt(s, job);
    hide Coherent;
    if job in HeldBy(s, id) {
      var worker, token :| s.leaseMeta[job] == PackLease(worker, token);
      WorkerOfPacked(worker, token);
      hide PackLease, WorkerFromMeta;
      assert HasLease(s, Attempt(job, id, token));
    } else if exists x: Attempt :: x.worker == id && x.job == job && HasLease(s, x) {
      var x: Attempt :| x.worker == id && x.job == job && HasLease(s, x);
      WorkerOfPacked(id, x.token);
      hide PackLease, WorkerFromMeta;
    }
  }

  lemma OneAttempt(s: State, x: Attempt, y: Attempt)
    requires HasLease(s, x) && HasLease(s, y) && x.job == y.job
    ensures x == y
  {
    PackInjective(x.worker, x.token, y.worker, y.token);
  }

  /** Different processes hold different attempts. */
  lemma {:induction false} CountsAddUp(sys: System, n: nat, id: string)
    requires Sound(sys) && n <= |sys.processes|
    ensures |HeldThroughFirst(sys, n, id)| == CountThroughFirst(sys, n, id) <= ConcurrencyOfFirst(sys, n, id)
    decreases n
  {
    hide Store, HeldThrough, Sound, Answers, HasLease;
    if n > 0 {
      CountsAddUp(sys, n - 1, id);
      var p := sys.processes[n - 1];
      HeldWithinSound(sys, n - 1, id);
      forall x | x in HeldThrough(p, Store(sys), id) ensures x !in HeldThroughFirst(sys, n - 1, id) {
        HeldByFirst(sys, n - 1, id, x);
        HeldAnswers(p, Store(sys), id, x);
        NotAnsweredBefore(sys, n - 1, x);
      }
      DisjointCount(HeldThroughFirst(sys, n - 1, id), HeldThrough(p, Store(sys), id));
    }
  }

  lemma DisjointCount(a: set<Attempt>, b: set<Attempt>)
    requires forall x | x in b :: x !in a
    ensures |a + b| == |a| + |b|
  {
    assert a !! b;
  }

  lemma HeldWithinSound(sys: System, i: nat, id: string)
    requires i < |sys.processes| && Sound(sys)
    ensures |HeldThrough(sys.processes[i], Store(sys), id)|
         <= if sys.processes[i].config.id == id then sys.processes[i].config.concurrency else 0
  {
    hide Store, HeldThrough, Knows, ValidRun, Owned, HoldsLease, Tracks, Fits, Paced;
    assert ProcessSound(sys.ops, sys.processes[i]);
    HeldWithin(sys.processes[i], Store(sys), id);
  }

  lemma NotAnsweredBefore(sys: System, i: nat, x: Attempt)
    requires i < |sys.processes| && Sound(sys) && Answers(sys.processes[i], x)
    ensures forall k | 0 <= k < i :: !Answers(sys.processes[k], x)
  {
    hide ValidRun, Knows, Answers, Owned, HoldsLease, Tracks, Fits, Paced, Validated;
    AnsweredIsKnown(sys.processes[i], x);
    forall k | 0 <= k < i ensures Answers(sys.processes[k], x) ==> Knows(sys.processes[k], x.token) {
      if Answers(sys.processes[k], x) {
        AnsweredIsKnown(sys.processes[k], x);
      }
    }
  }

  lemma LostNotHeld(sys: System, n: nat, id: string)
    requires Sound(sys) && Books(sys) && n <= |sys.processes|
    ensures HeldThroughFirst(sys, n, id) !! LiveLost(sys, id)
  {
    hide ValidRun, Knows, Answers, Owned, HoldsLease, Tracks, Fits, Paced, Validated, HasLease, Store, Accounted, NewsOnly;
    forall x | x in LiveLost(sys, id) ensures x !in HeldThroughFirst(sys, n, id) {
      HeldByFirst(sys, n, id, x);
      assert Forgotten(sys, x);
      forall i | 0 <= i < n ensures !Answers(sys.processes[i], x) {
        NotAnswered(sys.processes[i], x);
      }
    }
  }

  lemma NotAnswered(p: Process, x: Attempt)
    requires p.local.active.Keys <= p.delivered && !Knows(p, x.token)
    ensures !Answers(p, x)
  {
    hide Knows, Answers;
    if Answers(p, x) {
      AnsweredIsKnown(p, x);
    }
  }

  lemma HeldIsAnsweredOrLost(sys: System, id: string)
    requires Sound(sys) && Books(sys) && Coherent(Store(sys))
    ensures |HeldBy(Store(sys), id)| == |HeldThroughFirst(sys, |sys.processes|, id) + LiveLost(sys, id)|
  {
    hide Sound, Answers, HasLease, Store, Coherent, HeldBy, HeldThroughFirst, Forgotten, NewsOnly;
    var n := |sys.processes|;
    var attempts, jobs := HeldThroughFirst(sys, n, id) + LiveLost(sys, id), HeldBy(Store(sys), id);
    forall x ensures x in attempts <==> x.worker == id && HasLease(Store(sys), x) {
      HeldByFirst(sys, n, id, x);
    }
    hide Books, Accounted, LiveLost;
    forall j ensures j in jobs <==> exists x :: x in attempts && x.job == j {
      HeldHasAttempt(Store(sys), id, j);
    }
    forall x, y | x in attempts && y in attempts && x.job == y.job ensures x == y {
      OneAttempt(Store(sys), x, y);
    }
    CountByJob(attempts, jobs);
  }

  /** The exact number of leases the store holds for a worker id: those its processes answer for, which never exceed their
      concurrency, and the lost ones that are still live. */
  lemma LeasesCounted(configs: seq<Config>, actions: seq<Action>, n: nat, id: string)
    requires n <= |actions| && Possible(configs, actions)
    ensures var sys := Reach(configs, actions, n);
            var answered, allowed := CountThroughFirst(sys, |sys.processes|, id), ConcurrencyOfFirst(sys, |sys.processes|, id);
            && |HeldBy(Store(sys), id)| == answered + |LiveLost(sys, id)|
            && answered <= allowed
            && (|HeldBy(Store(sys), id)| <= allowed <==> |LiveLost(sys, id)| <= allowed - answered)
  {
    var sys := Reach(configs, actions, n);
    hide *;
    AlwaysSound(configs, actions, n);
    AlwaysBooks(configs, actions, n);
    SoundRuns(sys);
    StoreCoherent(sys);
    CountsAddUp(sys, |sys.processes|, id);
    LostNotHeld(sys, |sys.processes|, id);
    HeldIsAnsweredOrLost(sys, id);
  }

  lemma StoreCoherent(sys: System)
    requires ValidRun(sys.ops)
    ensures Coherent(Store(sys))
  {
    hide Coherent, ValidRun, After;
    RunCoherent(sys.ops, |sys.ops|);
  }

  /** No reply is lost, no process restarts, and nobody else reserves. */
  predicate Faultless(a: Action) {
    !a.ReplyLost? && !a.Restart? && (a.Environment? ==> !a.op.ReserveJobs?)
  }

  lemma {:induction false} NothingLost(configs: seq<Config>, actions: seq<Action>, n: nat)
    requires n <= |actions| && forall m | 0 <= m < n :: Faultless(actions[m])
    ensures var sys := Reach(configs, actions, n);
            && sys.lost == {} && |sys.processes| == |configs|
            && forall i | 0 <= i < |configs| :: sys.processes[i].config == configs[i]
    decreases n
  {
    if n > 0 {
      NothingLost(configs, actions, n - 1);
      FaultlessStep(Reach(configs, actions, n - 1), actions[n - 1]);
      hide Perform, Faultless;
    }
  }

  lemma FaultlessStep(sys: System, a: Action)
    requires Faultless(a) && sys.lost == {}
    ensures var next := Perform(sys, a);
            next.lost == {} && forall i | 0 <= i < |sys.processes| :: next.processes[i].config == sys.processes[i].config
  {
    hide After, Command, Execute, ReplyTo, Store, Replied, Slept, Resolved, Beaten, Joined;
  }

  lemma ConcurrencyOfOne(sys: System, n: nat, i: nat)
    requires i < |sys.processes| && n <= |sys.processes|
    requires forall k | 0 <= k < |sys.processes| && k != i :: sys.processes[k].config.id != sys.processes[i].config.id
    ensures ConcurrencyOfFirst(sys, n, sys.processes[i].config.id)
         == if i < n then sys.processes[i].config.concurrency else 0
  {
  }

  /** With one process for each worker id, and none of those faults, the leases of a worker never exceed its concurrency. */
  lemma LeasesWithinConcurrency(configs: seq<Config>, actions: seq<Action>, n: nat, i: nat)
    requires n <= |actions| && Possible(configs, actions) && i < |configs|
    requires forall m | 0 <= m < n :: Faultless(actions[m])
    requires forall k | 0 <= k < |configs| && k != i :: configs[k].id != configs[i].id
    ensures |HeldBy(Store(Reach(configs, actions, n)), configs[i].id)| <= configs[i].concurrency
  {
    var sys := Reach(configs, actions, n);
    hide Reach, Possible, Faultless, HeldBy, Store, ConcurrencyOfFirst, CountThroughFirst, HasLease;
    NothingLost(configs, actions, n);
    LeasesCounted(configs, actions, n, configs[i].id);
    ConcurrencyOfOne(sys, |sys.processes|, i);
    assert LiveLost(sys, configs[i].id) == {};
  }
}
