/** What a handler returns is what becomes of its job. */
module Outcomes {
  import opened Wrappers
  import opened Codec
  import opened Policy
  import opened Queue
  import opened Invariants
  import opened Steps
  import opened Runs
  import opened Replies
  import opened LiveLeases
  import opened WorkerState
  import opened Fleet
  import opened FleetSafety
  import opened LeaseAccounts
  import Scripts

  /** The run succeeded: the job's failures are forgotten. */
  predicate Forgiven(t: State, job: string) {
    job !in t.failures
  }

  /** The run failed: that is counted once. */
  predicate CountedOnce(s: State, t: State, job: string) {
    job in t.failures && t.failures[job] == Counter(s.failures, job) + 1
  }

  predicate ReadySince(t: State, job: string, at: int) {
    PlaceOf(t, job) == Ready && t.ready[job] == at
  }

  predicate ScheduledFor(t: State, job: string, at: int) {
    PlaceOf(t, job) == Scheduled && t.scheduled[job] == at
  }

  predicate FailedSince(t: State, job: string, at: int) {
    PlaceOf(t, job) == Failed && t.failed[job] == at
  }

  /** Where an error leaves the job, according to the policy of the worker. */
  ghost predicate Retried(s: State, t: State, job: string, now: int, policy: RetryPolicy)
    requires Counter(s.failures, job) >= 0
  {
    var n := Counter(s.failures, job) + 1;
    if GivesUp(policy, n) then FailedSince(t, job, now)
    else exists delay: nat :: IsDelay(BackoffOf(policy), n, delay) && Waits(t, job, now, delay)
  }

  predicate Waits(t: State, job: string, now: int, delay: nat) {
    if delay == 0 then ReadySince(t, job, now) else ScheduledFor(t, job, now + delay * 1000)
  }

  /** What the outcome of a run that was still leased must have done to its job. */
  ghost predicate Reported(s: State, t: State, job: string, now: int, outcome: Outcome, policy: RetryPolicy) {
    && Counter(s.failures, job) >= 0
    && job in s.leased && job !in t.leased && OnlyJob(s, t, job)
    && match outcome
       case RunCompleted =>
         && Forgiven(t, job)
         && if job in s.rerun then ReadySince(t, job, now) else PlaceOf(t, job) == Absent
       case RunAgain(at) =>
         && Forgiven(t, job)
         && if job !in s.rerun && at != 0 && at > now then ScheduledFor(t, job, at) else ReadySince(t, job, now)
       case RunFailed => CountedOnce(s, t, job) && FailedSince(t, job, now)
       case RunErrored => CountedOnce(s, t, job) && Retried(s, t, job, now, policy)
  }

  lemma CountsNatural(s: State, job: string)
    requires Coherent(s)
    ensures Counter(s.failures, job) >= 0
  {
    assert CoherentAt(s, job);
  }

  lemma CompletedReports(s: State, a: Attempt, now: int, policy: RetryPolicy)
    requires Coherent(s) && HasLease(s, a)
    ensures Reported(s, Scripts.Ack(s, a.job, a.worker, a.token, now).0, a.job, now, RunCompleted, policy)
  {
    assert CoherentAt(s, a.job);
    CountsNatural(s, a.job);
    hide Coherent, PackLease, IsRecord, Decrement;
    AckTells(s, a.job, a.worker, a.token, now);
    var t := Scripts.Ack(s, a.job, a.worker, a.token, now).0;
    assert t.leased == s.leased - {a.job} && t.failures == s.failures - {a.job};
    hide Scripts.Ack;
  }

  lemma AgainReports(s: State, a: Attempt, now: int, at: int, policy: RetryPolicy)
    requires Coherent(s) && HasLease(s, a)
    ensures Reported(s, Scripts.Complete(s, a.job, a.worker, a.token, now, at).0, a.job, now, RunAgain(at), policy)
  {
    assert CoherentAt(s, a.job);
    CountsNatural(s, a.job);
    hide Coherent, PackLease, IsRecord, Decrement;
    CompleteTells(s, a.job, a.worker, a.token, now, at);
    var t := Scripts.Complete(s, a.job, a.worker, a.token, now, at).0;
    assert t.leased == s.leased - {a.job} && t.failures == s.failures - {a.job};
    hide Scripts.Complete;
  }

  lemma FailureReports(s: State, a: Attempt, now: int, outcome: Outcome, policy: RetryPolicy)
    requires Coherent(s) && HasLease(s, a) && (outcome == RunFailed || outcome == RunErrored)
    ensures Reported(s, Scripts.Fail(s, a.job, a.worker, a.token, now, outcome == RunFailed, policy).0, a.job, now, outcome,
                     policy)
  {
    assert CoherentAt(s, a.job);
    CountsNatural(s, a.job);
    var n := Counter(s.failures, a.job) + 1;
    DelayIs(BackoffOf(policy), n);
    hide Coherent, PackLease, IsRecord, Decrement, DelayMs, IsDelay;
    FailTells(s, a.job, a.worker, a.token, now, outcome == RunFailed, policy);
    var t := Scripts.Fail(s, a.job, a.worker, a.token, now, outcome == RunFailed, policy).0;
    assert t.leased == s.leased - {a.job} && t.failures == s.failures[a.job := n];
    hide Scripts.Fail;
    if outcome == RunErrored && !GivesUp(policy, n) {
      assert Waits(t, a.job, now, DelayMs(BackoffOf(policy), n));
    }
  }

  /** The command about a result, whenever it is executed: if the attempt still holds its lease, the job ends up as the
      outcome says, and no other job changes. */
  lemma ResultReported(p: Process, op: Op, s: State)
    requires Speaks(p, op) && !op.HeartbeatLease?
    requires Coherent(s) && HasLease(s, AttemptOf(p, Grant(op.job, op.token)))
    ensures Reported(s, Apply(s, op).0, op.job, op.now, p.local.pending[Grant(op.job, op.token)], p.config.policy)
  {
    var key := Grant(op.job, op.token);
    var a := AttemptOf(p, key);
    hide Coherent, HasLease, Reported, Scripts.Ack, Scripts.Complete, Scripts.Fail;
    match p.local.pending[key]
    case RunCompleted => CompletedReports(s, a, op.now, p.config.policy);
    case RunAgain(at) => AgainReports(s, a, op.now, at, p.config.policy);
    case RunFailed => FailureReports(s, a, op.now, RunFailed, p.config.policy);
    case RunErrored => FailureReports(s, a, op.now, RunErrored, p.config.policy);
  }

  /** The actions that take a result away from process `i`: the answer to its command, and the end of the process. */
  predicate Settles(a: Action, i: nat, key: AttemptKey) {
    (a.CompletionAnswered? && a.i == i && a.key == key) || (a.Restart? && a.i == i)
  }

  predicate HasResult(sys: System, i: nat, key: AttemptKey, outcome: Outcome) {
    && i < |sys.processes|
    && key in sys.processes[i].local.pending && sys.processes[i].local.pending[key] == outcome
  }

  lemma ResultStays(sys: System, a: Action, i: nat, key: AttemptKey, outcome: Outcome)
    requires Sound(sys) && Enabled(sys, a) && HasResult(sys, i, key, outcome) && !Settles(a, i, key)
    ensures HasResult(Perform(sys, a), i, key, outcome)
  {
    assert i < |sys.processes|;
    hide *;
    if !a.Environment? && a.i == i {
      ActorTracks(sys, i, key, outcome);
      ActorKeepsResult(sys, a, key, outcome);
    } else {
      OthersKeepResult(sys, a, i, key, outcome);
    }
  }

  lemma OthersKeepResult(sys: System, a: Action, i: nat, key: AttemptKey, outcome: Outcome)
    requires HasResult(sys, i, key, outcome) && (a.Environment? || a.i != i)
    ensures HasResult(Perform(sys, a), i, key, outcome)
  {
    hide Command, Execute, ReplyTo, Losses, Makes, Utters, Starts, Continue;
  }

  lemma ActorKeepsResult(sys: System, a: Action, key: AttemptKey, outcome: Outcome)
    requires !a.Environment? && a.i < |sys.processes| && HasResult(sys, a.i, key, outcome)
    requires Enabled(sys, a) && !Settles(a, a.i, key)
    requires Tracks(sys.processes[a.i].local, sys.processes[a.i].config)
    ensures HasResult(Perform(sys, a), a.i, key, outcome)
  {
    hide *;
    var p := sys.processes[a.i];
    PerformIs(sys, a);
    EnabledHere(sys, a);
    ResultIs(sys, a.i, key, outcome);
    ResultIs(Perform(sys, a), a.i, key, outcome);
    PendingStays(sys, p, a, ReplyTo(sys, ProcessCommand(p, a)), key);
  }

  lemma ResultIs(sys: System, i: nat, key: AttemptKey, outcome: Outcome)
    requires i < |sys.processes|
    ensures HasResult(sys, i, key, outcome)
       <==> key in sys.processes[i].local.pending && sys.processes[i].local.pending[key] == outcome
  {
  }

  lemma ActorTracks(sys: System, i: nat, key: AttemptKey, outcome: Outcome)
    requires Sound(sys) && HasResult(sys, i, key, outcome)
    ensures Tracks(sys.processes[i].local, sys.processes[i].config)
  {
    hide ValidRun, Knows, Owned, HoldsLease, Paced, Fits, Validated, Tracks;
  }

  lemma PendingStays(sys: System, p: Process, a: Action, reply: Reply, key: AttemptKey)
    requires Tracks(p.local, p.config) && ProcessEnabled(sys, p, a) && key in p.local.pending
    requires !a.Environment? && !Settles(a, a.i, key)
    ensures var q := Continue(p, a, reply); key in q.local.pending && q.local.pending[key] == p.local.pending[key]
  {
    hide ValidStep, Capacity, Speaks, Replied;
    match a
    case ReplyArrives(_, next, now) => RepliedPending(p, next, now);
    case HandlerReturns(_, other, _) => assert other != key;
    case CompletionAnswered(_, _, _) =>
    case HeartbeatAnswered(_, _, _) =>
    case _ => hide Tracks;
  }

  lemma RepliedPending(p: Process, next: Option<int>, now: int)
    requires p.awaiting != None
    ensures Replied(p.local, p.config, p.awaiting.value, next, now).pending == p.local.pending
  {
    if p.awaiting.value != [] {
      SpawnedAllActive(p.local.(nextScheduleAt := next, pollDelay := p.config.pollMin), p.awaiting.value);
    }
  }

  lemma ResultArrives(sys: System, i: nat, key: AttemptKey, outcome: Outcome)
    requires i < |sys.processes|
    ensures HasResult(Perform(sys, HandlerReturns(i, key, outcome)), i, key, outcome)
  {
    hide Command, Execute, ReplyTo, Losses, Makes, Utters, Starts;
  }

  /** A process neither loses nor alters a result before its command is answered. */
  lemma {:induction false} ResultKept(configs: seq<Config>, actions: seq<Action>, m: nat, n: nat, i: nat, key: AttemptKey,
                                      outcome: Outcome)
    requires m < n <= |actions| && Possible(configs, actions) && i < |Reach(configs, actions, m).processes|
    requires actions[m] == HandlerReturns(i, key, outcome)
    requires forall k | m < k < n :: !Settles(actions[k], i, key)
    ensures HasResult(Reach(configs, actions, n), i, key, outcome)
    decreases n
  {
    hide Sound, Perform, Enabled, Validated, HasResult, Settles;
    if n == m + 1 {
      ResultArrives(Reach(configs, actions, m), i, key, outcome);
    } else {
      ResultKept(configs, actions, m, n - 1, i, key, outcome);
      AlwaysSound(configs, actions, n - 1);
      ResultStays(Reach(configs, actions, n - 1), actions[n - 1], i, key, outcome);
    }
  }

  /** What a handler returns at action `m` is what becomes of its job: any command about the result that the process sends
      at `n`, whenever the store executes it after that, has the effect of this very outcome if the lease is still held. */
  lemma OutcomeReaches(configs: seq<Config>, actions: seq<Action>, m: nat, n: nat, k: nat, i: nat, key: AttemptKey,
                       outcome: Outcome, op: Op)
    requires m < n <= k <= |actions| && Possible(configs, actions) && i < |Reach(configs, actions, m).processes|
    requires actions[m] == HandlerReturns(i, key, outcome)
    requires forall x | m < x < n :: !Settles(actions[x], i, key)
    requires i < |Reach(configs, actions, n).processes|
    requires Speaks(Reach(configs, actions, n).processes[i], op) && !op.HeartbeatLease? && Grant(op.job, op.token) == key
    requires HasLease(Store(Reach(configs, actions, k)), AttemptOf(Reach(configs, actions, n).processes[i], key))
    ensures var s := Store(Reach(configs, actions, k));
            Reported(s, Apply(s, op).0, key.job, op.now, outcome, Reach(configs, actions, n).processes[i].config.policy)
  {
    ResultKept(configs, actions, m, n, i, key, outcome);
    AlwaysSound(configs, actions, k);
    SoundRuns(Reach(configs, actions, k));
    hide Possible, Reach, Apply, After, Issued, ValidRun, Reported, Speaks, Settles, HasLease, Sound;
    RunCoherent(Reach(configs, actions, k).ops, |Reach(configs, actions, k).ops|);
    hide Coherent;
    ResultReported(Reach(configs, actions, n).processes[i], op, Store(Reach(configs, actions, k)));
  }

  /** In particular the command that is answered in time. */
  lemma ResultApplied(sys: System, i: nat, key: AttemptKey, now: int)
    requires Sound(sys) && i < |sys.processes| && Enabled(sys, CompletionAnswered(i, key, now))
    requires HoldsLease(sys.ops, sys.processes[i], key) && key in sys.processes[i].local.pending
    ensures var p := sys.processes[i];
            Reported(Store(sys), Store(Perform(sys, CompletionAnswered(i, key, now))), key.job, now, p.local.pending[key],
                     p.config.policy)
  {
    var p, a := sys.processes[i], CompletionAnswered(i, key, now);
    hide *;
    CompletionSpeaks(p, key, now);
    SoundRuns(sys);
    RunCoherent(sys.ops, |sys.ops|);
    StoreHolds(sys, p, key);
    ResultReported(p, CompletionOf(p.config, key, p.local.pending[key], now), Store(sys));
    StoreCompletes(sys, i, key, now);
  }

  lemma StoreHolds(sys: System, p: Process, key: AttemptKey)
    ensures HoldsLease(sys.ops, p, key) ==> HasLease(Store(sys), AttemptOf(p, key))
    ensures Grant(key.job, key.token) == key && Store(sys) == After(sys.ops, |sys.ops|)
  {
    hide HasLease, After;
  }

  lemma StoreCompletes(sys: System, i: nat, key: AttemptKey, now: int)
    requires i < |sys.processes| && key in sys.processes[i].local.pending
    ensures var p := sys.processes[i];
            Store(Perform(sys, CompletionAnswered(i, key, now)))
            == Apply(Store(sys), CompletionOf(p.config, key, p.local.pending[key], now)).0
  {
    hide *;
    var p := sys.processes[i];
    var op := CompletionOf(p.config, key, p.local.pending[key], now);
    CompletionExecuted(sys, i, key, now);
    LastStep(sys.ops, op);
    StoreIs(sys);
    StoreIs(Perform(sys, CompletionAnswered(i, key, now)));
  }

  lemma StoreIs(sys: System)
    ensures Store(sys) == After(sys.ops, |sys.ops|)
  {
    hide After;
  }

  lemma CompletionExecuted(sys: System, i: nat, key: AttemptKey, now: int)
    requires i < |sys.processes| && key in sys.processes[i].local.pending
    ensures var p := sys.processes[i];
            var op := CompletionOf(p.config, key, p.local.pending[key], now);
            Perform(sys, CompletionAnswered(i, key, now)).ops == sys.ops + [op] && |sys.ops + [op]| == |sys.ops| + 1
  {
    hide CompletionOf, ReplyTo, Continue, Losses, Utters, Starts, Makes;
  }

  lemma CompletionSpeaks(p: Process, key: AttemptKey, now: int)
    requires key in p.local.pending
    ensures var op := CompletionOf(p.config, key, p.local.pending[key], now);
            Speaks(p, op) && !op.HeartbeatLease? && op.now == now && op.job == key.job && op.token == key.token
  {
    assert Grant(key.job, key.token) == key;
    match p.local.pending[key]
    case RunCompleted =>
    case RunAgain(_) =>
    case RunFailed =>
    case RunErrored =>
  }
}
