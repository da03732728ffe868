/** What the composed system guarantees, whatever is lost, late, repeated or restarted. */
module FleetTheorems {
  import opened Wrappers
  import opened Codec
  import opened Queue
  import opened Steps
  import opened LeaseSteps
  import opened LeaseLedger
  import opened Runs
  import opened LiveLeases
  import opened WorkerState
  import opened Fleet
  import opened FleetSafety

  lemma SoundAt(configs: seq<Config>, actions: seq<Action>, n: nat, i: nat)
    requires n <= |actions| && Possible(configs, actions)
    requires i < |Reach(configs, actions, n).processes|
    ensures ValidRun(Reach(configs, actions, n).ops)
    ensures ProcessSound(Reach(configs, actions, n).ops, Reach(configs, actions, n).processes[i])
  {
    hide ProcessSound, ValidRun, Knows, Reach;
    AlwaysSound(configs, actions, n);
  }

  /** No worker ever overbooks itself: the attempts it counts are its running handlers and its unresolved results, each
      once, and together they never exceed its concurrency. */
  lemma NeverOverbooked(configs: seq<Config>, actions: seq<Action>, n: nat, i: nat)
    requires n <= |actions| && Possible(configs, actions)
    requires i < |Reach(configs, actions, n).processes|
    ensures var p := Reach(configs, actions, n).processes[i];
            && p.local.running + multiset(p.local.pending.Keys) == multiset(p.local.active.Keys)
            && |p.local.running| + |p.local.pending| <= p.config.concurrency
  {
    SoundAt(configs, actions, n, i);
    hide Reach, Owned, HoldsLease, Fits, Possible;
    TracksInNumbers(Reach(configs, actions, n).processes[i].local, Reach(configs, actions, n).processes[i].config);
  }

  lemma TracksInNumbers(w: Local, c: Config)
    requires Tracks(w, c)
    ensures w.running + multiset(w.pending.Keys) == multiset(w.active.Keys)
    ensures |w.running| + |w.pending| <= c.concurrency
  {
    assert w.active.Keys == (w.active.Keys - w.pending.Keys) + w.pending.Keys;
    assert w.running + multiset(w.pending.Keys) == multiset(w.active.Keys);
    assert |w.running + multiset(w.pending.Keys)| == |multiset(w.active.Keys)|;
  }

  /** No result is dropped while it matters: an attempt that was delivered and still holds its lease has a running
      handler, or a result that waits to be resolved. */
  lemma LiveAttemptsAreKept(configs: seq<Config>, actions: seq<Action>, n: nat, i: nat, key: AttemptKey)
    requires n <= |actions| && Possible(configs, actions)
    requires i < |Reach(configs, actions, n).processes|
    requires var sys := Reach(configs, actions, n);
             key in sys.processes[i].delivered && HoldsLease(sys.ops, sys.processes[i], key)
    ensures var w := Reach(configs, actions, n).processes[i].local;
            key in w.active && w.active[key] && (key in w.running || key in w.pending)
  {
    SoundAt(configs, actions, n, i);
    hide Reach, Owned, HoldsLease, Fits, Possible, Paced, Validated;
  }

  /** An attempt leaves a worker's books only when its own completion is answered, or with the whole worker. */
  lemma LeavesWhenResolved(sys: System, a: Action, i: nat, key: AttemptKey)
    requires Enabled(sys, a) && i < |sys.processes|
    requires key in sys.processes[i].local.active && key !in Perform(sys, a).processes[i].local.active
    ensures (a.CompletionAnswered? && a.i == i && a.key == key) || (a.Restart? && a.i == i)
  {
    hide Apply, ValidStep, Capacity, Sent, Store, Command, Execute;
    if a.ReplyArrives? {
      var p := sys.processes[a.i];
      RepliedActive(p.local, p.config, p.awaiting.value, a.nextScheduleAt, a.now);
      hide Replied;
    }
  }

  /** At any time at most one worker process holds the live attempt of a job. */
  lemma OneLiveHolder(configs: seq<Config>, actions: seq<Action>, n: nat, i: nat, key: AttemptKey, k: nat, other: AttemptKey)
    requires n <= |actions| && Possible(configs, actions)
    requires i < |Reach(configs, actions, n).processes| && k < |Reach(configs, actions, n).processes|
    requires var sys := Reach(configs, actions, n);
             && key in sys.processes[i].delivered && HoldsLease(sys.ops, sys.processes[i], key)
             && other in sys.processes[k].delivered && HoldsLease(sys.ops, sys.processes[k], other)
             && key.job == other.job
    ensures i == k && key == other
  {
    AlwaysSound(configs, actions, n);
    hide Reach, ProcessSound, Possible, ValidRun, After;
    var sys := Reach(configs, actions, n);
    var p, q := sys.processes[i], sys.processes[k];
    PackInjective(p.config.id, key.token, q.config.id, other.token);
    assert key == other;
    assert Knows(p, key.token) && Knows(q, key.token);
  }

  lemma {:induction false} EndBetween(ops: seq<Op>, lo: nat, hi: nat, a: Attempt) returns (e: nat)
    requires lo <= hi <= |ops|
    requires HasLease(After(ops, lo), a) && !HasLease(After(ops, hi), a)
    ensures lo <= e < hi && EndsAt(ops, e, a.job, a.worker, a.token)
    decreases hi
  {
    hide Holds, After;
    if HasLease(After(ops, hi - 1), a) {
      e := hi - 1;
    } else {
      e := EndBetween(ops, lo, hi - 1, a);
    }
  }

  /** The step ended this attempt, and it was entitled to. */
  ghost predicate EndsForCauseAt(ops: seq<Op>, e: nat, a: Attempt) {
    && e < |ops| && EndsAt(ops, e, a.job, a.worker, a.token)
    && a.job in After(ops, e).leased && MayEnd(After(ops, e), ops[e], a.job, a.worker, a.token)
  }

  /** A worker is turned away for a reason: when an attempt it was given no longer holds its lease, some earlier step of
      the store was its own completion, an operator's force, or a reap past its deadline. */
  lemma LostForCause(configs: seq<Config>, actions: seq<Action>, n: nat, i: nat, key: AttemptKey)
    requires n <= |actions| && Possible(configs, actions)
    requires i < |Reach(configs, actions, n).processes|
    requires var sys := Reach(configs, actions, n);
             key in sys.processes[i].delivered && !HoldsLease(sys.ops, sys.processes[i], key)
    ensures var sys := Reach(configs, actions, n);
            exists e :: EndsForCauseAt(sys.ops, e, AttemptOf(sys.processes[i], key))
  {
    SoundAt(configs, actions, n, i);
    var ops, p := Reach(configs, actions, n).ops, Reach(configs, actions, n).processes[i];
    var a := AttemptOf(p, key);
    assert Owned(ops, p, key);
    hide Reach, Fits, Possible, Tracks, Paced, Validated, Apply, ValidRun, After, MayEnd, Issued, GrantsAttempt;
    var g :| 0 <= g < |ops| && GrantsAttempt(ops, g, a);
    GrantHeld(ops, g, a);
    var e := EndBetween(ops, g + 1, |ops|, a);
    EndsForCause(ops, e, a.job, a.worker, a.token);
    assert EndsForCauseAt(ops, e, a);
  }

  lemma GrantHeld(ops: seq<Op>, g: nat, a: Attempt)
    requires g < |ops| && ValidRun(ops) && GrantsAttempt(ops, g, a)
    ensures HasLease(After(ops, g + 1), a)
  {
    GrantHasLease(ops, g, a);
  }

  /** Of all the completions the store executes for one attempt, in time, late or repeated, at most one takes effect. */
  lemma CompletionsTakeEffectOnce(configs: seq<Config>, actions: seq<Action>, n: nat, x: nat, y: nat, a: Attempt)
    requires n <= |actions| && Possible(configs, actions)
    requires var ops := Reach(configs, actions, n).ops;
             && x < y < |ops|
             && CompletionBy(ops[x], a.job, a.worker, a.token) && CompletionBy(ops[y], a.job, a.worker, a.token)
    ensures var ops := Reach(configs, actions, n).ops;
            ReplyAt(ops, x) == LeaseMismatch || ReplyAt(ops, y) == LeaseMismatch
  {
    AlwaysSound(configs, actions, n);
    hide *;
    SoundRuns(Reach(configs, actions, n));
    CompletesAtMostOnce(Reach(configs, actions, n).ops, x, y, a.job, a.worker, a.token);
  }

  /** Every started attempt was started once; what a process waits for was not started yet. */
  ghost predicate StartsApart(sys: System) {
    && (forall x, y | 0 <= x < y < |sys.started| :: sys.started[x] != sys.started[y])
    && (forall key | key in sys.started :: key.token in Sent(sys))
    && (forall i | 0 <= i < |sys.processes| && sys.processes[i].awaiting != None ::
          forall g | g in sys.processes[i].awaiting.value :: g !in sys.started)
  }

  lemma WaitingIsSent(sys: System, i: nat, g: Grant)
    requires Sound(sys) && i < |sys.processes| && sys.processes[i].awaiting != None && g in sys.processes[i].awaiting.value
    ensures g.token in Sent(sys)
  {
    hide ProcessSound, ValidRun, Issued, After;
    assert Knows(sys.processes[i], g.token);
    KnownInSystem(sys, i, g.token);
  }

  /** What a process waits for after an action it did not wait for before has a fresh token. */
  lemma WaitsForFresh(sys: System, a: Action, i: nat, g: Grant)
    requires Sound(sys) && Enabled(sys, a) && i < |sys.processes|
    requires var p := Perform(sys, a).processes[i]; p.awaiting != None && g in p.awaiting.value
    ensures var p := sys.processes[i];
            g.token !in Sent(sys) || (!(a.ReplyArrives? && a.i == i) && p.awaiting != None && g in p.awaiting.value)
  {
    hide Apply, Capacity, Sent, Store, CompletionOf, Replied, Resolved, Beaten, Joined, Slept, ReserveFailed;
    if a.StoreReserves? && a.i == i {
      var p := sys.processes[i];
      CommandValid(sys, p, a);
      RunContinues(sys, ProcessCommand(p, a));
      hide ProcessSound, ValidStep, Execute, ValidRun;
      ReservationContinues(sys, p, a.now, a.record, a.tokens);
      FreshTokens(sys, Reservation(p.config, Capacity(p.local, p.config), a.now, a.record, a.tokens));
    }
  }

  /** No two processes wait for the same grant. */
  lemma WaitsAlone(sys: System, i: nat, k: nat, g: Grant)
    requires Sound(sys) && i < |sys.processes| && k < |sys.processes| && i != k
    requires sys.processes[i].awaiting != None && g in sys.processes[i].awaiting.value
    ensures sys.processes[k].awaiting != None ==> g !in sys.processes[k].awaiting.value
  {
    hide ProcessSound, ValidRun;
    assert Knows(sys.processes[i], g.token);
    assert !Knows(sys.processes[k], g.token);
  }

  lemma StepStarts(sys: System, a: Action)
    requires Sound(sys) && StartsApart(sys) && Enabled(sys, a)
    ensures StartsApart(Perform(sys, a))
  {
    hide ProcessSound, ProcessEnabled, ProcessCommand, Continue, ReplyTo, Execute, ValidRun, Sent, Command;
    var next := Perform(sys, a);
    var starts := Starts(sys, a);
    assert next.started == sys.started + starts;
    StartsFit(sys, a);
    forall key | key in next.started ensures key.token in Sent(next) {
      SentGrows(sys, a, key.token);
    }
    forall i, g | 0 <= i < |next.processes| && next.processes[i].awaiting != None && g in next.processes[i].awaiting.value
      ensures g !in next.started
    {
      WaitsForFresh(sys, a, i, g);
      if g.token in Sent(sys) && a.ReplyArrives? && a.i < |sys.processes| {
        WaitsAlone(sys, i, a.i, g);
      }
    }
  }

  lemma StartsFit(sys: System, a: Action)
    requires Sound(sys) && StartsApart(sys) && Enabled(sys, a)
    ensures var starts := Starts(sys, a);
            && (forall x, y | 0 <= x < y < |starts| :: starts[x] != starts[y])
            && (forall key | key in starts :: key !in sys.started && key.token in Sent(sys))
  {
    if Starts(sys, a) != [] {
      forall key | key in Starts(sys, a) ensures key.token in Sent(sys) {
        WaitingIsSent(sys, a.i, key);
      }
    }
  }

  /** No handler is started twice for the same attempt, by any process, in the whole life of the system. */
  lemma {:induction false} HandlersStartOnce(configs: seq<Config>, actions: seq<Action>, n: nat)
    requires n <= |actions| && Possible(configs, actions)
    ensures StartsApart(Reach(configs, actions, n))
    decreases n
  {
    hide Sound, Perform, Enabled, Validated, StartsApart;
    if n == 0 {
      NothingStarted(configs, actions);
    } else {
      HandlersStartOnce(configs, actions, n - 1);
      AlwaysSound(configs, actions, n - 1);
      StepStarts(Reach(configs, actions, n - 1), actions[n - 1]);
    }
  }

  lemma NothingStarted(configs: seq<Config>, actions: seq<Action>)
    ensures StartsApart(Reach(configs, actions, 0))
  {
  }
}
