/** A reservation whose reply no worker received: nobody speaks for its jobs, and reaps bring them back. */
module LostReplies {
  import opened Wrappers
  import opened Queue
  import opened Steps
  import opened LeaseSteps
  import opened Runs
  import opened LiveLeases
  import opened Orphans
  import opened WorkerState
  import opened Fleet
  import opened FleetSafety
  import opened FleetTheorems
  import opened LeaseAccounts

  /** The store granted the attempt to a process of the fleet, and no process was ever told. */
  predicate Undelivered(sys: System, x: Attempt) {
    x in sys.lost && x.token in sys.made && Grant(x.job, x.token) !in sys.started
  }

  /** Commands are only sent for attempts whose handlers were started; what a process waits for has one of its tokens. */
  ghost predicate Voices(sys: System) {
    && (forall op | op in sys.sent :: IsVoice(op) && Grant(op.job, op.token) in sys.started)
    && (forall i, key | 0 <= i < |sys.processes| && key in sys.processes[i].delivered :: key in sys.started)
    && (forall i, g | 0 <= i < |sys.processes| && sys.processes[i].awaiting != None && g in sys.processes[i].awaiting.value ::
          g.token in sys.made)
  }

  lemma UttersActive(sys: System, a: Action, op: Op)
    requires !a.Environment? && a.i < |sys.processes| && ProcessEnabled(sys, sys.processes[a.i], a) && op in Utters(sys, a)
    requires sys.processes[a.i].local.pending.Keys <= sys.processes[a.i].local.active.Keys
    ensures IsVoice(op) && Grant(op.job, op.token) in sys.processes[a.i].local.active
  {
    hide ValidStep, Capacity;
    match a
    case CompletionAnswered(_, key, now) => assert Grant(key.job, key.token) == key;
    case HeartbeatAnswered(_, key, _) => assert Grant(key.job, key.token) == key;
    case Unanswered(_, _) =>
  }

  lemma UttersVoices(sys: System, a: Action, op: Op)
    requires Sound(sys) && Enabled(sys, a) && Voices(sys) && op in Utters(sys, a)
    ensures IsVoice(op) && Grant(op.job, op.token) in sys.started
  {
    hide ValidRun, Knows, Owned, HoldsLease, Paced, Fits, Validated, ValidStep, ProcessEnabled, IsVoice, Command, Speaks;
    assert !a.Environment?;
    assert ProcessSound(sys.ops, sys.processes[a.i]);
    UttersActive(sys, a, op);
    hide Tracks, Utters;
  }

  lemma DeliveredStarted(sys: System, a: Action, i: nat, key: AttemptKey)
    requires Enabled(sys, a) && Voices(sys) && i < |sys.processes| && key in Perform(sys, a).processes[i].delivered
    ensures key in Perform(sys, a).started
  {
    hide ValidStep, Capacity, Command, Execute, ReplyTo, Replied, Losses, Utters, Speaks;
  }

  lemma AwaitedMade(sys: System, a: Action, i: nat, g: Grant)
    requires Sound(sys) && Enabled(sys, a) && Voices(sys) && i < |sys.processes|
    requires var p := Perform(sys, a).processes[i]; p.awaiting != None && g in p.awaiting.value
    ensures g.token in Perform(sys, a).made
  {
    if a.StoreReserves? && a.i == i {
      var p := sys.processes[i];
      CommandValid(sys, p, a);
      RunContinues(sys, ProcessCommand(p, a));
      hide ProcessSound, ValidStep, ValidRun, Capacity;
      ReservationContinues(sys, p, a.now, a.record, a.tokens);
    }
    hide Sound, ValidStep, Command, Execute, Replied, Losses, Utters, Speaks;
  }

  lemma StepVoices(sys: System, a: Action)
    requires Sound(sys) && Enabled(sys, a) && Voices(sys)
    ensures Voices(Perform(sys, a))
  {
    hide Sound, Enabled, Utters, Starts, Continue, Command, Execute, ReplyTo, Losses, Makes;
    var next := Perform(sys, a);
    assert next.started == sys.started + Starts(sys, a) && next.sent == sys.sent + Utters(sys, a);
    hide Perform;
    forall op | op in next.sent ensures IsVoice(op) && Grant(op.job, op.token) in next.started {
      if op !in sys.sent {
        UttersVoices(sys, a, op);
      }
    }
    forall i, key | 0 <= i < |sys.processes| && key in next.processes[i].delivered ensures key in next.started {
      DeliveredStarted(sys, a, i, key);
    }
    forall i, g | 0 <= i < |sys.processes| && next.processes[i].awaiting != None && g in next.processes[i].awaiting.value
      ensures g.token in next.made
    {
      AwaitedMade(sys, a, i, g);
    }
  }

  lemma {:induction false} AlwaysVoices(configs: seq<Config>, actions: seq<Action>, n: nat)
    requires n <= |actions| && Possible(configs, actions)
    ensures Voices(Reach(configs, actions, n))
    decreases n
  {
    hide Sound, Perform, Enabled, Validated, Voices;
    if n == 0 {
      NoVoices(configs, actions);
    } else {
      AlwaysVoices(configs, actions, n - 1);
      AlwaysSound(configs, actions, n - 1);
      StepVoices(Reach(configs, actions, n - 1), actions[n - 1]);
    }
  }

  lemma NoVoices(configs: seq<Config>, actions: seq<Action>)
    ensures Voices(Reach(configs, actions, 0))
  {
  }

  /** A grant whose reply is dropped, or whose process dies while it waits, is undelivered. */
  lemma DroppedIsUndelivered(sys: System, a: Action, g: Grant)
    requires (a.ReplyLost? || a.Restart?) && a.i < |sys.processes| && Voices(sys) && StartsApart(sys)
    requires sys.processes[a.i].awaiting != None && g in sys.processes[a.i].awaiting.value
    ensures Undelivered(Perform(sys, a), AttemptOf(sys.processes[a.i], g))
  {
    var p, next := sys.processes[a.i], Perform(sys, a);
    hide Command, Execute, Continue, ReplyTo, Sent;
    assert Grant(g.job, g.token) == g;
    assert AttemptOf(p, g) in ProcessLosses(p, a);
    hide ProcessLosses;
    assert next.started == sys.started;
  }

  lemma StaysUndelivered(sys: System, a: Action, x: Attempt)
    requires Books(sys) && Undelivered(sys, x)
    ensures Undelivered(Perform(sys, a), x)
  {
    assert Forgotten(sys, x);
    hide Command, Execute, Continue, ReplyTo, HasLease, Accounted, NewsOnly, Losses, Makes, Utters, Sent, Store;
    if a.ReplyArrives? && a.i < |sys.processes| {
      assert !Knows(sys.processes[a.i], x.token);
      assert Grant(x.job, x.token).token == x.token;
    }
  }

  /** Nobody speaks for it: its token is known to no process, and nobody else can have it. */
  lemma UndeliveredUnspoken(sys: System, a: Action, x: Attempt)
    requires Sound(sys) && Enabled(sys, a) && Books(sys) && Voices(sys) && Undelivered(sys, x)
    ensures Command(sys, a) != None ==> !SentBy(Command(sys, a).value, x.job, x.worker, x.token)
  {
    hide ValidStep, Apply, After, HasLease, Accounted, NewsOnly, Knows, ValidRun, ProcessSound;
    assert Forgotten(sys, x);
    if a.Environment? {
      EnvironmentUnspoken(sys, a.op, x);
    } else {
      CommandUnspoken(sys, sys.processes[a.i], a, x);
    }
  }

  lemma EnvironmentUnspoken(sys: System, op: Op, x: Attempt)
    requires Voices(sys) && Undelivered(sys, x) && (IsVoice(op) && op.token in sys.made ==> op in sys.sent)
    ensures !SentBy(op, x.job, x.worker, x.token)
  {
  }

  lemma CommandUnspoken(sys: System, p: Process, a: Action, x: Attempt)
    requires ProcessEnabled(sys, p, a) && ProcessSound(sys.ops, p) && !Knows(p, x.token)
    ensures ProcessCommand(p, a) != None ==> !SentBy(ProcessCommand(p, a).value, x.job, x.worker, x.token)
  {
    hide ValidStep, Capacity, Owned, HoldsLease, Paced, Fits, Validated;
    match a
    case StoreReserves(_, _, _, _) =>
    case CompletionAnswered(_, key, _) => assert key in p.delivered;
    case HeartbeatAnswered(_, key, _) => assert key in p.delivered;
    case _ =>
  }

  lemma {:induction false} OpsGrow(configs: seq<Config>, actions: seq<Action>, m: nat, n: nat)
    requires m <= n <= |actions|
    ensures var before, after := Reach(configs, actions, m).ops, Reach(configs, actions, n).ops;
            |before| <= |after| && after[..|before|] == before
    decreases n
  {
    hide Perform, Command;
    if m < n {
      OpsGrow(configs, actions, m, n - 1);
      NextOps(Reach(configs, actions, n - 1), actions[n - 1]);
    }
  }

  /** The actions `m` .. `n` come with clocks past the deadline, and no operator forces the job. */
  ghost predicate LateActions(configs: seq<Config>, actions: seq<Action>, m: nat, n: nat, x: Attempt, deadline: int)
    requires m <= n <= |actions|
  {
    forall k | m <= k < n :: LateAction(Reach(configs, actions, k), actions[k], x, deadline)
  }

  ghost predicate LateAction(sys: System, a: Action, x: Attempt, deadline: int) {
    Command(sys, a) != None ==> LateClock(Command(sys, a).value, x, deadline)
  }

  /** From the moment a reply is lost, the grant stays undelivered, and no step of the store speaks for it. */
  lemma {:induction false} SilentFrom(configs: seq<Config>, actions: seq<Action>, m: nat, n: nat, x: Attempt, deadline: int)
    requires m <= n <= |actions| && Possible(configs, actions) && Undelivered(Reach(configs, actions, m), x)
    requires LateActions(configs, actions, m, n, x, deadline)
    ensures Undelivered(Reach(configs, actions, n), x)
    ensures var before, after := Reach(configs, actions, m).ops, Reach(configs, actions, n).ops;
            |before| <= |after| && forall e | |before| <= e < |after| :: PastDeadline(after[e], x, deadline)
    decreases n
  {
    hide Undelivered, Perform, Possible, Sound, Books, Voices, LateAction, PastDeadline;
    if m < n {
      SilentFrom(configs, actions, m, n - 1, x, deadline);
      AlwaysSound(configs, actions, n - 1);
      AlwaysBooks(configs, actions, n - 1);
      AlwaysVoices(configs, actions, n - 1);
      OpsGrow(configs, actions, m, n - 1);
      OpsGrow(configs, actions, n - 1, n);
      ActionEnabled(configs, actions, n - 1);
      StaysSilent(Reach(configs, actions, n - 1), actions[n - 1], x, deadline);
    }
  }

  lemma ActionEnabled(configs: seq<Config>, actions: seq<Action>, n: nat)
    requires n < |actions| && Possible(configs, actions)
    ensures Enabled(Reach(configs, actions, n), actions[n])
  {
    hide Enabled, Reach, Validated;
  }

  lemma StaysSilent(sys: System, a: Action, x: Attempt, deadline: int)
    requires Sound(sys) && Enabled(sys, a) && Books(sys) && Voices(sys) && Undelivered(sys, x)
    requires LateAction(sys, a, x, deadline)
    ensures var next := Perform(sys, a);
            Undelivered(next, x) && forall e | |sys.ops| <= e < |next.ops| :: PastDeadline(next.ops[e], x, deadline)
  {
    hide Undelivered, Perform, Enabled, Sound, Books, Voices, LateClock, Command;
    StaysUndelivered(sys, a, x);
    UndeliveredUnspoken(sys, a, x);
    NextOps(sys, a);
  }

  lemma NextOps(sys: System, a: Action)
    ensures Perform(sys, a).ops == Execute(sys, Command(sys, a))
  {
    hide Command, Execute;
  }

  /** So the job of a lost reply is recovered: once the clocks are past the deadline it was granted with, as many reaps as
      it takes to count down to its rank put it back into `ready`, whatever processes and other clients do. */
  lemma LostReplyRecovered(configs: seq<Config>, actions: seq<Action>, m: nat, n: nat, limit: nat, x: Attempt, deadline: int)
    requires m <= n <= |actions| && Possible(configs, actions) && limit >= 1
    requires Undelivered(Reach(configs, actions, m), x) && Waiting(Store(Reach(configs, actions, m)), x, deadline)
    requires LateActions(configs, actions, m, n, x, deadline)
    requires |Reach(configs, actions, m).ops| <= |Reach(configs, actions, n).ops|
    requires ReapCount(Reach(configs, actions, n).ops, |Reach(configs, actions, m).ops|, |Reach(configs, actions, n).ops|, limit) * limit
             >= RankOf(Store(Reach(configs, actions, m)), x.job)
    ensures var before, after := Reach(configs, actions, m).ops, Reach(configs, actions, n).ops;
            exists e :: |before| <= e < |after| && RecoversAt(after, e, x.job)
  {
    var before, after := Reach(configs, actions, m).ops, Reach(configs, actions, n).ops;
    SilentFrom(configs, actions, m, n, x, deadline);
    OpsGrow(configs, actions, m, n);
    AlwaysSound(configs, actions, n);
    SoundRuns(Reach(configs, actions, n));
    TakenPrefix(after, |before|, |before|);
    hide Sound, Reach, Possible, Undelivered, After, Issued, ValidRun, LateActions, ReapCount, RankOf, RecoversAt, Waiting, PastDeadline;
    OrphanBound(after, |before|, |after|, limit, x, deadline);
  }
}
