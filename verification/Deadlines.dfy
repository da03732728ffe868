/** Every lease of a worker runs for the duration the worker is configured with, from its grant and from each heartbeat. */
module Deadlines {
  import opened Wrappers
  import opened Codec
  import opened Queue
  import opened Invariants
  import opened Steps
  import opened LeaseSteps
  import opened Runs
  import opened LiveLeases
  import opened WorkerState
  import opened Fleet
  import opened FleetSafety
  import opened FleetTheorems
  import opened LeaseAccounts

  /** The lease duration each token was made for. */
  function Durations(ops: seq<Op>, i: nat): map<string, int>
    requires i <= |ops|
  {
    if i == 0 then map[]
    else
      var op := ops[i - 1];
      if op.ReserveJobs? then Durations(ops, i - 1) + (map t | t in op.tokens :: op.duration) else Durations(ops, i - 1)
  }

  /** The process was told of the attempt, or waits to be. */
  predicate Told(p: Process, key: AttemptKey) {
    key in p.delivered || (p.awaiting != None && key in p.awaiting.value)
  }

  /** Tokens, processes and heartbeats, sent or executed, agree on the lease duration of an attempt. */
  ghost predicate Timed(sys: System) {
    && (forall i | 0 <= i < |sys.processes| :: ProcessTimed(sys.ops, sys.made, sys.processes[i]))
    && (forall op | op in sys.sent :: BeatTimed(sys.ops, |sys.ops|, sys.made, op))
    && (forall k | 0 <= k < |sys.ops| :: StepTimed(sys.ops, k, sys.made))
  }

  ghost predicate ProcessTimed(ops: seq<Op>, made: set<string>, p: Process) {
    forall key | Told(p, key) :: key.token in made && Lasts(ops, |ops|, key.token, p.config.leaseDuration)
  }

  ghost predicate BeatTimed(ops: seq<Op>, i: nat, made: set<string>, op: Op)
    requires i <= |ops|
  {
    op.HeartbeatLease? ==> op.token in made && Lasts(ops, i, op.token, op.duration)
  }

  /** A heartbeat executed after its attempt was granted to a process of the fleet. */
  ghost predicate StepTimed(ops: seq<Op>, k: nat, made: set<string>)
    requires k < |ops|
  {
    ops[k].HeartbeatLease? && ops[k].token in made && ops[k].token in Durations(ops, k) ==> BeatTimed(ops, k, made, ops[k])
  }

  predicate Lasts(ops: seq<Op>, i: nat, token: string, duration: int)
    requires i <= |ops|
  {
    token in Durations(ops, i) && Durations(ops, i)[token] == duration
  }

  lemma {:induction false} SameTokens(ops: seq<Op>, i: nat)
    requires i <= |ops|
    ensures Durations(ops, i).Keys == Issued(ops, i).Keys
    decreases i
  {
    if i > 0 {
      SameTokens(ops, i - 1);
    }
  }

  lemma {:induction false} DurationsPrefix(ops: seq<Op>, op: Op, i: nat)
    requires i <= |ops|
    ensures Durations(ops + [op], i) == Durations(ops, i)
    decreases i
  {
    if i > 0 {
      DurationsPrefix(ops, op, i - 1);
    }
  }

  /** A token keeps its duration, because no later reservation brings it again. */
  lemma {:induction false} LastsOn(ops: seq<Op>, i: nat, k: nat, token: string, duration: int)
    requires i <= k <= |ops| && ValidRun(ops) && Lasts(ops, i, token, duration)
    ensures Lasts(ops, k, token, duration)
    decreases k
  {
    if i < k {
      hide *;
      LastsOn(ops, i, k - 1, token, duration);
      SameTokens(ops, k - 1);
      NoSecondMaking(ops, k - 1, token);
      LastsStep(ops, k - 1, token, duration);
    }
  }

  lemma NoSecondMaking(ops: seq<Op>, k: nat, token: string)
    requires k < |ops| && ValidRun(ops) && token in Issued(ops, k)
    ensures ops[k].ReserveJobs? ==> token !in ops[k].tokens
  {
    hide Issued;
    assert ValidStep(Issued(ops, k), ops[k]);
  }

  lemma LastsStep(ops: seq<Op>, k: nat, token: string, duration: int)
    requires k < |ops| && Lasts(ops, k, token, duration) && (ops[k].ReserveJobs? ==> token !in ops[k].tokens)
    ensures Lasts(ops, k + 1, token, duration) && token in Durations(ops, k)
  {
  }

  lemma LastsNext(ops: seq<Op>, op: Op, i: nat, token: string, duration: int)
    requires i <= |ops| && ValidRun(ops + [op]) && Lasts(ops, i, token, duration)
    ensures Lasts(ops + [op], i, token, duration) && Lasts(ops + [op], |ops| + 1, token, duration)
  {
    hide ValidRun, Durations;
    DurationsPrefix(ops, op, i);
    LastsOn(ops + [op], i, |ops| + 1, token, duration);
  }

  lemma MadeLasts(ops: seq<Op>, op: Op, token: string)
    requires op.ReserveJobs? && token in op.tokens
    ensures Lasts(ops + [op], |ops| + 1, token, op.duration)
  {
    DurationsPrefix(ops, op, |ops|);
  }

  /** An executed heartbeat that passes the fence moves the deadline to one configured lease duration from its time. */
  lemma BeatExtends(p: Process, op: Op, s: State)
    requires Speaks(p, op) && op.HeartbeatLease? && HasLease(s, AttemptOf(p, Grant(op.job, op.token)))
    ensures var t := Apply(s, op).0;
            && HasLease(t, AttemptOf(p, Grant(op.job, op.token)))
            && op.job in t.leased && t.leased[op.job] == op.now + p.config.leaseDuration
            && OnlyJob(s, t, op.job)
  {
    hide PackLease;
  }

  /** The same for the heartbeat a process gets an answer for. */
  lemma AnsweredBeatExtends(sys: System, i: nat, key: AttemptKey, now: int)
    requires i < |sys.processes| && Enabled(sys, HeartbeatAnswered(i, key, now))
    requires HoldsLease(sys.ops, sys.processes[i], key)
    ensures var p, t := sys.processes[i], Store(Perform(sys, HeartbeatAnswered(i, key, now)));
            HasLease(t, AttemptOf(p, key)) && t.leased[key.job] == now + p.config.leaseDuration
  {
    var p, a := sys.processes[i], HeartbeatAnswered(i, key, now);
    assert Grant(key.job, key.token) == key;
    assert Speaks(p, Heartbeat(p.config, key, now));
    BeatExtends(p, Heartbeat(p.config, key, now), Store(sys));
    PerformIs(sys, a);
    LastStep(sys.ops, Heartbeat(p.config, key, now));
    hide After, Apply, HasLease, Perform, Speaks, Enabled;
  }

  /** A reservation leases every job it reports for one configured lease duration. */
  lemma GrantLasts(sys: System, i: nat, now: int, record: string, tokens: seq<string>, g: Grant)
    requires Sound(sys) && i < |sys.processes| && Enabled(sys, StoreReserves(i, now, record, tokens))
    requires var q := Perform(sys, StoreReserves(i, now, record, tokens)).processes[i];
             q.awaiting != None && g in q.awaiting.value
    ensures var p, t := sys.processes[i], Store(Perform(sys, StoreReserves(i, now, record, tokens)));
            HasLease(t, AttemptOf(p, g)) && t.leased[g.job] == now + p.config.leaseDuration
  {
    hide *;
    var p, a := sys.processes[i], StoreReserves(i, now, record, tokens);
    var op := Reservation(p.config, Capacity(p.local, p.config), now, record, tokens);
    NextHistory(sys, a);
    ReservationIs(sys, i, now, record, tokens);
    AwaitedIsGranted(sys, i, now, record, tokens, g);
    GrantHasLease(sys.ops + [op], |sys.ops|, AttemptOf(p, g));
    StoreOf(Perform(sys, a), p, g);
  }

  lemma ReservationIs(sys: System, i: nat, now: int, record: string, tokens: seq<string>)
    requires i < |sys.processes|
    ensures var p := sys.processes[i];
            var op := Reservation(p.config, Capacity(p.local, p.config), now, record, tokens);
            && Command(sys, StoreReserves(i, now, record, tokens)) == Some(op)
            && op.ReserveJobs? && op.worker == p.config.id && op.now == now && op.duration == p.config.leaseDuration
            && (sys.ops + [op])[|sys.ops|] == op && |sys.ops + [op]| == |sys.ops| + 1
  {
    hide Capacity;
  }

  lemma AwaitedIsGranted(sys: System, i: nat, now: int, record: string, tokens: seq<string>, g: Grant)
    requires i < |sys.processes|
    requires var q := Perform(sys, StoreReserves(i, now, record, tokens)).processes[i];
             q.awaiting != None && g in q.awaiting.value
    ensures var p := sys.processes[i];
            var op := Reservation(p.config, Capacity(p.local, p.config), now, record, tokens);
            GrantsAttempt(sys.ops + [op], |sys.ops|, AttemptOf(p, g))
  {
    var p := sys.processes[i];
    LastStep(sys.ops, Reservation(p.config, Capacity(p.local, p.config), now, record, tokens));
    hide Capacity, Apply, After, ReplyAt, Losses, Utters, Makes;
    assert Grant(g.job, g.token) == g;
  }

  lemma ProcessStaysTimed(ops: seq<Op>, command: Option<Op>, made: set<string>, more: set<string>, p: Process)
    requires ProcessTimed(ops, made, p)
    requires command != None ==> ValidRun(ops + [command.value])
    ensures ProcessTimed(if command == None then ops else ops + [command.value], made + more, p)
  {
    hide ValidRun, Lasts, Told;
    if command != None {
      forall key | Told(p, key) ensures Lasts(ops + [command.value], |ops| + 1, key.token, p.config.leaseDuration) {
        LastsNext(ops, command.value, |ops|, key.token, p.config.leaseDuration);
      }
    }
  }

  lemma ActorTimed(sys: System, a: Action)
    requires Sound(sys) && !a.Environment? && a.i < |sys.processes| && Enabled(sys, a)
    requires ProcessTimed(sys.ops, sys.made, sys.processes[a.i])
    ensures var next := Perform(sys, a); ProcessTimed(next.ops, next.made, next.processes[a.i])
  {
    hide *;
    var p := sys.processes[a.i];
    PerformIs(sys, a);
    PerformMakes(sys, a);
    EnabledHere(sys, a);
    ActorSoundParts(sys, a);
    ContinueTimed(sys, p, a);
  }

  lemma ActorSoundParts(sys: System, a: Action)
    requires Sound(sys) && !a.Environment? && a.i < |sys.processes| && Enabled(sys, a)
    ensures ProcessSound(sys.ops, sys.processes[a.i])
    ensures ValidRun(Execute(sys, ProcessCommand(sys.processes[a.i], a)))
  {
    hide ProcessEnabled, ProcessSound, ValidRun, ProcessCommand, Execute, ValidStep, Knows;
    CommandValid(sys, sys.processes[a.i], a);
    RunContinues(sys, ProcessCommand(sys.processes[a.i], a));
  }

  lemma PerformMakes(sys: System, a: Action)
    ensures Perform(sys, a).made == sys.made + Makes(sys, a) && Perform(sys, a).sent == sys.sent + Utters(sys, a)
    ensures Perform(sys, a).ops == Execute(sys, Command(sys, a))
  {
    hide Command, Execute, Continue, ReplyTo, Losses, Makes, Utters, Starts;
  }

  lemma ContinueTimed(sys: System, p: Process, a: Action)
    requires ProcessEnabled(sys, p, a) && ProcessSound(sys.ops, p) && ProcessTimed(sys.ops, sys.made, p)
    requires ValidRun(Execute(sys, ProcessCommand(p, a)))
    ensures ProcessTimed(Execute(sys, ProcessCommand(p, a)), sys.made + Makes(sys, a),
                         Continue(p, a, ReplyTo(sys, ProcessCommand(p, a))))
  {
    var command := ProcessCommand(p, a);
    var q := Continue(p, a, ReplyTo(sys, command));
    ProcessStaysTimed(sys.ops, command, sys.made, Makes(sys, a), p);
    assert Execute(sys, command) == if command == None then sys.ops else sys.ops + [command.value];
    hide ValidRun, Lasts, ProcessSound, ValidStep, Apply, After, Capacity, Continue, ReplyTo;
    if a.StoreReserves? {
      ReservedTimed(sys, p, a);
    } else {
      forall key | Told(q, key) ensures Told(p, key) && q.config == p.config {
        ToldBefore(sys, p, a, ReplyTo(sys, command), key);
      }
    }
  }

  lemma ReservedTimed(sys: System, p: Process, a: Action)
    requires a.StoreReserves? && ProcessEnabled(sys, p, a) && ProcessSound(sys.ops, p)
    requires ValidRun(Execute(sys, ProcessCommand(p, a)))
    requires ProcessTimed(Execute(sys, ProcessCommand(p, a)), sys.made + Makes(sys, a), p)
    ensures ProcessTimed(Execute(sys, ProcessCommand(p, a)), sys.made + Makes(sys, a),
                         Continue(p, a, ReplyTo(sys, ProcessCommand(p, a))))
  {
    var op := Reservation(p.config, Capacity(p.local, p.config), a.now, a.record, a.tokens);
    hide ValidRun, Lasts, ProcessSound, ValidStep, Apply, After, Capacity;
    ReservationContinues(sys, p, a.now, a.record, a.tokens);
    var q := Continue(p, a, ReplyTo(sys, ProcessCommand(p, a)));
    forall key | Told(q, key) ensures key.token in sys.made + Makes(sys, a)
      ensures Lasts(sys.ops + [op], |sys.ops| + 1, key.token, p.config.leaseDuration)
    {
      if key in p.delivered {
        assert Told(p, key);
      } else {
        MadeLasts(sys.ops, op, key.token);
      }
    }
  }

  lemma ToldBefore(sys: System, p: Process, a: Action, reply: Reply, key: AttemptKey)
    requires ProcessEnabled(sys, p, a) && !a.StoreReserves? && Told(Continue(p, a, reply), key)
    ensures Told(p, key) && Continue(p, a, reply).config == p.config
  {
    hide Replied, Resolved, Beaten, Joined, Slept, ReserveFailed, CompletionOf, Speaks, Capacity, ValidStep;
  }

  /** Every heartbeat a process utters asks for the duration its attempt was granted with. */
  lemma UttersTimed(sys: System, a: Action, op: Op)
    requires Sound(sys) && Enabled(sys, a) && Timed(sys) && op in Utters(sys, a)
    ensures BeatTimed(sys.ops, |sys.ops|, sys.made, op)
  {
    if op.HeartbeatLease? {
      assert !a.Environment?;
      assert ProcessTimed(sys.ops, sys.made, sys.processes[a.i]);
      EnabledHere(sys, a);
      BooksActive(sys, a.i);
      UtteredBeat(sys, a, op);
      hide Sound, Utters, Enabled, Timed, Lasts, Told;
    }
  }

  lemma UtteredBeat(sys: System, a: Action, op: Op)
    requires !a.Environment? && a.i < |sys.processes| && ProcessEnabled(sys, sys.processes[a.i], a)
    requires sys.processes[a.i].local.active.Keys <= sys.processes[a.i].delivered
    requires op in Utters(sys, a) && op.HeartbeatLease?
    ensures Told(sys.processes[a.i], Grant(op.job, op.token)) && op.duration == sys.processes[a.i].config.leaseDuration
  {
    hide ValidStep, Capacity;
    match a
    case CompletionAnswered(_, _, _) =>
    case HeartbeatAnswered(_, key, _) => assert Grant(key.job, key.token) == key;
    case Unanswered(_, _) =>
  }

  lemma BeatStaysTimed(ops: seq<Op>, command: Option<Op>, made: set<string>, more: set<string>, op: Op)
    requires BeatTimed(ops, |ops|, made, op)
    requires command != None ==> ValidRun(ops + [command.value])
    ensures var next := if command == None then ops else ops + [command.value]; BeatTimed(next, |next|, made + more, op)
  {
    hide ValidRun, Lasts;
    if command != None && op.HeartbeatLease? {
      LastsNext(ops, command.value, |ops|, op.token, op.duration);
    }
  }

  lemma StepStaysTimed(ops: seq<Op>, op: Op, k: nat, made: set<string>)
    requires k < |ops| && StepTimed(ops, k, made)
    ensures StepTimed(ops + [op], k, made)
  {
    hide Durations;
    DurationsPrefix(ops, op, k);
  }

  /** Steps executed before a token was made cannot have been about it. */
  lemma EarlierSteps(ops: seq<Op>, k: nat, made: set<string>, more: set<string>)
    requires k < |ops| && StepTimed(ops, k, made)
    requires forall token | token in more :: token !in Issued(ops, |ops|)
    ensures StepTimed(ops, k, made + more)
  {
    hide Durations, Issued;
    SameTokens(ops, k);
    if ops[k].HeartbeatLease? && ops[k].token in Durations(ops, k) {
      IssuedGrows(ops, k, |ops|, ops[k].token);
    }
  }

  lemma MakesFresh(sys: System, a: Action)
    requires Enabled(sys, a)
    ensures forall token | token in Makes(sys, a) :: token !in Issued(sys.ops, |sys.ops|)
  {
    hide Issued, Capacity;
  }

  /** The heartbeat that an action has the store execute. */
  lemma NewStepTimed(sys: System, a: Action, op: Op)
    requires Sound(sys) && Enabled(sys, a) && Timed(sys) && Command(sys, a) == Some(op)
    ensures StepTimed(sys.ops + [op], |sys.ops|, sys.made + Makes(sys, a))
  {
    if op.HeartbeatLease? {
      DurationsPrefix(sys.ops, op, |sys.ops|);
      CommandVoiced(sys, a, op);
      hide Sound, Enabled, Durations, Command;
      if op in Utters(sys, a) {
        UttersTimed(sys, a, op);
      }
      hide Utters;
    }
  }

  lemma CommandVoiced(sys: System, a: Action, op: Op)
    requires Enabled(sys, a) && Command(sys, a) == Some(op) && op.HeartbeatLease?
    ensures Makes(sys, a) == {}
    ensures op in Utters(sys, a) || (op.token in sys.made ==> op in sys.sent)
  {
    hide ValidStep, Capacity, Speaks;
  }

  lemma NextTimed(sys: System, a: Action)
    requires Sound(sys) && Enabled(sys, a) && Timed(sys)
    ensures Timed(Perform(sys, a))
  {
    hide *;
    var next := Perform(sys, a);
    forall i | 0 <= i < |next.processes| ensures ProcessTimed(next.ops, next.made, next.processes[i]) {
      NextProcess(sys, a, i);
    }
    forall op | op in next.sent ensures BeatTimed(next.ops, |next.ops|, next.made, op) {
      NextSent(sys, a, op);
    }
    forall k | 0 <= k < |next.ops| ensures StepTimed(next.ops, k, next.made) {
      NextStep(sys, a, k);
    }
    TimedParts(next);
  }

  lemma TimedParts(sys: System)
    ensures Timed(sys) <==>
              && (forall i | 0 <= i < |sys.processes| :: ProcessTimed(sys.ops, sys.made, sys.processes[i]))
              && (forall op | op in sys.sent :: BeatTimed(sys.ops, |sys.ops|, sys.made, op))
              && (forall k | 0 <= k < |sys.ops| :: StepTimed(sys.ops, k, sys.made))
  {
    hide ProcessTimed, BeatTimed, StepTimed;
  }

  /** What an action leaves of the history. */
  lemma NextHistory(sys: System, a: Action)
    requires Sound(sys) && Enabled(sys, a)
    ensures var next, command := Perform(sys, a), Command(sys, a);
            && next.ops == (if command == None then sys.ops else sys.ops + [command.value])
            && next.made == sys.made + Makes(sys, a) && next.sent == sys.sent + Utters(sys, a)
            && ValidRun(next.ops)
  {
    hide *;
    StepSound(sys, a);
    SoundRuns(Perform(sys, a));
    PerformMakes(sys, a);
    ExecuteIs(sys, Command(sys, a));
  }

  lemma NextProcess(sys: System, a: Action, i: nat)
    requires Sound(sys) && Enabled(sys, a) && Timed(sys) && i < |Perform(sys, a).processes|
    ensures var next := Perform(sys, a); ProcessTimed(next.ops, next.made, next.processes[i])
  {
    hide *;
    NextHistory(sys, a);
    TimedParts(sys);
    if !a.Environment? && a.i == i {
      ActorTimed(sys, a);
    } else {
      OtherProcess(sys, a, i);
      ProcessStaysTimed(sys.ops, Command(sys, a), sys.made, Makes(sys, a), sys.processes[i]);
    }
  }

  lemma NextSent(sys: System, a: Action, op: Op)
    requires Sound(sys) && Enabled(sys, a) && Timed(sys) && op in Perform(sys, a).sent
    ensures var next := Perform(sys, a); BeatTimed(next.ops, |next.ops|, next.made, op)
  {
    hide *;
    NextHistory(sys, a);
    TimedParts(sys);
    if op !in sys.sent {
      UttersTimed(sys, a, op);
    }
    BeatStaysTimed(sys.ops, Command(sys, a), sys.made, Makes(sys, a), op);
  }

  lemma NextStep(sys: System, a: Action, k: nat)
    requires Sound(sys) && Enabled(sys, a) && Timed(sys) && k < |Perform(sys, a).ops|
    ensures var next := Perform(sys, a); StepTimed(next.ops, k, next.made)
  {
    hide *;
    var command := Command(sys, a);
    NextHistory(sys, a);
    TimedParts(sys);
    if k < |sys.ops| {
      MakesFresh(sys, a);
      EarlierSteps(sys.ops, k, sys.made, Makes(sys, a));
      if command != None {
        StepStaysTimed(sys.ops, command.value, k, Perform(sys, a).made);
      }
    } else {
      NewStepTimed(sys, a, command.value);
    }
  }

  lemma ExecuteIs(sys: System, command: Option<Op>)
    ensures Execute(sys, command) == if command == None then sys.ops else sys.ops + [command.value]
  {
  }

  lemma OtherProcess(sys: System, a: Action, i: nat)
    requires i < |Perform(sys, a).processes| && (a.Environment? || a.i != i)
    ensures i < |sys.processes| && Perform(sys, a).processes[i] == sys.processes[i]
  {
    hide Command, Execute, ReplyTo, Losses, Makes, Utters, Starts, Continue;
  }

  lemma {:induction false} AlwaysTimed(configs: seq<Config>, actions: seq<Action>, n: nat)
    requires n <= |actions| && Possible(configs, actions)
    ensures Timed(Reach(configs, actions, n))
    decreases n
  {
    hide Sound, Perform, Enabled, Validated, Timed;
    if n == 0 {
      TimedAtFirst(configs, actions);
    } else {
      AlwaysTimed(configs, actions, n - 1);
      AlwaysSound(configs, actions, n - 1);
      NextTimed(Reach(configs, actions, n - 1), actions[n - 1]);
    }
  }

  lemma TimedAtFirst(configs: seq<Config>, actions: seq<Action>)
    ensures Timed(Reach(configs, actions, 0))
  {
  }

  /** Since its grant at step `g` nobody completed or forced the attempt, and every reap came less than `duration` after
      its latest sign of life: its grant, or a heartbeat of its process. */
  ghost predicate Attended(ops: seq<Op>, g: nat, a: Attempt, duration: int)
    requires g < |ops| && ops[g].ReserveJobs?
  {
    forall k | g < k < |ops| ::
      && (ops[k].ReapLeases? ==> ops[k].now < LastBeat(ops, g, k, a) + duration)
      && !CompletionBy(ops[k], a.job, a.worker, a.token)
      && !Forces(ops[k], a.job)
  }

  lemma GrantedDuration(ops: seq<Op>, g: nat, k: nat, a: Attempt, duration: int)
    requires g < k <= |ops| && ValidRun(ops) && GrantsAttempt(ops, g, a) && Lasts(ops, |ops|, a.token, duration)
    ensures ops[g].duration == duration && Lasts(ops, k, a.token, duration)
  {
    hide *;
    GrantedToken(ops, g, a);
    TokenMade(ops, g, a.token);
    LastsOn(ops, g + 1, |ops|, a.token, ops[g].duration);
    LastsOn(ops, g + 1, k, a.token, ops[g].duration);
    OneDuration(ops, a.token, ops[g].duration, duration);
  }

  lemma GrantedToken(ops: seq<Op>, g: nat, a: Attempt)
    requires g < |ops| && ValidRun(ops) && GrantsAttempt(ops, g, a)
    ensures ops[g].ReserveJobs? && a.token in ops[g].tokens
  {
    RunCoherent(ops, g);
    StepHasTokens(ops, g);
    TokensInOrder(After(ops, g), ops[g]);
    hide Coherent, Apply, After, ValidRun;
  }

  lemma TokenMade(ops: seq<Op>, g: nat, token: string)
    requires g < |ops| && ops[g].ReserveJobs? && token in ops[g].tokens
    ensures Lasts(ops, g + 1, token, ops[g].duration)
  {
  }

  lemma OneDuration(ops: seq<Op>, token: string, a: int, b: int)
    requires Lasts(ops, |ops|, token, a) && Lasts(ops, |ops|, token, b)
    ensures a == b
  {
  }

  /** A lease that its process keeps alive is not stolen: an attempt that was delivered to a process and that nobody
      completes or forces holds its lease through every reap that comes within one configured lease duration of its latest
      sign of life, and until exactly that long after it. */
  lemma AttendedLeaseKept(configs: seq<Config>, actions: seq<Action>, n: nat, i: nat, key: AttemptKey, g: nat)
    requires n <= |actions| && Possible(configs, actions) && i < |Reach(configs, actions, n).processes|
    requires key in Reach(configs, actions, n).processes[i].delivered
    requires var sys := Reach(configs, actions, n);
             && g < |sys.ops| && GrantsAttempt(sys.ops, g, AttemptOf(sys.processes[i], key))
             && Attended(sys.ops, g, AttemptOf(sys.processes[i], key), sys.processes[i].config.leaseDuration)
    ensures var sys := Reach(configs, actions, n);
            var p := sys.processes[i];
            && HoldsLease(sys.ops, p, key) && key in p.local.active && p.local.active[key]
            && Store(sys).leased[key.job] == LastBeat(sys.ops, g, |sys.ops|, AttemptOf(p, key)) + p.config.leaseDuration
  {
    hide *;
    var sys := Reach(configs, actions, n);
    var p := sys.processes[i];
    AlwaysSound(configs, actions, n);
    AlwaysTimed(configs, actions, n);
    SoundRuns(sys);
    DeliveredTimed(sys, i, key);
    StoreOf(sys, p, key);
    AttendedIsKeptAlive(sys, g, AttemptOf(p, key), p.config.leaseDuration);
    LiveLeaseNotStolen(sys.ops, g, |sys.ops|, AttemptOf(p, key));
    LiveAttemptsAreKept(configs, actions, n, i, key);
  }

  /** A process that beats as often as it is configured to does that: whenever every reap comes within one heartbeat
      interval of the attempt's latest sign of life, the lease is kept. */
  lemma OnScheduleKept(configs: seq<Config>, actions: seq<Action>, n: nat, i: nat, key: AttemptKey, g: nat)
    requires n <= |actions| && Possible(configs, actions) && i < |Reach(configs, actions, n).processes|
    requires key in Reach(configs, actions, n).processes[i].delivered
    requires var sys := Reach(configs, actions, n);
             var p := sys.processes[i];
             && g < |sys.ops| && GrantsAttempt(sys.ops, g, AttemptOf(p, key))
             && Attended(sys.ops, g, AttemptOf(p, key), p.config.heartbeatInterval + 1)
    ensures HoldsLease(Reach(configs, actions, n).ops, Reach(configs, actions, n).processes[i], key)
  {
    hide *;
    var sys := Reach(configs, actions, n);
    var p := sys.processes[i];
    SoundAt(configs, actions, n, i);
    BeatsInTime(sys.ops, p);
    AttendedLonger(sys.ops, g, AttemptOf(p, key), p.config.heartbeatInterval + 1, p.config.leaseDuration);
    AttendedLeaseKept(configs, actions, n, i, key, g);
  }

  lemma BeatsInTime(ops: seq<Op>, p: Process)
    requires ProcessSound(ops, p)
    ensures p.config.heartbeatInterval + 1 <= p.config.leaseDuration
  {
    hide Owned, HoldsLease, Tracks, Paced, Fits;
  }

  lemma AttendedLonger(ops: seq<Op>, g: nat, a: Attempt, shorter: int, longer: int)
    requires g < |ops| && GrantsAttempt(ops, g, a) && Attended(ops, g, a, shorter) && shorter <= longer
    ensures Attended(ops, g, a, longer)
  {
    hide LastBeat, ReplyAt;
  }

  lemma StoreOf(sys: System, p: Process, key: AttemptKey)
    ensures HoldsLease(sys.ops, p, key) <==> HasLease(After(sys.ops, |sys.ops|), AttemptOf(p, key))
    ensures Store(sys) == After(sys.ops, |sys.ops|) && AttemptOf(p, key).job == key.job
    ensures AttemptOf(p, key).token == key.token
  {
    hide HasLease, After;
  }

  lemma AttendedIsKeptAlive(sys: System, g: nat, a: Attempt, duration: int)
    requires ValidRun(sys.ops) && Timed(sys) && a.token in sys.made && Lasts(sys.ops, |sys.ops|, a.token, duration)
    requires g < |sys.ops| && GrantsAttempt(sys.ops, g, a) && Attended(sys.ops, g, a, duration)
    ensures KeptAlive(sys.ops, g, |sys.ops|, a) && sys.ops[g].duration == duration
  {
    hide ValidRun, Lasts, GrantsAttempt, LastBeat, ProcessTimed, BeatTimed;
    GrantedDuration(sys.ops, g, |sys.ops|, a, duration);
    forall k | g < k < |sys.ops| && IsBeat(sys.ops[k], a) ensures sys.ops[k].duration == duration {
      GrantedDuration(sys.ops, g, k, a, duration);
      BeatLasts(sys.ops, k, sys.made, a, duration);
    }
  }

  lemma BeatLasts(ops: seq<Op>, k: nat, made: set<string>, a: Attempt, duration: int)
    requires k < |ops| && StepTimed(ops, k, made) && IsBeat(ops[k], a) && a.token in made && Lasts(ops, k, a.token, duration)
    ensures ops[k].duration == duration
  {
  }

  lemma DeliveredTimed(sys: System, i: nat, key: AttemptKey)
    requires Timed(sys) && i < |sys.processes| && key in sys.processes[i].delivered
    ensures key.token in sys.made && Lasts(sys.ops, |sys.ops|, key.token, sys.processes[i].config.leaseDuration)
  {
    assert ProcessTimed(sys.ops, sys.made, sys.processes[i]);
    assert Told(sys.processes[i], key);
    hide Lasts, BeatTimed, StepTimed;
  }
}
