/** Who answers for each lease of the store: a process of the fleet, or nobody. */
module LeaseAccounts {
  import opened Wrappers
  import opened Queue
  import opened Invariants
  import opened Steps
  import opened Runs
  import opened LiveLeases
  import opened WorkerState
  import opened Fleet
  import opened FleetSafety

  /** The process answers for the attempt. */
  predicate Answers(p: Process, a: Attempt) {
    a.worker == p.config.id && Grant(a.job, a.token) in Carried(p)
  }

  ghost predicate Accounted(sys: System, a: Attempt) {
    a in sys.lost || exists i :: 0 <= i < |sys.processes| && Answers(sys.processes[i], a)
  }

  /** A reply a process waits for brings tokens it was never told of. */
  predicate NewsOnly(p: Process) {
    p.awaiting != None ==> forall g, key | g in p.awaiting.value && key in p.delivered :: g.token != key.token
  }

  /** Lost grants have tokens that were sent, and that no process knows any more. */
  ghost predicate Forgotten(sys: System, x: Attempt) {
    x.token in Sent(sys) && forall i | 0 <= i < |sys.processes| :: !Knows(sys.processes[i], x.token)
  }

  /** Every lease has someone who answers for it, or was lost; a lost one is forgotten. */
  ghost predicate Books(sys: System) {
    && (forall x | HasLease(Store(sys), x) :: Accounted(sys, x))
    && (forall x | x in sys.lost :: Forgotten(sys, x))
    && (forall i | 0 <= i < |sys.processes| :: NewsOnly(sys.processes[i]))
  }

  lemma AnsweredIsKnown(p: Process, a: Attempt)
    requires p.local.active.Keys <= p.delivered && Answers(p, a)
    ensures Knows(p, a.token)
  {
    assert Grant(a.job, a.token).token == a.token;
  }

  /** The store after the action. */
  function NextStore(sys: System, command: Option<Op>): State {
    After(Execute(sys, command), |Execute(sys, command)|)
  }

  /** What an acting process stops answering for has ended, or is lost. */
  lemma ActorAnswers(sys: System, p: Process, a: Action, x: Attempt)
    requires ProcessEnabled(sys, p, a) && Answers(p, x)
    ensures var command := ProcessCommand(p, a);
            || Answers(Continue(p, a, ReplyTo(sys, command)), x)
            || x in ProcessLosses(p, a)
            || !HasLease(NextStore(sys, command), x)
  {
    hide HasLease, After, Issued, Apply, ValidStep, Capacity, Reservation, CompletionOf;
    match a
    case ReplyArrives(_, next, now) =>
      RepliedActive(p.local, p.config, p.awaiting.value, next, now);
      hide Replied;
    case CompletionAnswered(_, key, now) =>
      CompletionSettles(sys.ops, p, key, p.local.pending[key], now);
      assert key == Grant(x.job, x.token) ==> AttemptOf(p, key) == x;
    case ReplyLost(_, _) => assert AttemptOf(p, Grant(x.job, x.token)) == x;
    case Restart(_, _) => assert AttemptOf(p, Grant(x.job, x.token)) == x;
    case _ =>
  }

  /** A lease after an action was there before, or a reservation has just reported it under a fresh token. */
  lemma LeaseBefore(sys: System, command: Option<Op>, x: Attempt)
    requires ValidRun(Execute(sys, command)) && HasLease(NextStore(sys, command), x)
    ensures || HasLease(Store(sys), x)
            || (&& command != None && command.value.ReserveJobs? && x.worker == command.value.worker
                && ReplyTo(sys, command).Reserved? && Grant(x.job, x.token) in ReplyTo(sys, command).grants)
  {
    hide Holds, ValidRun, Apply, After, Issued;
    if command != None {
      PrefixKept(sys.ops, command.value, |sys.ops|);
      LastStep(sys.ops, command.value);
      if !HasLease(Store(sys), x) {
        BeginsByGrant(Execute(sys, command), |sys.ops|, x.job, x.worker, x.token);
      }
    }
  }

  lemma PerformIs(sys: System, a: Action)
    requires !a.Environment? && a.i < |sys.processes| && Enabled(sys, a)
    ensures var p, next := sys.processes[a.i], Perform(sys, a);
            && Command(sys, a) == ProcessCommand(p, a)
            && next.ops == Execute(sys, ProcessCommand(p, a))
            && next.lost == sys.lost + ProcessLosses(p, a)
            && next.processes == sys.processes[a.i := Continue(p, a, ReplyTo(sys, ProcessCommand(p, a)))]
    ensures Store(Perform(sys, a)) == NextStore(sys, ProcessCommand(sys.processes[a.i], a))
  {
    hide ProcessCommand, ProcessEnabled, ProcessLosses, Continue, ReplyTo, Execute, After;
  }

  lemma ActorKeeps(sys: System, a: Action, x: Attempt)
    requires !a.Environment? && a.i < |sys.processes| && Enabled(sys, a)
    requires Accounted(sys, x) && HasLease(Store(Perform(sys, a)), x)
    ensures Accounted(Perform(sys, a), x)
  {
    hide *;
    var p := sys.processes[a.i];
    PerformIs(sys, a);
    EnabledHere(sys, a);
    if Answers(p, x) {
      ActorAnswers(sys, p, a, x);
    }
    StaysAccounted(sys, Perform(sys, a), a.i, Continue(p, a, ReplyTo(sys, ProcessCommand(p, a))), x);
  }

  lemma EnabledHere(sys: System, a: Action)
    requires !a.Environment? && a.i < |sys.processes| && Enabled(sys, a)
    ensures ProcessEnabled(sys, sys.processes[a.i], a)
  {
    hide ProcessEnabled;
  }

  lemma StaysAccounted(sys: System, next: System, i: nat, q: Process, x: Attempt)
    requires Accounted(sys, x) && i < |sys.processes| && next.processes == sys.processes[i := q] && sys.lost <= next.lost
    requires Answers(sys.processes[i], x) ==> Answers(q, x) || x in next.lost
    ensures Accounted(next, x)
  {
    hide Answers;
    if x !in next.lost {
      var k :| 0 <= k < |sys.processes| && Answers(sys.processes[k], x);
      assert Answers(next.processes[k], x);
    }
  }

  lemma ActorAccounts(sys: System, a: Action, x: Attempt)
    requires !a.Environment? && a.i < |sys.processes| && Enabled(sys, a) && ValidRun(Perform(sys, a).ops)
    requires HasLease(Store(sys), x) ==> Accounted(sys, x)
    requires HasLease(Store(Perform(sys, a)), x)
    ensures Accounted(Perform(sys, a), x)
  {
    var p, next := sys.processes[a.i], Perform(sys, a);
    PerformIs(sys, a);
    hide HasLease, ValidRun, ProcessLosses, Execute, Perform, NextStore, Answers, Store, Continue, ReplyTo, ProcessCommand;
    if HasLease(Store(sys), x) {
      ActorKeeps(sys, a, x);
    } else {
      LeaseBefore(sys, ProcessCommand(p, a), x);
      NewlyAwaited(sys, p, a, x);
      assert Answers(next.processes[a.i], x);
    }
  }

  /** What the store has just granted to a process, the process waits for. */
  lemma NewlyAwaited(sys: System, p: Process, a: Action, x: Attempt)
    requires ProcessEnabled(sys, p, a)
    requires var command := ProcessCommand(p, a);
             && command != None && command.value.ReserveJobs? && x.worker == command.value.worker
             && ReplyTo(sys, command).Reserved? && Grant(x.job, x.token) in ReplyTo(sys, command).grants
    ensures Answers(Continue(p, a, ReplyTo(sys, ProcessCommand(p, a))), x)
  {
    hide Apply, After, Capacity, ValidStep;
    match a
    case StoreReserves(_, _, _, _) =>
    case CompletionAnswered(_, key, _) =>
    case HeartbeatAnswered(_, key, _) =>
  }

  lemma EnvironmentAccounts(sys: System, op: Op, x: Attempt)
    requires ValidRun(sys.ops + [op])
    requires HasLease(Store(sys), x) ==> Accounted(sys, x)
    requires HasLease(Store(Perform(sys, Environment(op))), x)
    ensures Accounted(Perform(sys, Environment(op)), x)
  {
    var next := Perform(sys, Environment(op));
    assert next.ops == Execute(sys, Some(op)) && next.processes == sys.processes;
    assert next.lost == sys.lost + Losses(sys, Environment(op));
    LeaseBefore(sys, Some(op), x);
    hide HasLease, ValidRun, After, Execute, Perform, Answers;
    if !HasLease(Store(sys), x) {
      assert Attempt(Grant(x.job, x.token).job, op.worker, Grant(x.job, x.token).token) == x;
      assert x in Losses(sys, Environment(op));
    }
  }

  lemma StaysUnknown(sys: System, a: Action, i: nat, token: string)
    requires Sound(sys) && Enabled(sys, a) && i < |sys.processes|
    requires token in Sent(sys) && !Knows(sys.processes[i], token)
    ensures |Perform(sys, a).processes| == |sys.processes| && !Knows(Perform(sys, a).processes[i], token)
  {
    hide Sound, ProcessEnabled, ValidStep, Knows, Continue, ReplyTo, Command, Execute, Sent, IsVoice, ProcessSound, ValidRun;
    if !a.Environment? && a.i == i {
      ActorSound(sys, a);
    }
  }

  lemma StaysForgotten(sys: System, a: Action, x: Attempt)
    requires Sound(sys) && Enabled(sys, a) && Forgotten(sys, x)
    ensures Forgotten(Perform(sys, a), x)
  {
    hide Sound, Enabled, Knows, Perform, Sent;
    SentGrows(sys, a, x.token);
    forall i | 0 <= i < |sys.processes| ensures !Knows(Perform(sys, a).processes[i], x.token) {
      StaysUnknown(sys, a, i, x.token);
    }
  }

  /** A grant that an action loses is forgotten from then on. */
  lemma LossesForgotten(sys: System, a: Action, x: Attempt)
    requires !a.Environment? && a.i < |sys.processes| && Sound(sys) && Enabled(sys, a)
    requires NewsOnly(sys.processes[a.i]) && x in ProcessLosses(sys.processes[a.i], a)
    ensures Forgotten(Perform(sys, a), x)
  {
    hide *;
    var p, next := sys.processes[a.i], Perform(sys, a);
    BooksActive(sys, a.i);
    LosesKnown(sys, p, a, x);
    KnownInSystem(sys, a.i, x.token);
    SentGrows(sys, a, x.token);
    PerformIs(sys, a);
    OthersForget(sys, next.processes, a.i, Continue(p, a, ReplyTo(sys, ProcessCommand(p, a))), x.token);
    ForgottenAll(next, x);
  }

  lemma BooksActive(sys: System, i: nat)
    requires Sound(sys) && i < |sys.processes|
    ensures sys.processes[i].local.active.Keys <= sys.processes[i].delivered
  {
    assert ProcessSound(sys.ops, sys.processes[i]);
    hide Sound, Owned, HoldsLease, Tracks, Paced, Fits, Validated;
  }

  /** A token belongs to one process: once that one has forgotten it, nobody knows it. */
  lemma OthersForget(sys: System, next: seq<Process>, i: nat, q: Process, token: string)
    requires Sound(sys) && i < |sys.processes| && next == sys.processes[i := q]
    requires Knows(sys.processes[i], token) && !Knows(q, token)
    ensures forall k | 0 <= k < |next| :: !Knows(next[k], token)
  {
    hide ProcessSound, Knows, ValidRun;
  }

  lemma LosesKnown(sys: System, p: Process, a: Action, x: Attempt)
    requires p.local.active.Keys <= p.delivered && NewsOnly(p) && x in ProcessLosses(p, a)
    ensures Knows(p, x.token)
    ensures forall reply :: !Knows(Continue(p, a, reply), x.token)
  {
    hide Apply;
    match a
    case ReplyLost(_, timedOut) =>
      var g :| g in p.awaiting.value && AttemptOf(p, g) == x;
      assert g.token == x.token;
    case Restart(_, _) =>
      var key :| key in Carried(p) && AttemptOf(p, key) == x;
      assert key.token == x.token;
  }

  lemma GrantedTokens(ops: seq<Op>, op: Op, g: Grant)
    requires ValidRun(ops + [op]) && op.ReserveJobs?
    requires Apply(After(ops, |ops|), op).1.Reserved? && g in Apply(After(ops, |ops|), op).1.grants
    ensures g.token in op.tokens && g.token !in Issued(ops, |ops|)
  {
    var next := ops + [op];
    PrefixKept(ops, op, |ops|);
    RunCoherent(next, |ops|);
    assert ValidStep(Issued(next, |ops|), next[|ops|]);
    hide ValidRun, After, Apply, Coherent, Issued;
    TokensInOrder(After(ops, |ops|), op);
  }

  lemma LossesFresh(sys: System, op: Op, x: Attempt)
    requires ValidRun(sys.ops + [op]) && x in Losses(sys, Environment(op))
    ensures op.ReserveJobs? && x.token in op.tokens && x.token !in Sent(sys)
  {
    hide ValidRun, Apply, After, Issued;
    var g :| g in Apply(Store(sys), op).1.grants && Attempt(g.job, op.worker, g.token) == x;
    GrantedTokens(sys.ops, op, g);
  }

  lemma EnvironmentForgotten(sys: System, op: Op, x: Attempt)
    requires Sound(sys) && Enabled(sys, Environment(op)) && x in Losses(sys, Environment(op))
    ensures Forgotten(Perform(sys, Environment(op)), x)
  {
    hide *;
    SoundRuns(sys);
    EnvironmentIs(sys, op);
    RunContinues(sys, Some(op));
    EnvironmentIs(sys, op);
    LossesFresh(sys, op, x);
    IssuedLast(sys.ops, op);
    forall i | 0 <= i < |sys.processes| ensures !Knows(sys.processes[i], x.token) {
      UnsentUnknown(sys, i, x.token);
    }
    ForgottenAll(Perform(sys, Environment(op)), x);
  }

  lemma EnvironmentIs(sys: System, op: Op)
    requires Enabled(sys, Environment(op))
    ensures ValidStep(Sent(sys), op) && Execute(sys, Some(op)) == sys.ops + [op]
    ensures Perform(sys, Environment(op)).processes == sys.processes
    ensures Sent(Perform(sys, Environment(op))) == Issued(sys.ops + [op], |sys.ops| + 1)
  {
    hide ValidStep, After, Issued, Losses, Apply;
  }

  lemma ForgottenAll(sys: System, x: Attempt)
    requires x.token in Sent(sys) && forall i | 0 <= i < |sys.processes| :: !Knows(sys.processes[i], x.token)
    ensures Forgotten(sys, x)
  {
  }

  lemma UnsentUnknown(sys: System, i: nat, token: string)
    requires Sound(sys) && i < |sys.processes|
    ensures token !in Sent(sys) ==> !Knows(sys.processes[i], token)
  {
    hide Sound, Knows, Sent;
    if Knows(sys.processes[i], token) {
      KnownInSystem(sys, i, token);
    }
  }

  /** A reservation reports tokens the process was never told of. */
  lemma ReservationNews(sys: System, p: Process, op: Op)
    requires ProcessSound(sys.ops, p) && ValidRun(sys.ops + [op]) && op.ReserveJobs?
    ensures NewsOnly(p.(awaiting := GrantsOf(Apply(Store(sys), op).1)))
  {
    hide ValidRun, ProcessSound, Apply, After, Issued;
    var reply := Apply(Store(sys), op).1;
    if reply.Reserved? {
      forall g, key | g in reply.grants && key in p.delivered ensures g.token != key.token {
        GrantedTokens(sys.ops, op, g);
        assert Knows(p, key.token);
        KnownIsSent(sys.ops, p, key.token);
      }
    }
  }

  lemma ProcessNews(sys: System, p: Process, a: Action)
    requires ProcessEnabled(sys, p, a) && ProcessSound(sys.ops, p) && NewsOnly(p)
    requires ValidRun(Execute(sys, ProcessCommand(p, a)))
    ensures NewsOnly(Continue(p, a, ReplyTo(sys, ProcessCommand(p, a))))
  {
    hide ValidRun, ProcessSound, Capacity, ValidStep, Apply, After, Replied, Joined, Resolved, Beaten, Slept, ReserveFailed,
         NewsOnly;
    match a
    case StoreReserves(_, _, _, _) => ReservationNews(sys, p, ProcessCommand(p, a).value);
    case _ => NoNews(Continue(p, a, ReplyTo(sys, ProcessCommand(p, a))));
  }

  lemma NoNews(p: Process)
    ensures p.awaiting == None ==> NewsOnly(p)
  {
  }

  lemma ActorNews(sys: System, a: Action)
    requires !a.Environment? && a.i < |sys.processes|
    requires Sound(sys) && Enabled(sys, a) && NewsOnly(sys.processes[a.i])
    ensures NewsOnly(Perform(sys, a).processes[a.i])
  {
    PerformIs(sys, a);
    ActorSound(sys, a);
    hide ValidRun, ProcessSound, NewsOnly, Continue, ReplyTo, Execute, ProcessEnabled, ProcessCommand, Perform;
    ProcessNews(sys, sys.processes[a.i], a);
  }

  lemma StepBooks(sys: System, a: Action)
    requires Sound(sys) && Enabled(sys, a) && Books(sys)
    ensures Books(Perform(sys, a))
  {
    hide *;
    var next := Perform(sys, a);
    StepSound(sys, a);
    SoundRuns(next);
    forall x | HasLease(Store(next), x) ensures Accounted(next, x) {
      StepAccounts(sys, a, x);
    }
    forall x | x in next.lost ensures Forgotten(next, x) {
      StepForgets(sys, a, x);
    }
    forall i | 0 <= i < |next.processes| ensures NewsOnly(next.processes[i]) {
      StepNews(sys, a, i);
    }
    BooksAre(next);
  }

  lemma BooksAre(sys: System)
    requires forall x | HasLease(Store(sys), x) :: Accounted(sys, x)
    requires forall x | x in sys.lost :: Forgotten(sys, x)
    requires forall i | 0 <= i < |sys.processes| :: NewsOnly(sys.processes[i])
    ensures Books(sys)
  {
    hide HasLease, Accounted, Forgotten, NewsOnly, Store;
  }

  lemma StepAccounts(sys: System, a: Action, x: Attempt)
    requires Enabled(sys, a) && ValidRun(Perform(sys, a).ops) && Books(sys)
    requires HasLease(Store(Perform(sys, a)), x)
    ensures Accounted(Perform(sys, a), x)
  {
    hide Forgotten, NewsOnly, HasLease, Accounted, Store, ValidRun, ValidStep, IsVoice, ProcessEnabled, ProcessCommand, Continue, ReplyTo, Losses;
    if a.Environment? {
      EnvironmentAccounts(sys, a.op, x);
    } else {
      ActorAccounts(sys, a, x);
    }
  }

  lemma StepForgets(sys: System, a: Action, x: Attempt)
    requires Sound(sys) && Enabled(sys, a) && Books(sys) && x in Perform(sys, a).lost
    ensures Forgotten(Perform(sys, a), x)
  {
    hide Sound, Accounted, Forgotten, NewsOnly, HasLease, Store, ValidStep, IsVoice, ProcessEnabled, ProcessCommand,
         Continue, ReplyTo, ProcessLosses, Execute;
    if x in sys.lost {
      StaysForgotten(sys, a, x);
    } else if a.Environment? {
      EnvironmentForgotten(sys, a.op, x);
    } else {
      LossesForgotten(sys, a, x);
    }
  }

  lemma StepNews(sys: System, a: Action, i: nat)
    requires i < |sys.processes| && Sound(sys) && Enabled(sys, a) && Books(sys)
    ensures NewsOnly(Perform(sys, a).processes[i])
  {
    hide HasLease, Accounted, Forgotten, Store, Sound, NewsOnly, Continue, ReplyTo, Execute, ProcessEnabled, Command, ValidStep, IsVoice;
    if !a.Environment? && a.i == i {
      ActorNews(sys, a);
    }
  }

  lemma {:induction false} AlwaysBooks(configs: seq<Config>, actions: seq<Action>, n: nat)
    requires n <= |actions| && Possible(configs, actions)
    ensures Books(Reach(configs, actions, n))
    decreases n
  {
    hide Sound, Perform, Enabled, Validated, Books;
    if n == 0 {
      BooksOpen(configs, actions);
    } else {
      AlwaysBooks(configs, actions, n - 1);
      AlwaysSound(configs, actions, n - 1);
      StepBooks(Reach(configs, actions, n - 1), actions[n - 1]);
    }
  }

  lemma BooksOpen(configs: seq<Config>, actions: seq<Action>)
    ensures Books(Reach(configs, actions, 0))
  {
  }

  /** Every lease has exactly one who answers for it: one process, or else it was lost. */
  lemma AnsweredOnce(configs: seq<Config>, actions: seq<Action>, n: nat, x: Attempt)
    requires n <= |actions| && Possible(configs, actions)
    ensures var sys := Reach(configs, actions, n);
            && (HasLease(Store(sys), x) ==> Accounted(sys, x))
            && (x in sys.lost ==> forall i | 0 <= i < |sys.processes| :: !Answers(sys.processes[i], x))
            && (forall i, k | 0 <= i < k < |sys.processes| :: !(Answers(sys.processes[i], x) && Answers(sys.processes[k], x)))
            && (forall i | 0 <= i < |sys.processes| ::
                  var p := sys.processes[i];
                  p.awaiting != None ==> forall g | g in p.awaiting.value :: g !in p.local.active)
  {
    AlwaysSound(configs, actions, n);
    AlwaysBooks(configs, actions, n);
    var sys := Reach(configs, actions, n);
    hide Reach, Possible, HasLease, ValidRun, Accounted, NewsOnly, Answers, Knows, Store;
    forall i | 0 <= i < |sys.processes| ensures Answers(sys.processes[i], x) ==> Knows(sys.processes[i], x.token) {
      if Answers(sys.processes[i], x) {
        AnsweredIsKnown(sys.processes[i], x);
      }
    }
  }
}
