/** What holds after every sequence of actions of the composed system. */
module FleetSafety {
  import opened Wrappers
  import opened Codec
  import opened Queue
  import opened Invariants
  import opened Steps
  import opened LeaseSteps
  import opened ReservationSpec
  import opened Runs
  import opened LiveLeases
  import opened WorkerState
  import opened Fleet
  import RetryBudgets

  /** A run does not depend on what comes later. */
  lemma {:induction false} PrefixKept(ops: seq<Op>, op: Op, i: nat)
    requires i <= |ops|
    ensures After(ops + [op], i) == After(ops, i) && Issued(ops + [op], i) == Issued(ops, i)
    decreases i
  {
    hide Apply;
    if i > 0 {
      PrefixKept(ops, op, i - 1);
    }
  }

  lemma {:induction false} TakenPrefix(ops: seq<Op>, k: nat, i: nat)
    requires i <= k <= |ops|
    ensures After(ops[..k], i) == After(ops, i) && Issued(ops[..k], i) == Issued(ops, i)
    decreases i
  {
    hide Apply;
    if i > 0 {
      TakenPrefix(ops, k, i - 1);
    }
  }

  lemma ValidRunGrows(ops: seq<Op>, op: Op)
    requires ValidRun(ops) && ValidStep(Issued(ops, |ops|), op)
    ensures ValidRun(ops + [op])
  {
    hide ValidStep, After, Issued;
    forall i | 0 <= i < |ops + [op]| ensures ValidStep(Issued(ops + [op], i), (ops + [op])[i]) {
      PrefixKept(ops, op, i);
    }
  }

  lemma GrantKept(ops: seq<Op>, op: Op, g: nat, a: Attempt)
    requires g < |ops| && GrantsAttempt(ops, g, a)
    ensures GrantsAttempt(ops + [op], g, a)
  {
    hide Apply;
    PrefixKept(ops, op, g);
  }

  lemma OwnedGrows(ops: seq<Op>, op: Op, p: Process, key: AttemptKey)
    requires ValidRun(ops + [op]) && Owned(ops, p, key)
    ensures Owned(ops + [op], p, key)
  {
    hide GrantsAttempt, ValidRun, After;
    var next := ops + [op];
    var g :| 0 <= g < |ops| && GrantsAttempt(ops, g, AttemptOf(p, key));
    GrantKept(ops, op, g, AttemptOf(p, key));
    PrefixKept(ops, op, |ops|);
    RetryBudgets.IssuedOnce(next, |ops|, |next|, key.token);
  }

  /** A step revives no attempt. */
  lemma NotRevived(ops: seq<Op>, op: Op, p: Process, key: AttemptKey)
    requires ValidRun(ops + [op]) && key.token in Issued(ops, |ops|)
    requires HoldsLease(ops + [op], p, key)
    ensures HoldsLease(ops, p, key)
  {
    hide Holds, ValidRun, Apply, After, Issued;
    PrefixKept(ops, op, |ops|);
    if !HoldsLease(ops, p, key) {
      BeginsByGrant(ops + [op], |ops|, key.job, p.config.id, key.token);
    }
  }

  /** A step of the store, whoever causes it, leaves every process sound. */
  lemma ProcessSurvives(ops: seq<Op>, op: Op, p: Process)
    requires ValidRun(ops + [op]) && ProcessSound(ops, p)
    ensures ProcessSound(ops + [op], p)
  {
    hide ValidRun, Owned, HoldsLease, Tracks, Paced, Fits, Validated;
    forall key | Owned(ops, p, key) ensures Owned(ops + [op], p, key) && key.token in Issued(ops, |ops|) {
      OwnedGrows(ops, op, p, key);
      OwnedIssued(ops, p, key);
    }
    forall key | key in p.delivered && HoldsLease(ops + [op], p, key) ensures HoldsLease(ops, p, key) {
      NotRevived(ops, op, p, key);
    }
  }

  lemma OwnedIssued(ops: seq<Op>, p: Process, key: AttemptKey)
    requires Owned(ops, p, key)
    ensures key.token in Issued(ops, |ops|) && Issued(ops, |ops|)[key.token] == p.config.policy
  {
  }

  lemma LastStep(ops: seq<Op>, op: Op)
    ensures After(ops + [op], |ops| + 1) == Apply(After(ops, |ops|), op).0
    ensures ReplyAt(ops + [op], |ops|) == Apply(After(ops, |ops|), op).1
  {
    hide Apply;
    PrefixKept(ops, op, |ops|);
  }

  lemma IssuedLast(ops: seq<Op>, op: Op)
    requires op.ReserveJobs?
    ensures Issued(ops + [op], |ops| + 1) == Issued(ops, |ops|) + (map t | t in op.tokens :: op.policy)
  {
    PrefixKept(ops, op, |ops|);
    hide After;
  }

  lemma ReservationOwned(ops: seq<Op>, p: Process, op: Op, grant: Grant)
    requires op.ReserveJobs? && op.worker == p.config.id && op.policy == p.config.policy
    requires Apply(After(ops, |ops|), op).1.Reserved? && grant in Apply(After(ops, |ops|), op).1.grants
    requires grant.token in op.tokens
    ensures Owned(ops + [op], p, grant)
  {
    hide Apply, After, Issued;
    IssuedLast(ops, op);
    LastStep(ops, op);
    assert GrantsAttempt(ops + [op], |ops|, AttemptOf(p, grant));
  }

  lemma NewToken(ops: seq<Op>, p: Process, op: Op, grant: Grant)
    requires ProcessSound(ops, p) && ValidStep(Issued(ops, |ops|), op)
    requires op.ReserveJobs? && grant.token in op.tokens
    ensures grant !in p.local.active
  {
    hide Owned, HoldsLease, Tracks, Paced, Fits, Validated, After, Issued;
    if grant in p.local.active {
      OwnedIssued(ops, p, grant);
    }
  }

  lemma TokensInOrder(s: State, op: Op)
    requires op.ReserveJobs? && Coherent(s) && EnoughTokens(op) && Apply(s, op).1.Reserved?
    ensures var grants := Apply(s, op).1.grants;
            |grants| <= |op.tokens| && forall i | 0 <= i < |grants| :: grants[i].token == op.tokens[i]
  {
    ReserveGrants(s, op);
    hide Apply, GrantedAt, Coherent;
  }

  lemma GrantsFit(p: Process, tokens: seq<string>, grants: seq<Grant>)
    requires |grants| <= |tokens| == Capacity(p.local, p.config)
    requires forall i | 0 <= i < |grants| :: grants[i].token == tokens[i] && grants[i] !in p.local.active
    requires forall i, k | 0 <= i < k < |tokens| :: tokens[i] != tokens[k]
    ensures Fits(p.local, p.config, grants)
  {
  }

  /** The grants of a reservation fit the worker that asked for them, and belong to it. */
  lemma ReservationFits(ops: seq<Op>, p: Process, op: Op)
    requires ProcessSound(ops, p) && ValidRun(ops + [op]) && ValidStep(Issued(ops, |ops|), op)
    requires op.ReserveJobs? && op.worker == p.config.id && op.policy == p.config.policy
    requires op.capacity == |op.tokens| == Capacity(p.local, p.config)
    requires Apply(After(ops, |ops|), op).1.Reserved?
    ensures var grants := Apply(After(ops, |ops|), op).1.grants;
            && Fits(p.local, p.config, grants)
            && (forall g | g in grants :: g.token in op.tokens && Owned(ops + [op], p, g))
  {
    hide ProcessSound, Owned, Issued, Coherent, After, Capacity, Apply, Fits, ValidRun;
    PrefixKept(ops, op, |ops|);
    RunCoherent(ops + [op], |ops|);
    TokensInOrder(After(ops, |ops|), op);
    var grants := Apply(After(ops, |ops|), op).1.grants;
    forall i | 0 <= i < |grants|
      ensures grants[i] !in p.local.active && Owned(ops + [op], p, grants[i])
    {
      NewToken(ops, p, op, grants[i]);
      ReservationOwned(ops, p, op, grants[i]);
    }
    GrantsFit(p, op.tokens, grants);
  }

  /** A completion is sent under the policy the token was made with. */
  lemma CompletionValid(ops: seq<Op>, p: Process, key: AttemptKey, outcome: Outcome, now: int)
    requires Owned(ops, p, key)
    ensures ValidStep(Issued(ops, |ops|), CompletionOf(p.config, key, outcome, now))
  {
    hide GrantsAttempt, After, Issued;
    match outcome
    case RunCompleted =>
    case RunAgain(_) =>
    case RunFailed =>
    case RunErrored =>
  }

  /** A completion ends the lease of its attempt, or finds it ended. */
  lemma CompletionSettles(ops: seq<Op>, p: Process, key: AttemptKey, outcome: Outcome, now: int)
    ensures !HoldsLease(ops + [CompletionOf(p.config, key, outcome, now)], p, key)
  {
    var op := CompletionOf(p.config, key, outcome, now);
    LastStep(ops, op);
    hide After, Apply;
    CompletionEndsLease(After(ops, |ops|), op);
    if !Holds(After(ops, |ops|), key.job, p.config.id, key.token) {
      Fenced(After(ops, |ops|), op, key.job, p.config.id, key.token);
    }
    hide PackLease;
  }

  /** A heartbeat that is turned away has lost its lease. */
  lemma HeartbeatTells(ops: seq<Op>, p: Process, key: AttemptKey, now: int)
    requires ValidRun(ops + [Heartbeat(p.config, key, now)]) && Owned(ops, p, key)
    requires Apply(After(ops, |ops|), Heartbeat(p.config, key, now)).1 == LeaseMismatch
    ensures !HoldsLease(ops + [Heartbeat(p.config, key, now)], p, key)
  {
    var op := Heartbeat(p.config, key, now);
    assert !HoldsLease(ops, p, key);
    hide After, Apply, HoldsLease, ValidRun;
    OwnedIssued(ops, p, key);
    if HoldsLease(ops + [op], p, key) {
      NotRevived(ops, op, p, key);
    }
  }

  lemma SameOwner(ops: seq<Op>, p: Process, t: Process, key: AttemptKey)
    requires t.config == p.config
    ensures Owned(ops, t, key) == Owned(ops, p, key) && HoldsLease(ops, t, key) == HoldsLease(ops, p, key)
  {
    hide GrantsAttempt, HasLease, After, Issued;
    assert AttemptOf(t, key) == AttemptOf(p, key);
  }

  /** A process may forget an attempt, or stop its heartbeats, once the attempt has lost its lease. */
  lemma ProcessChanges(ops: seq<Op>, p: Process, t: Process)
    requires ProcessSound(ops, p)
    requires t == p.(local := t.local, awaiting := None)
    requires Tracks(t.local, p.config) && Paced(t.local, p.config)
    requires t.local.active.Keys <= p.local.active.Keys
    requires forall k | k in p.local.active ::
               (k in t.local.active && t.local.active[k] == p.local.active[k]) || !HoldsLease(ops, p, k)
    ensures ProcessSound(ops, t)
  {
    hide Owned, HoldsLease, Tracks, Paced, Validated, Fits;
    forall k ensures Owned(ops, t, k) == Owned(ops, p, k) && HoldsLease(ops, t, k) == HoldsLease(ops, p, k) {
      SameOwner(ops, p, t, k);
    }
  }

  /** Steps that leave the attempts of a process as they are. */
  lemma ProcessPauses(ops: seq<Op>, p: Process, local: Local)
    requires ProcessSound(ops, p)
    requires Tracks(local, p.config) && Paced(local, p.config) && local.active == p.local.active
    ensures ProcessSound(ops, p.(local := local, awaiting := None))
  {
    hide Owned, HoldsLease, Tracks, Paced, Validated, Fits;
    ProcessChanges(ops, p, p.(local := local, awaiting := None));
  }

  lemma ProcessSettles(ops: seq<Op>, p: Process, key: AttemptKey, answer: Answer)
    requires ProcessSound(ops, p) && p.awaiting == None && key in p.local.pending
    requires answer == Applied || answer == Mismatch
    requires !HoldsLease(ops, p, key)
    ensures ProcessSound(ops, p.(local := Resolved(p.local, key, answer)))
  {
    ResolvedTracks(p.local, p.config, key, answer);
    hide Owned, HoldsLease, Tracks, Validated, Fits;
    ProcessChanges(ops, p, p.(local := Resolved(p.local, key, answer)));
  }

  lemma ProcessLoses(ops: seq<Op>, p: Process, key: AttemptKey)
    requires ProcessSound(ops, p) && p.awaiting == None && key in p.local.active
    requires !HoldsLease(ops, p, key)
    ensures ProcessSound(ops, p.(local := Beaten(p.local, key, Mismatch)))
  {
    hide Owned, HoldsLease, Tracks, Paced, Validated, Fits;
    BeatenTracks(p.local, p.config, key, Mismatch);
    var t := p.(local := Beaten(p.local, key, Mismatch));
    assert t.local.active == p.local.active[key := false];
    hide Beaten;
    ProcessChanges(ops, p, t);
  }

  lemma ProcessReceives(ops: seq<Op>, p: Process, next: Option<int>, now: int)
    requires ProcessSound(ops, p) && p.awaiting != None
    ensures var grants := p.awaiting.value;
            ProcessSound(ops, p.(awaiting := None, local := Replied(p.local, p.config, grants, next, now),
                                 delivered := p.delivered + (set g | g in grants)))
  {
    var grants := p.awaiting.value;
    var local := Replied(p.local, p.config, grants, next, now);
    var t := p.(awaiting := None, local := local, delivered := p.delivered + (set g | g in grants));
    RepliedTracks(p.local, p.config, grants, next, now);
    RepliedActive(p.local, p.config, grants, next, now);
    forall k ensures Owned(ops, t, k) == Owned(ops, p, k) && HoldsLease(ops, t, k) == HoldsLease(ops, p, k) {
      SameOwner(ops, p, t, k);
    }
    hide Owned, HoldsLease, Tracks, Paced, Validated, Fits, Replied;
  }

  lemma RepliedActive(w: Local, c: Config, grants: seq<Grant>, next: Option<int>, now: int)
    ensures var t := Replied(w, c, grants, next, now);
            forall key :: (key in t.active <==> key in w.active || key in grants)
                          && (key in t.active ==> t.active[key] == (key in grants || w.active[key]))
  {
    if grants != [] {
      SpawnedAllActive(w.(nextScheduleAt := next, pollDelay := c.pollMin), grants);
    }
  }

  /** A process that has just started. */
  lemma StartSound(ops: seq<Op>, c: Config)
    requires Validated(c)
    ensures ProcessSound(ops, Start(c))
  {
    InitialTracks(c);
  }

  lemma CompletionContinues(sys: System, p: Process, key: AttemptKey, now: int)
    requires ProcessSound(sys.ops, p) && p.awaiting == None && key in p.local.pending
    requires ValidRun(sys.ops + [CompletionOf(p.config, key, p.local.pending[key], now)])
    ensures var op := CompletionOf(p.config, key, p.local.pending[key], now);
            ProcessSound(sys.ops + [op], p.(local := Resolved(p.local, key, AnswerOf(Apply(Store(sys), op).1))))
  {
    var op := CompletionOf(p.config, key, p.local.pending[key], now);
    hide *;
    ProcessSurvives(sys.ops, op, p);
    CompletionSettles(sys.ops, p, key, p.local.pending[key], now);
    AnswerSettles(Apply(Store(sys), op).1);
    ProcessSettles(sys.ops + [op], p, key, AnswerOf(Apply(Store(sys), op).1));
  }

  lemma AnswerSettles(reply: Reply)
    ensures AnswerOf(reply) == Applied || AnswerOf(reply) == Mismatch
  {
  }

  lemma HeartbeatContinues(sys: System, p: Process, key: AttemptKey, now: int)
    requires ProcessSound(sys.ops, p) && p.awaiting == None && key in p.local.active
    requires ValidRun(sys.ops + [Heartbeat(p.config, key, now)])
    ensures var op := Heartbeat(p.config, key, now);
            ProcessSound(sys.ops + [op], p.(local := Beaten(p.local, key, AnswerOf(Apply(Store(sys), op).1))))
  {
    var op := Heartbeat(p.config, key, now);
    ProcessSurvives(sys.ops, op, p);
    assert Owned(sys.ops, p, key);
    hide ProcessSound, Apply, After, Issued, ValidRun, HoldsLease, Owned;
    if Apply(Store(sys), op).1 == LeaseMismatch {
      HeartbeatTells(sys.ops, p, key, now);
      ProcessLoses(sys.ops + [op], p, key);
    } else {
      assert p.(local := Beaten(p.local, key, Applied)) == p;
    }
  }

  lemma ReservationContinues(sys: System, p: Process, now: int, record: string, tokens: seq<string>)
    requires ProcessSound(sys.ops, p) && p.awaiting == None && |tokens| == Capacity(p.local, p.config)
    requires var op := Reservation(p.config, Capacity(p.local, p.config), now, record, tokens);
             ValidStep(Sent(sys), op) && ValidRun(sys.ops + [op])
    ensures var op := Reservation(p.config, Capacity(p.local, p.config), now, record, tokens);
            var reply := Apply(Store(sys), op).1;
            && ProcessSound(sys.ops + [op], p.(awaiting := GrantsOf(reply)))
            && (reply.Reserved? ==> forall g | g in reply.grants :: g.token in tokens)
  {
    var op := Reservation(p.config, Capacity(p.local, p.config), now, record, tokens);
    ProcessSurvives(sys.ops, op, p);
    var reply := Apply(Store(sys), op).1;
    if reply.Reserved? {
      ReservationFits(sys.ops, p, op);
      hide ProcessSound, Apply, After, Issued, ValidRun, ValidStep, HoldsLease, Owned, Fits, Capacity;
      ProcessWaits(sys.ops + [op], p, reply.grants);
    }
  }

  lemma ProcessWaits(ops: seq<Op>, p: Process, grants: seq<Grant>)
    requires ProcessSound(ops, p) && Fits(p.local, p.config, grants)
    requires forall g | g in grants :: Owned(ops, p, g)
    ensures ProcessSound(ops, p.(awaiting := Some(grants)))
  {
    hide Owned, HoldsLease, Tracks, Paced, Validated, Fits;
    var t := p.(awaiting := Some(grants));
    forall k ensures Owned(ops, t, k) == Owned(ops, p, k) && HoldsLease(ops, t, k) == HoldsLease(ops, p, k) {
      SameOwner(ops, p, t, k);
    }
  }

  /** The command a worker sends is one that clients promise to send. */
  lemma CommandValid(sys: System, p: Process, a: Action)
    requires ProcessSound(sys.ops, p) && ProcessEnabled(sys, p, a)
    ensures ProcessCommand(p, a) != None ==> ValidStep(Sent(sys), ProcessCommand(p, a).value)
  {
    hide HoldsLease, Owned, Paced, Fits, Capacity, Validated, Issued, After, CompletionOf;
    match a
    case StoreReserves(_, _, _, _) =>
    case CompletionAnswered(_, key, now) =>
      hide ValidStep;
      CompletionValid(sys.ops, p, key, p.local.pending[key], now);
    case HeartbeatAnswered(_, _, _) =>
    case _ =>
  }

  lemma RunContinues(sys: System, command: Option<Op>)
    requires ValidRun(sys.ops)
    requires command != None ==> ValidStep(Sent(sys), command.value)
    ensures ValidRun(Execute(sys, command))
  {
    hide ValidRun, ValidStep, After, Issued;
    if command != None {
      ValidRunGrows(sys.ops, command.value);
    }
  }

  /** The acting process stays sound. */
  lemma ProcessContinues(sys: System, p: Process, a: Action)
    requires ProcessSound(sys.ops, p) && ProcessEnabled(sys, p, a)
    requires ValidRun(Execute(sys, ProcessCommand(p, a)))
    ensures ProcessSound(Execute(sys, ProcessCommand(p, a)), Continue(p, a, ReplyTo(sys, ProcessCommand(p, a))))
  {
    hide HoldsLease, Owned, Paced, Fits, Capacity, Validated, Issued, After, CompletionOf, ValidRun, ValidStep, Apply,
         Replied, Resolved, Beaten, Joined, Reservation, Tracks;
    match a
    case StoreReserves(_, now, record, tokens) => ReservationContinues(sys, p, now, record, tokens);
    case ReplyArrives(_, next, now) => ProcessReceives(sys.ops, p, next, now);
    case ReplyLost(_, timedOut) =>
      ReserveFailedTracks(p.local, p.config);
      ProcessPauses(sys.ops, p, if timedOut then ReserveFailed(p.local, p.config) else p.local);
    case HandlerReturns(_, key, outcome) => HandlerContinues(sys.ops, p, key, outcome);
    case CompletionAnswered(_, key, now) => CompletionContinues(sys, p, key, now);
    case HeartbeatAnswered(_, key, now) => HeartbeatContinues(sys, p, key, now);
    case Unanswered(_, _) => BackoffContinues(sys.ops, p, true);
    case TransientError(_) => BackoffContinues(sys.ops, p, true);
    case BackoffEnds(_) => BackoffContinues(sys.ops, p, false);
    case SleepEnds(_) =>
      SleptTracks(p.local, p.config);
      ProcessPauses(sys.ops, p, Slept(p.local, p.config));
    case Restart(_, config) => StartSound(sys.ops, config);
  }

  lemma HandlerContinues(ops: seq<Op>, p: Process, key: AttemptKey, outcome: Outcome)
    requires ProcessSound(ops, p) && p.awaiting == None && key in p.local.running
    ensures ProcessSound(ops, p.(local := Joined(p.local, key, outcome)))
  {
    hide HoldsLease, Owned, Fits, Validated, Tracks;
    JoinedTracks(p.local, p.config, key, outcome);
    ProcessPauses(ops, p, Joined(p.local, key, outcome));
  }

  lemma BackoffContinues(ops: seq<Op>, p: Process, backingOff: bool)
    requires ProcessSound(ops, p) && p.awaiting == None
    ensures ProcessSound(ops, p.(local := p.local.(backingOff := backingOff)))
  {
    hide HoldsLease, Owned, Fits, Validated;
    ProcessPauses(ops, p, p.local.(backingOff := backingOff));
  }

  lemma KnownIsSent(ops: seq<Op>, p: Process, token: string)
    requires ProcessSound(ops, p) && Knows(p, token)
    ensures token in Issued(ops, |ops|)
  {
    hide HoldsLease, Owned, Paced, Fits, Validated, Tracks, After, Issued;
    forall key | Owned(ops, p, key) ensures key.token in Issued(ops, |ops|) {
      OwnedIssued(ops, p, key);
    }
  }

  /** A process only learns of tokens that were never used before. */
  lemma LearnsOnlyFresh(sys: System, p: Process, a: Action, token: string)
    requires ProcessSound(sys.ops, p) && ProcessEnabled(sys, p, a)
    requires ValidRun(Execute(sys, ProcessCommand(p, a)))
    requires Knows(Continue(p, a, ReplyTo(sys, ProcessCommand(p, a))), token)
    ensures Knows(p, token) || token !in Sent(sys)
  {
    hide HoldsLease, Owned, Paced, Fits, Capacity, Validated, Issued, After, CompletionOf, ValidRun, Apply,
         Replied, Resolved, Beaten, Joined, Tracks, ReserveFailed, Slept;
    match a
    case StoreReserves(_, now, record, tokens) =>
      hide ValidStep;
      ReservationContinues(sys, p, now, record, tokens);
      FreshTokens(sys, Reservation(p.config, Capacity(p.local, p.config), now, record, tokens));
    case ReplyArrives(_, _, _) =>
    case Restart(_, _) =>
    case _ =>
  }

  lemma FreshTokens(sys: System, op: Op)
    requires ValidStep(Sent(sys), op) && op.ReserveJobs?
    ensures forall t | t in op.tokens :: t !in Sent(sys)
  {
    hide Sent;
  }

  lemma SurvivesCommand(ops: seq<Op>, command: Option<Op>, p: Process, sys: System)
    requires sys.ops == ops && ProcessSound(ops, p) && ValidRun(Execute(sys, command))
    ensures ProcessSound(Execute(sys, command), p)
  {
    hide ProcessSound, ValidRun;
    if command != None {
      ProcessSurvives(ops, command.value, p);
    }
  }

  lemma ActorSound(sys: System, a: Action)
    requires Sound(sys) && Enabled(sys, a) && !a.Environment?
    ensures ValidRun(Perform(sys, a).ops)
    ensures ProcessSound(Perform(sys, a).ops, Perform(sys, a).processes[a.i])
    ensures forall token :: Knows(Perform(sys, a).processes[a.i], token) ==>
                              Knows(sys.processes[a.i], token) || token !in Sent(sys)
  {
    hide ProcessSound, ProcessEnabled, ProcessCommand, Continue, ReplyTo, Execute, Knows, Sent, ValidRun;
    var p := sys.processes[a.i];
    assert Command(sys, a) == ProcessCommand(p, a);
    CommandValid(sys, p, a);
    RunContinues(sys, ProcessCommand(p, a));
    ProcessContinues(sys, p, a);
    forall token | Knows(Perform(sys, a).processes[a.i], token) ensures Knows(p, token) || token !in Sent(sys) {
      LearnsOnlyFresh(sys, p, a, token);
    }
  }

  /** Tokens stay with the process that knows them. */
  lemma StillApart(sys: System, next: System, actor: nat)
    requires Sound(sys) && ValidRun(next.ops)
    requires actor < |sys.processes| == |next.processes|
    requires forall k | 0 <= k < |sys.processes| && k != actor :: next.processes[k] == sys.processes[k]
    requires forall k | 0 <= k < |sys.processes| :: ProcessSound(next.ops, next.processes[k])
    requires forall token | Knows(next.processes[actor], token) ::
               Knows(sys.processes[actor], token) || token !in Sent(sys)
    ensures Sound(next)
  {
    hide ProcessSound, Knows, ValidRun, Sent;
    forall i, token | 0 <= i < |sys.processes| && Knows(sys.processes[i], token) ensures token in Sent(sys) {
      KnownInSystem(sys, i, token);
    }
  }

  lemma ActionSound(sys: System, a: Action)
    requires Sound(sys) && Enabled(sys, a) && !a.Environment?
    ensures Sound(Perform(sys, a))
  {
    ActorSound(sys, a);
    hide ProcessSound, ProcessEnabled, Continue, ReplyTo, Execute, Knows, ValidRun, Sent, Command, Enabled;
    var next := Perform(sys, a);
    forall i | 0 <= i < |sys.processes| ensures ProcessSound(next.ops, next.processes[i]) {
      if i != a.i {
        SurvivesCommand(sys.ops, Command(sys, a), sys.processes[i], sys);
      }
    }
    StillApart(sys, next, a.i);
  }

  lemma EnvironmentSound(sys: System, op: Op)
    requires Sound(sys) && ValidStep(Sent(sys), op)
    ensures Sound(Perform(sys, Environment(op)))
  {
    hide ProcessSound, Knows, ValidRun, ValidStep, Sent;
    RunContinues(sys, Some(op));
    forall i | 0 <= i < |sys.processes| ensures ProcessSound(sys.ops + [op], sys.processes[i]) {
      SurvivesCommand(sys.ops, Some(op), sys.processes[i], sys);
    }
  }

  lemma StepSound(sys: System, a: Action)
    requires Sound(sys) && Enabled(sys, a)
    ensures Sound(Perform(sys, a))
  {
    hide Sound, Perform, Sent, ValidStep, ProcessEnabled, IsVoice;
    if a.Environment? {
      EnvironmentSound(sys, a.op);
    } else {
      ActionSound(sys, a);
    }
  }

  lemma KnownInSystem(sys: System, i: nat, token: string)
    requires Sound(sys) && i < |sys.processes| && Knows(sys.processes[i], token)
    ensures token in Sent(sys)
  {
    hide ProcessSound, Knows, ValidRun, Issued;
    KnownIsSent(sys.ops, sys.processes[i], token);
  }

  lemma SentGrows(sys: System, a: Action, token: string)
    requires token in Sent(sys)
    ensures token in Sent(Perform(sys, a))
  {
    hide After, Issued, Apply, Continue;
    if Command(sys, a) != None {
      PrefixKept(sys.ops, Command(sys, a).value, |sys.ops|);
      IssuedGrows(sys.ops + [Command(sys, a).value], |sys.ops|, |sys.ops| + 1, token);
    }
  }

  lemma SoundRuns(sys: System)
    requires Sound(sys)
    ensures ValidRun(sys.ops)
  {
  }

  lemma InitiallySound(configs: seq<Config>)
    requires forall i | 0 <= i < |configs| :: Validated(configs[i])
    ensures Sound(Reach(configs, [], 0))
  {
    hide ProcessSound, Validated, Initial;
    forall i | 0 <= i < |configs| ensures ProcessSound([], Start(configs[i])) {
      StartSound([], configs[i]);
    }
  }

  lemma ReachAtFirst(configs: seq<Config>, actions: seq<Action>)
    ensures Reach(configs, actions, 0) == Reach(configs, [], 0)
  {
  }

  /** The invariants of the composed system hold after every possible sequence of actions. In particular the steps the
      store has seen form a valid run, so that everything proved about runs holds of the system. */
  lemma {:induction false} AlwaysSound(configs: seq<Config>, actions: seq<Action>, n: nat)
    requires n <= |actions| && Possible(configs, actions)
    ensures Sound(Reach(configs, actions, n))
    decreases n
  {
    hide Sound, Perform, Enabled, Validated;
    if n == 0 {
      InitiallySound(configs);
      ReachAtFirst(configs, actions);
    } else {
      AlwaysSound(configs, actions, n - 1);
      StepSound(Reach(configs, actions, n - 1), actions[n - 1]);
    }
  }
}
