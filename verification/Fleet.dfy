/** Any number of worker processes on one namespace. Every access to the store is one step of a run; replies may be lost,
    commands may be executed long after their sender stopped waiting, and processes may die and start again. */
module Fleet {
  import opened Wrappers
  import opened Policy
  import opened Queue
  import opened Steps
  import opened Runs
  import opened LiveLeases
  import opened WorkerState

  /** A worker process. `awaiting` holds the reservation the store has granted while the process still waits for the
      reply. `delivered` remembers every attempt whose handler this process has started. */
  datatype Process = Process(config: Config, local: Local, awaiting: Option<seq<Grant>>, delivered: set<AttemptKey>)

  /** The steps of the store and the processes. The rest is history: every handler start, the grants that no process of
      the fleet answers for (any more), the tokens the processes have made, and the commands they have sent for attempts. */
  datatype System = System(
    ops: seq<Op>,
    processes: seq<Process>,
    started: seq<AttemptKey>,
    lost: set<Attempt>,
    made: set<string>,
    sent: set<Op>)

  /** `Environment` is any other client, and any command of a process executed again, or after its sender gave up on it.
      `Unanswered` is a command that its sender gives up on. While a process waits for a reservation it does nothing else:
      another branch first drops the reservation (`ReplyLost`). */
  datatype Action =
    | Environment(op: Op)
    | StoreReserves(i: nat, now: int, record: string, tokens: seq<string>)
    | ReplyArrives(i: nat, nextScheduleAt: Option<int>, now: int)
    | ReplyLost(i: nat, timedOut: bool)
    | HandlerReturns(i: nat, key: AttemptKey, outcome: Outcome)
    | CompletionAnswered(i: nat, key: AttemptKey, now: int)
    | HeartbeatAnswered(i: nat, key: AttemptKey, now: int)
    | Unanswered(i: nat, op: Op)
    | TransientError(i: nat)
    | BackoffEnds(i: nat)
    | SleepEnds(i: nat)
    | Restart(i: nat, config: Config)

  function Store(sys: System): State {
    After(sys.ops, |sys.ops|)
  }

  function Sent(sys: System): map<string, RetryPolicy> {
    Issued(sys.ops, |sys.ops|)
  }

  function Start(c: Config): Process {
    Process(c, Initial(c), None, {})
  }

  function Reservation(c: Config, capacity: nat, now: int, record: string, tokens: seq<string>): Op {
    ReserveJobs(c.id, now, capacity, c.leaseDuration, c.policy, record, tokens)
  }

  function Heartbeat(c: Config, key: AttemptKey, now: int): Op {
    HeartbeatLease(key.job, c.id, key.token, now, c.leaseDuration)
  }

  function AnswerOf(reply: Reply): Answer {
    if reply == LeaseMismatch then Mismatch else Applied
  }

  function GrantsOf(reply: Reply): Option<seq<Grant>> {
    if reply.Reserved? then Some(reply.grants) else None
  }

  /** The command is sent on behalf of one attempt. */
  predicate IsVoice(op: Op) {
    op.HeartbeatLease? || op.AckLease? || op.CompleteLease? || op.FailLease?
  }

  /** The process may send this command now: for a result it has to resolve, or for an attempt it keeps alive. */
  predicate Speaks(p: Process, op: Op) {
    IsVoice(op) &&
    var key := Grant(op.job, op.token);
    if op.HeartbeatLease? then key in p.local.active && p.local.active[key] && op == Heartbeat(p.config, key, op.now)
    else key in p.local.pending && op == CompletionOf(p.config, key, p.local.pending[key], op.now)
  }

  /** Nobody else can speak for an attempt whose token a process of the fleet has made; its commands may come late, and
      more than once. */
  ghost predicate Enabled(sys: System, a: Action) {
    match a
    case Environment(op) => ValidStep(Sent(sys), op) && (IsVoice(op) && op.token in sys.made ==> op in sys.sent)
    case _ =>
      && a.i < |sys.processes|
      && ProcessEnabled(sys, sys.processes[a.i], a)
  }

  ghost predicate ProcessEnabled(sys: System, p: Process, a: Action) {
    match a
    case Environment(_) => false
    case StoreReserves(_, now, record, tokens) =>
      && p.awaiting == None && Capacity(p.local, p.config) > 0
      && p.local.reserveSleep == None && !p.local.backingOff
      && |tokens| == Capacity(p.local, p.config)
      && ValidStep(Sent(sys), Reservation(p.config, Capacity(p.local, p.config), now, record, tokens))
    case ReplyArrives(_, _, _) => p.awaiting != None
    case ReplyLost(_, timedOut) => p.awaiting != None || timedOut
    case HandlerReturns(_, key, _) => p.awaiting == None && key in p.local.running
    case CompletionAnswered(_, key, _) => p.awaiting == None && key in p.local.pending
    case HeartbeatAnswered(_, key, _) => p.awaiting == None && key in p.local.active && p.local.active[key]
    case Unanswered(_, op) => p.awaiting == None && Speaks(p, op)
    case TransientError(_) => p.awaiting == None
    case BackoffEnds(_) => p.awaiting == None && p.local.backingOff
    case SleepEnds(_) => p.awaiting == None && p.local.reserveSleep != None
    case Restart(_, config) => Validated(config)
  }

  /** The command an action has the store execute, if any. */
  function Command(sys: System, a: Action): Option<Op> {
    match a
    case Environment(op) => Some(op)
    case _ => if a.i < |sys.processes| then ProcessCommand(sys.processes[a.i], a) else None
  }

  function ProcessCommand(p: Process, a: Action): Option<Op> {
    match a
    case StoreReserves(_, now, record, tokens) =>
      Some(Reservation(p.config, Capacity(p.local, p.config), now, record, tokens))
    case CompletionAnswered(_, key, now) =>
      if key in p.local.pending then Some(CompletionOf(p.config, key, p.local.pending[key], now)) else None
    case HeartbeatAnswered(_, key, now) => Some(Heartbeat(p.config, key, now))
    case _ => None
  }

  /** How the acting process goes on, given the reply to its command. */
  function Continue(p: Process, a: Action, reply: Reply): Process {
    match a
    case Environment(_) => p
    case StoreReserves(_, _, _, _) => p.(awaiting := GrantsOf(reply))
    case ReplyArrives(_, next, now) =>
      if p.awaiting == None then p
      else
        p.(awaiting := None, local := Replied(p.local, p.config, p.awaiting.value, next, now),
           delivered := p.delivered + (set g | g in p.awaiting.value))
    case ReplyLost(_, timedOut) =>
      p.(awaiting := None, local := if timedOut then ReserveFailed(p.local, p.config) else p.local)
    case HandlerReturns(_, key, outcome) => p.(local := Joined(p.local, key, outcome))
    case CompletionAnswered(_, key, _) => p.(local := Resolved(p.local, key, AnswerOf(reply)))
    case HeartbeatAnswered(_, key, _) => p.(local := Beaten(p.local, key, AnswerOf(reply)))
    case Unanswered(_, _) => p.(local := p.local.(backingOff := true))
    case TransientError(_) => p.(local := p.local.(backingOff := true))
    case BackoffEnds(_) => p.(local := p.local.(backingOff := false))
    case SleepEnds(_) => if p.local.reserveSleep == None then p else p.(local := Slept(p.local, p.config))
    case Restart(_, config) => Start(config)
  }

  function Execute(sys: System, command: Option<Op>): seq<Op> {
    match command
    case None => sys.ops
    case Some(op) => sys.ops + [op]
  }

  function ReplyTo(sys: System, command: Option<Op>): Reply {
    match command
    case None => Done
    case Some(op) => Apply(Store(sys), op).1
  }

  function Perform(sys: System, a: Action): (next: System)
    ensures |next.processes| == |sys.processes|
  {
    var command := Command(sys, a);
    System(Execute(sys, command),
           if a.Environment? || a.i >= |sys.processes| then sys.processes
           else sys.processes[a.i := Continue(sys.processes[a.i], a, ReplyTo(sys, command))],
           sys.started + Starts(sys, a),
           sys.lost + Losses(sys, a),
           sys.made + Makes(sys, a),
           sys.sent + Utters(sys, a))
  }

  /** The attempts a process answers for: those it counts, and those it waits to be told of. */
  function Carried(p: Process): set<AttemptKey> {
    p.local.active.Keys + if p.awaiting == None then {} else set g | g in p.awaiting.value
  }

  /** The grants that an action leaves to nobody: to another client, or because a reply or a whole process is lost. */
  function Losses(sys: System, a: Action): set<Attempt> {
    match a
    case Environment(op) =>
      var reply := Apply(Store(sys), op).1;
      if op.ReserveJobs? && reply.Reserved? then set g | g in reply.grants :: Attempt(g.job, op.worker, g.token) else {}
    case _ => if a.i < |sys.processes| then ProcessLosses(sys.processes[a.i], a) else {}
  }

  function ProcessLosses(p: Process, a: Action): set<Attempt> {
    match a
    case ReplyLost(_, _) => if p.awaiting == None then {} else set g | g in p.awaiting.value :: AttemptOf(p, g)
    case Restart(_, _) => set key | key in Carried(p) :: AttemptOf(p, key)
    case _ => {}
  }

  function Makes(sys: System, a: Action): set<string> {
    if a.StoreReserves? then set token | token in a.tokens else {}
  }

  function Utters(sys: System, a: Action): set<Op> {
    match a
    case CompletionAnswered(_, _, _) => match Command(sys, a) { case None => {} case Some(op) => {op} }
    case HeartbeatAnswered(_, _, _) => match Command(sys, a) { case None => {} case Some(op) => {op} }
    case Unanswered(_, op) => {op}
    case _ => {}
  }

  /** The handlers an action starts. */
  function Starts(sys: System, a: Action): seq<AttemptKey> {
    if a.ReplyArrives? && a.i < |sys.processes| && sys.processes[a.i].awaiting != None then
      sys.processes[a.i].awaiting.value
    else []
  }

  /** The system after the first `n` actions. */
  function Reach(configs: seq<Config>, actions: seq<Action>, n: nat): System
    requires n <= |actions|
  {
    if n == 0 then System([], seq(|configs|, i requires 0 <= i < |configs| => Start(configs[i])), [], {}, {}, {})
    else Perform(Reach(configs, actions, n - 1), actions[n - 1])
  }

  ghost predicate Possible(configs: seq<Config>, actions: seq<Action>) {
    && (forall i | 0 <= i < |configs| :: Validated(configs[i]))
    && (forall n | 0 <= n < |actions| :: Enabled(Reach(configs, actions, n), actions[n]))
  }

  function AttemptOf(p: Process, key: AttemptKey): Attempt {
    Attempt(key.job, p.config.id, key.token)
  }

  /** The store has reported the grant of this attempt to this worker, under the policy of the worker. */
  ghost predicate Owned(ops: seq<Op>, p: Process, key: AttemptKey) {
    && key.token in Issued(ops, |ops|) && Issued(ops, |ops|)[key.token] == p.config.policy
    && exists g | 0 <= g < |ops| :: GrantsAttempt(ops, g, AttemptOf(p, key))
  }

  ghost predicate HoldsLease(ops: seq<Op>, p: Process, key: AttemptKey) {
    HasLease(After(ops, |ops|), AttemptOf(p, key))
  }

  /** What holds of one process at all times. */
  ghost predicate ProcessSound(ops: seq<Op>, p: Process) {
    && Validated(p.config) && Tracks(p.local, p.config) && Paced(p.local, p.config)
    && p.local.active.Keys <= p.delivered
    && (p.awaiting != None ==> Fits(p.local, p.config, p.awaiting.value))
    && (p.awaiting != None ==> forall g | g in p.awaiting.value :: Owned(ops, p, g))
    && (forall key | key in p.delivered :: Owned(ops, p, key))
    && (forall key | key in p.delivered && HoldsLease(ops, p, key) :: key in p.local.active)
    && (forall key | key in p.local.active && !p.local.active[key] :: !HoldsLease(ops, p, key))
  }

  /** The process has been told of a grant with this token, or is about to be. */
  predicate Knows(p: Process, token: string) {
    || (exists key | key in p.delivered :: key.token == token)
    || (p.awaiting != None && exists g | g in p.awaiting.value :: g.token == token)
  }

  ghost predicate Sound(sys: System) {
    && ValidRun(sys.ops)
    && (forall i | 0 <= i < |sys.processes| :: ProcessSound(sys.ops, sys.processes[i]))
    && (forall i, k, token | 0 <= i < k < |sys.processes| ::
          !(Knows(sys.processes[i], token) && Knows(sys.processes[k], token)))
  }
}
