/** A turn of the worker loop is a sequence of actions of the composed system, under the replies the worker was given. */
module Turns {
  import opened Wrappers
  import opened Queue
  import opened Steps
  import opened Runs
  import opened WorkerState
  import opened WorkerRuntime
  import opened Fleet

  const NOBODY: System := System([], [], [], {}, {}, {})

  /** One action of a process, and the store's reply to its command if it has one. */
  datatype Move = Move(action: Action, reply: Reply)

  /** The guards of these actions do not look at the rest of the system. */
  ghost predicate Allowed(p: Process, a: Action) {
    !a.StoreReserves? && !a.Restart? && !a.Environment? && ProcessEnabled(NOBODY, p, a)
  }

  /** The moves are allowed one after the other, and lead the process from `p` to `q`. */
  ghost predicate Leads(p: Process, moves: seq<Move>, q: Process)
    decreases |moves|
  {
    if moves == [] then p == q
    else Allowed(p, moves[0].action) && Leads(Continue(p, moves[0].action, moves[0].reply), moves[1..], q)
  }

  lemma {:induction false} Chain(p: Process, first: seq<Move>, q: Process, rest: seq<Move>, r: Process)
    requires Leads(p, first, q) && Leads(q, rest, r)
    ensures Leads(p, first + rest, r)
    decreases |first|
  {
    hide Allowed, Continue;
    if first == [] {
      assert first + rest == rest;
    } else {
      Chain(Continue(p, first[0].action, first[0].reply), first[1..], q, rest, r);
      assert (first + rest)[1..] == first[1..] + rest && (first + rest)[0] == first[0];
    }
  }

  lemma OneMove(p: Process, a: Action, reply: Reply, q: Process)
    requires Allowed(p, a) && q == Continue(p, a, reply)
    ensures Leads(p, [Move(a, reply)], q)
  {
    hide Allowed, Continue;
    assert [Move(a, reply)][1..] == [];
  }

  /** The reply behind an answer. */
  function ReplyOf(answer: Answer): Reply {
    if answer == Mismatch then LeaseMismatch else Done
  }

  /** Joining finished handlers is one `HandlerReturns` each. */
  lemma {:induction false} DrainMoves(p: Process, results: seq<JoinResult>) returns (moves: seq<Move>)
    requires p.awaiting == None && Tracks(p.local, p.config) && AreRunning(p.local, results) && Drained(p.local, results).1
    ensures Leads(p, moves, p.(local := Drained(p.local, results).0))
    decreases |results|
  {
    moves := [];
    if results != [] {
      DrainedStep(p.local, results);
      DrainRest(p.local, p.config, results);
      var key, outcome := results[0].key, results[0].outcome;
      var q := p.(local := Joined(p.local, key, outcome));
      JoinedTracks(p.local, p.config, key, outcome);
      OneMove(p, HandlerReturns(0, key, outcome), Done, q);
      hide *;
      var rest := DrainMoves(q, results[1..]);
      Chain(p, [Move(HandlerReturns(0, key, outcome), Done)], q, rest, q.(local := Drained(q.local, results[1..]).0));
      moves := [Move(HandlerReturns(0, key, outcome), Done)] + rest;
    }
  }

  /** Resolving results is one `CompletionAnswered` each. */
  lemma {:induction false} ResolveMoves(p: Process, gone: set<AttemptKey>, answers: AttemptKey -> Answer)
    returns (moves: seq<Move>)
    requires p.awaiting == None && gone <= p.local.pending.Keys
    requires forall key | key in gone :: answers(key) == Applied || answers(key) == Mismatch
    ensures Leads(p, moves, p.(local := Without(p.local, gone)))
    decreases |gone|
  {
    if gone == {} {
      moves := [];
      ResolvesNothing(p.local);
      assert p.local.pending.Keys - p.local.pending.Keys == gone;
    } else {
      var key :| key in gone;
      var move := Move(CompletionAnswered(0, key, 0), ReplyOf(answers(key)));
      var q := p.(local := Resolved(p.local, key, answers(key)));
      OneMove(p, move.action, move.reply, q);
      WithoutMore(p.local, key, gone, answers(key));
      hide Leads, Resolved, Without;
      var rest := ResolveMoves(q, gone - {key}, answers);
      Chain(p, [move], q, rest, q.(local := Without(q.local, gone - {key})));
      moves := [move] + rest;
    }
  }

  lemma WithoutMore(w: Local, key: AttemptKey, gone: set<AttemptKey>, answer: Answer)
    requires key in gone && gone <= w.pending.Keys && (answer == Applied || answer == Mismatch)
    ensures var t := Resolved(w, key, answer);
            Without(t, gone - {key}) == Without(w, gone) && gone - {key} <= t.pending.Keys
  {
    assert w.active - {key} - (gone - {key}) == w.active - gone;
    assert w.pending - {key} - (gone - {key}) == w.pending - gone;
  }

  /** Losing leases in a round of heartbeats is one `HeartbeatAnswered` each. */
  lemma {:induction false} BeatMoves(p: Process, lost: set<AttemptKey>) returns (moves: seq<Move>)
    requires p.awaiting == None && lost <= p.local.active.Keys && forall key | key in lost :: p.local.active[key]
    ensures Leads(p, moves, p.(local := Silenced(p.local, lost)))
    decreases |lost|
  {
    if lost == {} {
      moves := [];
      assert Silenced(p.local, lost) == p.local;
    } else {
      var key :| key in lost;
      var move := Move(HeartbeatAnswered(0, key, 0), LeaseMismatch);
      var q := p.(local := Beaten(p.local, key, Mismatch));
      OneMove(p, move.action, move.reply, q);
      assert Silenced(q.local, lost - {key}) == Silenced(p.local, lost);
      hide Leads, Silenced;
      var rest := BeatMoves(q, lost - {key});
      Chain(p, [move], q, rest, q.(local := Silenced(q.local, lost - {key})));
      moves := [move] + rest;
    }
  }

  /** `w` with the heartbeats of some attempts stopped. */
  function Silenced(w: Local, lost: set<AttemptKey>): Local {
    w.(active := map key | key in w.active :: w.active[key] && key !in lost)
  }

  lemma EndBackoff(p: Process) returns (moves: seq<Move>)
    requires p.awaiting == None
    ensures Leads(p, moves, p.(local := p.local.(backingOff := false)))
  {
    if p.local.backingOff {
      OneMove(p, BackoffEnds(0), Done, p.(local := p.local.(backingOff := false)));
      moves := [Move(BackoffEnds(0), Done)];
    } else {
      moves := [];
    }
  }

  lemma GiveUp(p: Process, op: Op) returns (moves: seq<Move>)
    requires p.awaiting == None && Speaks(p, op)
    ensures Leads(p, moves, p.(local := p.local.(backingOff := true)))
  {
    hide Speaks;
    OneMove(p, Unanswered(0, op), Done, p.(local := p.local.(backingOff := true)));
    moves := [Move(Unanswered(0, op), Done)];
  }

  lemma ResultSpeaks(p: Process, key: AttemptKey)
    requires key in p.local.pending
    ensures Speaks(p, CompletionOf(p.config, key, p.local.pending[key], 0))
  {
    assert Grant(key.job, key.token) == key;
    match p.local.pending[key]
    case RunCompleted =>
    case RunAgain(_) =>
    case RunFailed =>
    case RunErrored =>
  }

  lemma HeartbeatSpeaks(p: Process, key: AttemptKey)
    requires key in p.local.active && p.local.active[key]
    ensures Speaks(p, Heartbeat(p.config, key, 0))
  {
    assert Grant(key.job, key.token) == key;
  }

  /** Resolving, and backing off if a result remains. */
  lemma ResolvesIsMoves(p: Process, t: Local, answers: AttemptKey -> Answer) returns (moves: seq<Move>)
    requires p.awaiting == None && ResolvesTo(p.local.(backingOff := t.backingOff), t, answers, t.backingOff)
    ensures Leads(p, moves, p.(local := t))
  {
    var gone := p.local.pending.Keys - t.pending.Keys;
    var calm := p.(local := p.local.(backingOff := false));
    var done := p.(local := t.(backingOff := false));
    moves := EndBackoff(p);
    var rest := ResolveMoves(calm, gone, answers);
    assert calm.(local := Without(calm.local, gone)) == done;
    Chain(p, moves, calm, rest, done);
    moves := moves + rest;
    if t.backingOff {
      var key :| key in t.pending && answers(key) == Transient;
      ResultSpeaks(done, key);
      hide Leads, Speaks;
      var last := GiveUp(done, CompletionOf(p.config, key, t.pending[key], 0));
      Chain(p, moves, done, last, p.(local := t));
      moves := moves + last;
    }
  }

  /** The top of a turn is a sequence of moves. */
  lemma BeginIsMoves(p: Process, t: Local, results: seq<JoinResult>, backoffReady: bool, answers: AttemptKey -> Answer)
    returns (moves: seq<Move>)
    requires p.awaiting == None && Tracks(p.local, p.config) && AreRunning(p.local, results)
    requires Begun(p.local, t, results, backoffReady, answers)
    ensures Leads(p, moves, p.(local := t))
  {
    hide Leads, Tracks, AreRunning, Drained, ResolvesTo;
    var joined := Drained(p.local, results).0;
    var q := p.(local := joined);
    moves := DrainMoves(p, results);
    if !(joined.backingOff && !backoffReady) {
      var rest := ResolvesIsMoves(q, t, answers);
      Chain(p, moves, q, rest, q.(local := t));
      moves := moves + rest;
    }
  }

  /** A round of heartbeats, and backing off if one got no answer. */
  lemma BeatIsMoves(p: Process, t: Local, answers: AttemptKey -> Answer, result: Answer) returns (moves: seq<Move>)
    requires p.awaiting == None && HeartbeatsTo(p.local, t.(backingOff := p.local.backingOff), answers, result)
    requires result != Fatal && t.backingOff == (p.local.backingOff || result == Transient)
    ensures Leads(p, moves, p.(local := t))
  {
    var lost := set key | key in p.local.active && t.active[key] != p.local.active[key];
    var beaten := p.(local := t.(backingOff := p.local.backingOff));
    assert Silenced(p.local, lost) == beaten.local;
    moves := BeatMoves(p, lost);
    if result == Transient {
      var key :| key in p.local.active && p.local.active[key] && answers(key) == Transient;
      HeartbeatSpeaks(beaten, key);
      hide Leads, Speaks, Silenced;
      var last := GiveUp(beaten, Heartbeat(p.config, key, 0));
      Chain(p, moves, beaten, last, p.(local := t));
      moves := moves + last;
    }
  }

  /** What the process must be waiting for when a branch fires: the reservation the branch receives, or nothing. */
  ghost predicate Awaits(p: Process, event: Event) {
    match event
    case ReserveAnswered(Delivered(jobs, _), _) => p.awaiting == Some(jobs)
    case _ => p.awaiting == None
  }

  /** Every branch a living worker takes is a sequence of moves. */
  lemma SelectIsMoves(p: Process, t: Local, event: Event) returns (moves: seq<Move>, q: Process)
    requires Awaits(p, event) && WorkerRuntime.Enabled(p.local, p.config, event) && Selected(p.local, t, p.config, event, true)
    ensures Leads(p, moves, q) && q.local == t && q.config == p.config && q.awaiting == None
  {
    hide Fits, Capacity, Replied, ReserveFailed, Joined, Slept, HeartbeatsTo, Speaks;
    moves, q := [], p.(local := t, awaiting := None);
    match event
    case HandlerJoined(result) =>
      OneMove(p, HandlerReturns(0, result.key, result.outcome), Done, q);
      moves := [Move(HandlerReturns(0, result.key, result.outcome), Done)];
    case HeartbeatTick(answers) =>
      var result :| HeartbeatsTo(p.local, t.(backingOff := p.local.backingOff), answers, result)
                    && result != Fatal && t.backingOff == (p.local.backingOff || result == Transient);
      moves := BeatIsMoves(p, t, answers, result);
    case ReapTick(answer) =>
      if answer == Transient {
        OneMove(p, TransientError(0), Done, q);
        moves := [Move(TransientError(0), Done)];
      }
    case BackoffOver => moves := EndBackoff(p);
    case ReserveAnswered(Delivered(jobs, next), now) =>
      q := Continue(p, ReplyArrives(0, next, now), Done);
      OneMove(p, ReplyArrives(0, next, now), Done, q);
      moves := [Move(ReplyArrives(0, next, now), Done)];
    case ReserveAnswered(Undelivered(_), _) =>
      OneMove(p, ReplyLost(0, true), Done, q);
      moves := [Move(ReplyLost(0, true), Done)];
    case ReserveSleepOver =>
      OneMove(p, SleepEnds(0), Done, q);
      moves := [Move(SleepEnds(0), Done)];
  }

  /** Between the top of the turn and a delivered reply the store has granted the jobs. */
  function Granted(p: Process, event: Event): Process {
    match event
    case ReserveAnswered(Delivered(jobs, _), _) => p.(awaiting := Some(jobs))
    case _ => p
  }

  /** A whole turn: the moves of its top, a grant of the store if it ends with a reservation, and the moves of one branch. */
  lemma TurnIsMoves(p: Process, begun: Local, t: Local, results: seq<JoinResult>, backoffReady: bool,
                    answers: AttemptKey -> Answer, event: Event)
    requires p.awaiting == None && Tracks(p.local, p.config) && AreRunning(p.local, results)
    requires Begun(p.local, begun, results, backoffReady, answers)
    requires WorkerRuntime.Enabled(begun, p.config, event) && Selected(begun, t, p.config, event, true)
    ensures exists moves :: Leads(p, moves, p.(local := begun))
    ensures exists moves, q :: Leads(Granted(p.(local := begun), event), moves, q) && q.local == t && q.awaiting == None
  {
    hide Leads, Tracks, AreRunning, Begun, Selected, WorkerRuntime.Enabled;
    var top := BeginIsMoves(p, begun, results, backoffReady, answers);
    var branch, q := SelectIsMoves(Granted(p.(local := begun), event), t, event);
  }

  /** The guard of the reserve branch is that of the store's reservation: room for a job, no pause and no backing off. */
  lemma ReserveGuard(sys: System, p: Process, i: nat, now: int, record: string, tokens: seq<string>, at: int)
    requires p.awaiting == None && |tokens| == Capacity(p.local, p.config) && Tracks(p.local, p.config)
    requires ValidStep(Sent(sys), Reservation(p.config, Capacity(p.local, p.config), now, record, tokens))
    ensures ProcessEnabled(sys, p, StoreReserves(i, now, record, tokens))
       <==> |p.local.active| < p.config.concurrency && p.local.reserveSleep == None && !p.local.backingOff
    ensures WorkerRuntime.Enabled(p.local, p.config, ReserveAnswered(Undelivered(true), at))
       <==> |p.local.active| < p.config.concurrency && p.local.reserveSleep == None && !p.local.backingOff
  {
    hide ValidStep, Issued, After;
  }

  /** The `select!` always has a branch to wait for, and no guard shuts out an attempt: every running handler can be joined,
      heartbeats go on while an attempt is active, and room is used as soon as the worker neither pauses nor backs off. */
  lemma NeverStuck(w: Local, c: Config, answers: AttemptKey -> Answer, at: int)
    requires Tracks(w, c)
    ensures WorkerRuntime.Enabled(w, c, if w.backingOff then BackoffOver else ReapTick(Applied))
    ensures forall key, outcome | key in w.running :: WorkerRuntime.Enabled(w, c, HandlerJoined(Finished(key, outcome)))
    ensures w.active != map[] ==> WorkerRuntime.Enabled(w, c, HeartbeatTick(answers))
    ensures |w.active| < c.concurrency && !w.backingOff ==>
              WorkerRuntime.Enabled(w, c, if w.reserveSleep == None then ReserveAnswered(Undelivered(true), at) else ReserveSleepOver)
  {
  }
}
