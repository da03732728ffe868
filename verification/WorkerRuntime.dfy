/** The worker loop: the work at the top of every turn, and each branch of its `select!`. Replies of the store, finished
    handlers and the passing of time come in as arguments. */
module WorkerRuntime {
  import opened Wrappers
  import opened Queue
  import opened WorkerState

  /** What the join set reports for one handler task. */
  datatype JoinResult = Finished(key: AttemptKey, outcome: Outcome) | Panicked

  datatype ReserveReply = Delivered(jobs: seq<Grant>, nextScheduleAt: Option<int>) | Undelivered(recoverable: bool)

  datatype Event =
    | HandlerJoined(result: JoinResult)
    | HeartbeatTick(answers: AttemptKey -> Answer)
    | ReapTick(answer: Answer)
    | BackoffOver
    | ReserveAnswered(reply: ReserveReply, now: int)
    | ReserveSleepOver

  /** The guards of the branches. */
  ghost predicate Enabled(w: Local, c: Config, event: Event) {
    match event
    case HandlerJoined(result) => w.running != multiset{} && (result.Finished? ==> result.key in w.running)
    case HeartbeatTick(_) => w.active != map[]
    case ReapTick(_) => !w.backingOff
    case BackoffOver => w.backingOff
    case ReserveAnswered(reply, _) =>
      && Capacity(w, c) > 0 && w.reserveSleep.None? && !w.backingOff
      && (reply.Delivered? ==> Fits(w, c, reply.jobs))
    case ReserveSleepOver => Capacity(w, c) > 0 && w.reserveSleep.Some?
  }

  ghost predicate AreRunning(w: Local, results: seq<JoinResult>) {
    && (forall i | 0 <= i < |results| && results[i].Finished? :: results[i].key in w.running)
    && (forall i, k | 0 <= i < k < |results| && results[i].Finished? && results[k].Finished? ::
          results[i].key != results[k].key)
  }

  /** All finished handlers joined in order, up to the first that panicked. */
  function Drained(w: Local, results: seq<JoinResult>): (Local, bool)
    decreases |results|
  {
    if results == [] then (w, true)
    else if results[0].Panicked? then (w, false)
    else Drained(Joined(w, results[0].key, results[0].outcome), results[1..])
  }

  /** What resolving the pending results may lead to, in whatever order the map yields them. Nothing is lost: a result
      that is gone was applied or fenced off, any other is still pending and its attempt still active. */
  ghost predicate ResolvesTo(w: Local, t: Local, answers: AttemptKey -> Answer, retry: bool) {
    var gone := w.pending.Keys - t.pending.Keys;
    && t == w.(active := w.active - gone, pending := w.pending - gone)
    && (forall key | key in gone :: answers(key) == Applied || answers(key) == Mismatch)
    && (retry <==> t.pending != map[])
    && (retry ==> exists key | key in t.pending :: answers(key) == Transient)
  }

  /** What a round of heartbeats may lead to: exactly the attempts that were told so have lost their lease, and none
      stops being counted. */
  ghost predicate HeartbeatsTo(w: Local, t: Local, answers: AttemptKey -> Answer, result: Answer) {
    && t == w.(active := t.active) && t.active.Keys == w.active.Keys
    && (forall key | key in w.active :: t.active[key] != w.active[key] ==> w.active[key] && answers(key) == Mismatch)
    && (result == Applied ==>
          forall key | key in w.active && w.active[key] ::
            (answers(key) == Applied || answers(key) == Mismatch) && t.active[key] == (answers(key) == Applied))
    && (result != Applied ==>
          exists key | key in w.active && w.active[key] :: answers(key) == result && result != Mismatch)
  }

  /** What the top of a turn leaves: all finished handlers joined, then results resolved unless the worker backs off, and
      it backs off exactly if results remain. */
  ghost predicate Begun(w: Local, t: Local, results: seq<JoinResult>, backoffReady: bool, answers: AttemptKey -> Answer) {
    var (joined, calm) := Drained(w, results);
    && calm
    && if joined.backingOff && !backoffReady then t == joined
       else ResolvesTo(joined.(backingOff := t.backingOff), t, answers, t.backingOff)
  }

  /** What a branch leaves, and whether the worker goes on. */
  ghost predicate Selected(w: Local, t: Local, c: Config, event: Event, alive: bool) {
    match event
    case HandlerJoined(result) =>
      alive == result.Finished? && t == if alive then Joined(w, result.key, result.outcome) else w
    case HeartbeatTick(answers) =>
      exists result ::
        && HeartbeatsTo(w, t.(backingOff := w.backingOff), answers, result)
        && alive == (result != Fatal) && t.backingOff == (w.backingOff || result == Transient)
    case ReapTick(answer) =>
      alive == (answer == Applied || answer == Transient) && t == w.(backingOff := w.backingOff || answer == Transient)
    case BackoffOver => alive && t == w.(backingOff := false)
    case ReserveAnswered(Delivered(jobs, next), now) => alive && t == Replied(w, c, jobs, next, now)
    case ReserveAnswered(Undelivered(recoverable), _) => alive == recoverable && t == if alive then ReserveFailed(w, c) else w
    case ReserveSleepOver => alive && w.reserveSleep.Some? && t == Slept(w, c)
  }

  class Runtime {
    const config: Config
    var active: map<AttemptKey, bool>
    var pending: map<AttemptKey, Outcome>
    var running: multiset<AttemptKey>
    var pollDelay: int
    var reserveSleep: Option<ReserveSleep>
    var nextScheduleAt: Option<int>
    var backingOff: bool

    ghost function Contents(): Local
      reads this
    {
      Local(active, pending, running, pollDelay, reserveSleep, nextScheduleAt, backingOff)
    }

    ghost predicate Valid()
      reads this
    {
      Validated(config) && Tracks(Contents(), config) && Paced(Contents(), config)
    }

    /** A configuration that does not validate never gets this far. */
    constructor (c: Config)
      requires Validated(c)
      ensures Valid() && config == c && Contents() == Initial(c)
    {
      config := c;
      active, pending, running := map[], map[], multiset{};
      pollDelay, reserveSleep, nextScheduleAt, backingOff := c.pollMin, None, None, false;
      new;
      InitialTracks(c);
    }

    method RecordJoinResult(result: JoinResult) returns (alive: bool)
      requires Valid() && (result.Finished? ==> result.key in running)
      modifies this
      ensures Valid() && alive == result.Finished?
      ensures Contents() == if alive then Joined(old(Contents()), result.key, result.outcome) else old(Contents())
    {
      match result
      case Panicked => alive := false;
      case Finished(key, outcome) =>
        JoinedTracks(Contents(), config, key, outcome);
        running := running - multiset{key};
        pending := pending[key := outcome];
        alive := true;
    }

    method DrainJoinedJobs(results: seq<JoinResult>) returns (alive: bool)
      requires Valid() && AreRunning(Contents(), results)
      modifies this
      ensures Valid() && (Contents(), alive) == Drained(old(Contents()), results)
    {
      var i := 0;
      while i < |results|
        invariant 0 <= i <= |results|
        invariant Valid() && AreRunning(Contents(), results[i..])
        invariant Drained(Contents(), results[i..]) == Drained(old(Contents()), results)
      {
        DrainRest(Contents(), config, results[i..]);
        var ok := RecordJoinResult(results[i]);
        if !ok {
          return false;
        }
        i := i + 1;
      }
      return true;
    }

    /** One pending result: the completion command has been sent and answered. */
    method ResolveOne(key: AttemptKey, answer: Answer)
      requires key in pending
      modifies this
      ensures Contents() == Resolved(old(Contents()), key, answer)
    {
      var completed := pending[key];
      pending := pending - {key};
      match answer
      case Applied => active := active - {key};
      case Mismatch => active := active - {key};
      case Transient => pending := pending[key := completed];
      case Fatal =>
    }

    /** `retry` asks the loop to back off and try again. Not being alive means that the worker ends. */
    method ResolvePendingCompleted(answers: AttemptKey -> Answer) returns (alive: bool, retry: bool)
      requires Valid()
      modifies this
      ensures alive ==> Valid() && ResolvesTo(old(Contents()), Contents(), answers, retry)
      ensures !alive ==> exists key | key in old(pending) :: answers(key) == Fatal
    {
      hide Tracks, Paced, Validated, ResolvesTo, Without, Resolved;
      ghost var before := Contents();
      var todo := pending.Keys;
      ResolvesNothing(before);
      while todo != {}
        invariant Valid() && todo <= before.pending.Keys && todo == pending.Keys
        invariant Contents() == Without(before, before.pending.Keys - todo)
        invariant forall key | key in before.pending.Keys - todo :: answers(key) == Applied || answers(key) == Mismatch
        decreases |todo|
      {
        var key :| key in todo;
        if answers(key) != Fatal {
          ResolvedTracks(Contents(), config, key, answers(key));
        }
        ResolveOne(key, answers(key));
        ResolvedStep(before, todo, key, answers);
        if answers(key) == Fatal {
          return false, false;
        }
        if answers(key) == Transient {
          ResolvesSome(before, todo, answers, key);
          return true, true;
        }
        todo := todo - {key};
      }
      ResolvesAll(before, answers);
      return true, false;
    }

    method DisableHeartbeat(key: AttemptKey)
      requires Valid() && key in active
      modifies this
      ensures Valid() && Contents() == Beaten(old(Contents()), key, Mismatch)
    {
      BeatenTracks(Contents(), config, key, Mismatch);
      active := active[key := false];
    }

    /** One heartbeat for every attempt that still has its lease, as far as this worker knows. */
    method HeartbeatActive(answers: AttemptKey -> Answer) returns (result: Answer)
      requires Valid()
      modifies this
      ensures Valid() && HeartbeatsTo(old(Contents()), Contents(), answers, result)
    {
      hide Tracks, Paced, Validated, HeartbeatsTo, Beaten;
      ghost var before := Contents();
      var leases := set key | key in active && active[key];
      while leases != {}
        invariant Valid()
        invariant Beating(before, Contents(), answers, leases)
        decreases |leases|
      {
        ghost var now := Contents();
        var key :| key in leases;
        BeatOnce(before, now, answers, leases, key);
        match answers(key)
        case Applied => leases := leases - {key};
        case Mismatch =>
          DisableHeartbeat(key);
          leases := leases - {key};
        case Transient => return Transient;
        case Fatal => return Fatal;
      }
      BeatAll(before, Contents(), answers);
      return Applied;
    }

    method SpawnJob(lease: Grant)
      requires Validated(config) && Tracks(Contents(), config) && Paced(Contents(), config)
      requires |active| < config.concurrency && lease !in active
      modifies this
      ensures Valid() && Contents() == Spawned(old(Contents()), lease)
    {
      SpawnedTracks(Contents(), config, lease);
      active := active[lease := true];
      running := running + multiset{lease};
    }

    /** The loop over the jobs of one reservation. */
    method SpawnJobs(jobs: seq<Grant>)
      requires Valid() && Fits(Contents(), config, jobs)
      modifies this
      ensures Valid() && Contents() == SpawnedAll(old(Contents()), jobs)
    {
      var i := 0;
      while i < |jobs|
        invariant 0 <= i <= |jobs|
        invariant Valid() && Fits(Contents(), config, jobs[i..])
        invariant SpawnedAll(Contents(), jobs[i..]) == SpawnedAll(old(Contents()), jobs)
      {
        assert jobs[i..][0] == jobs[i] && jobs[i..][1..] == jobs[i + 1..];
        SpawnedTracks(Contents(), config, jobs[i]);
        FitsRest(Contents(), config, jobs[i..]);
        hide Tracks, Paced, Validated;
        SpawnJob(jobs[i]);
        i := i + 1;
      }
    }

    /** The reserve branch. */
    method TakeReservation(reply: ReserveReply, now: int) returns (alive: bool)
      requires Valid() && Capacity(Contents(), config) > 0
      requires reply.Delivered? ==> Fits(Contents(), config, reply.jobs)
      modifies this
      ensures Valid() && alive == (reply.Delivered? || reply.recoverable)
      ensures reply.Delivered? ==> Contents() == Replied(old(Contents()), config, reply.jobs, reply.nextScheduleAt, now)
      ensures reply.Undelivered? ==>
                Contents() == if alive then ReserveFailed(old(Contents()), config) else old(Contents())
    {
      hide Tracks, Fits, Paced, Validated;
      alive := true;
      match reply
      case Delivered(jobs, next) =>
        RepliedTracks(Contents(), config, jobs, next, now);
        nextScheduleAt := next;
        if jobs != [] {
          pollDelay := config.pollMin;
          ghost var paced := old(Contents()).(pollDelay := config.pollMin, nextScheduleAt := next);
          assert Contents() == paced;
          PaceOnly(old(Contents()), paced, config, jobs);
          SpawnJobs(jobs);
        } else {
          reserveSleep := Some(ReserveSleep(SleepDuration(now, pollDelay, nextScheduleAt), true));
        }
      case Undelivered(recoverable) =>
        if recoverable {
          ReserveFailedTracks(Contents(), config);
          reserveSleep := Some(ReserveSleep(pollDelay, false));
          pollDelay := NextPollDelay(pollDelay, config.pollMax);
        } else {
          alive := false;
        }
    }

    /** The branch that ends a pause between reservations. */
    method EndReserveSleep()
      requires Valid() && reserveSleep.Some?
      modifies this
      ensures Valid() && Contents() == Slept(old(Contents()), config)
    {
      SleptTracks(Contents(), config);
      hide Tracks, Paced, Validated;
      var advance := reserveSleep.value.advance;
      reserveSleep := None;
      if advance {
        pollDelay := NextPollDelay(pollDelay, config.pollMax);
      }
    }

    /** Results are resolved unless the worker backs off, and a transient error makes it back off. */
    method ResolveUnlessBackingOff(backoffReady: bool, answers: AttemptKey -> Answer) returns (alive: bool)
      requires Valid()
      modifies this
      ensures alive ==> Valid()
      ensures alive ==>
                if old(backingOff) && !backoffReady then Contents() == old(Contents())
                else ResolvesTo(old(Contents()).(backingOff := backingOff), Contents(), answers, backingOff)
    {
      hide Tracks, Paced, Validated, ResolvesTo;
      alive := true;
      if backoffReady {
        BackoffOnly(Contents(), config, false);
        backingOff := false;
        assert Contents() == old(Contents()).(backingOff := false);
      }
      if !backingOff {
        var retry;
        alive, retry := ResolvePendingCompleted(answers);
        if alive {
          ghost var resolved := Contents();
          BackoffOnly(resolved, config, retry);
          BackoffKept(old(Contents()).(backingOff := false), resolved, answers, retry);
          backingOff := retry;
          assert Contents() == resolved.(backingOff := retry);
        }
      }
    }

    /** The top of a turn: join what has finished, then resolve. */
    method BeginTurn(results: seq<JoinResult>, backoffReady: bool, answers: AttemptKey -> Answer) returns (alive: bool)
      requires Valid() && AreRunning(Contents(), results)
      modifies this
      ensures alive ==> Valid()
      ensures alive ==> Begun(old(Contents()), Contents(), results, backoffReady, answers)
    {
      hide Tracks, Paced, Validated, ResolvesTo, Drained;
      alive := DrainJoinedJobs(results);
      if alive {
        alive := ResolveUnlessBackingOff(backoffReady, answers);
      }
    }

    /** The rest of the turn: whichever enabled branch is ready first. */
    method Select(event: Event) returns (alive: bool)
      requires Valid() && Enabled(Contents(), config, event)
      modifies this
      ensures Valid()
      ensures Selected(old(Contents()), Contents(), config, event, alive)
    {
      hide Tracks, Paced, Validated, Fits, HeartbeatsTo, Joined, Replied, ReserveFailed, Slept;
      match event
      case HandlerJoined(result) => alive := RecordJoinResult(result);
      case HeartbeatTick(answers) =>
        var result := HeartbeatActive(answers);
        ghost var beaten := Contents();
        alive := result != Fatal;
        BackoffOnly(beaten, config, backingOff || result == Transient);
        backingOff := backingOff || result == Transient;
        BeatenOnly(old(Contents()), beaten, answers, result);
        assert Contents().(backingOff := old(backingOff)) == beaten;
      case ReapTick(answer) =>
        alive := answer == Applied || answer == Transient;
        BackoffOnly(Contents(), config, backingOff || answer == Transient);
        backingOff := backingOff || answer == Transient;
      case BackoffOver =>
        BackoffOnly(Contents(), config, false);
        backingOff := false;
        alive := true;
      case ReserveAnswered(reply, now) => alive := TakeReservation(reply, now);
      case ReserveSleepOver =>
        EndReserveSleep();
        alive := true;
    }
  }

  lemma BackoffOnly(w: Local, c: Config, backingOff: bool)
    requires Tracks(w, c) && Paced(w, c)
    ensures Tracks(w.(backingOff := backingOff), c) && Paced(w.(backingOff := backingOff), c)
  {
  }

  lemma BackoffKept(w: Local, t: Local, answers: AttemptKey -> Answer, retry: bool)
    requires ResolvesTo(w, t, answers, retry)
    ensures ResolvesTo(w.(backingOff := retry), t.(backingOff := retry), answers, retry)
  {
  }

  lemma BeatenOnly(w: Local, t: Local, answers: AttemptKey -> Answer, result: Answer)
    requires HeartbeatsTo(w, t, answers, result)
    ensures t.backingOff == w.backingOff
  {
  }

  /** The poll delay and the schedule hint have no part in what a worker tracks. */
  lemma PaceOnly(w: Local, t: Local, c: Config, jobs: seq<Grant>)
    requires Validated(c) && Tracks(w, c) && Paced(w, c) && Fits(w, c, jobs)
    requires t == w.(pollDelay := c.pollMin, nextScheduleAt := t.nextScheduleAt)
    ensures Tracks(t, c) && Paced(t, c) && Fits(t, c, jobs)
  {
  }

  /** In the middle of a round of heartbeats: `leases` are still to be sent. */
  ghost predicate Beating(w: Local, t: Local, answers: AttemptKey -> Answer, leases: set<AttemptKey>) {
    && t == w.(active := t.active) && t.active.Keys == w.active.Keys && leases <= w.active.Keys
    && (forall key | key in leases :: w.active[key])
    && (forall key | key in w.active :: t.active[key] == (w.active[key] && (key in leases || answers(key) != Mismatch)))
    && (forall key | key in w.active && w.active[key] && key !in leases ::
          answers(key) == Applied || answers(key) == Mismatch)
  }

  lemma BeatOnce(w: Local, t: Local, answers: AttemptKey -> Answer, leases: set<AttemptKey>, key: AttemptKey)
    requires Beating(w, t, answers, leases) && key in leases
    ensures key in t.active
    ensures answers(key) == Applied ==> Beating(w, t, answers, leases - {key})
    ensures answers(key) == Mismatch ==> Beating(w, Beaten(t, key, Mismatch), answers, leases - {key})
    ensures answers(key) == Transient || answers(key) == Fatal ==> HeartbeatsTo(w, t, answers, answers(key))
  {
  }

  lemma BeatAll(w: Local, t: Local, answers: AttemptKey -> Answer)
    requires Beating(w, t, answers, {})
    ensures HeartbeatsTo(w, t, answers, Applied)
  {
  }

  /** `w` without some of its pending attempts. */
  function Without(w: Local, keys: set<AttemptKey>): Local {
    w.(active := w.active - keys, pending := w.pending - keys)
  }

  lemma ResolvesNothing(w: Local)
    ensures w == Without(w, w.pending.Keys - w.pending.Keys)
  {
    assert w.active - {} == w.active && w.pending - {} == w.pending;
  }

  lemma ResolvedStep(w: Local, todo: set<AttemptKey>, key: AttemptKey, answers: AttemptKey -> Answer)
    requires key in todo && todo <= w.pending.Keys
    ensures var t := Resolved(Without(w, w.pending.Keys - todo), key, answers(key));
            if answers(key) == Applied || answers(key) == Mismatch then
              t == Without(w, w.pending.Keys - (todo - {key})) && t.pending.Keys == todo - {key}
            else answers(key) == Transient ==> t == Without(w, w.pending.Keys - todo)
  {
    var gone := w.pending.Keys - todo;
    assert w.pending.Keys - (todo - {key}) == gone + {key};
    assert w.active - gone - {key} == w.active - (gone + {key});
    assert w.pending - gone - {key} == w.pending - (gone + {key});
  }

  lemma ResolvesSome(w: Local, todo: set<AttemptKey>, answers: AttemptKey -> Answer, key: AttemptKey)
    requires key in todo && todo <= w.pending.Keys && answers(key) == Transient
    requires forall k | k in w.pending.Keys - todo :: answers(k) == Applied || answers(k) == Mismatch
    ensures ResolvesTo(w, Without(w, w.pending.Keys - todo), answers, true)
  {
    var t := Without(w, w.pending.Keys - todo);
    assert t.pending.Keys == todo;
    assert w.pending.Keys - t.pending.Keys == w.pending.Keys - todo;
  }

  lemma ResolvesAll(w: Local, answers: AttemptKey -> Answer)
    requires forall k | k in w.pending.Keys - {} :: answers(k) == Applied || answers(k) == Mismatch
    ensures ResolvesTo(w, Without(w, w.pending.Keys - {}), answers, false)
  {
    var t := Without(w, w.pending.Keys - {});
    assert t.pending.Keys == {};
    assert w.pending.Keys - t.pending.Keys == w.pending.Keys - {};
  }

  lemma DrainRest(w: Local, c: Config, results: seq<JoinResult>)
    requires Tracks(w, c) && AreRunning(w, results) && results != []
    ensures results[0].Finished? ==> AreRunning(Joined(w, results[0].key, results[0].outcome), results[1..])
  {
    if results[0].Finished? {
      forall i | 0 <= i < |results[1..]| && results[1..][i].Finished?
        ensures results[1..][i].key in Joined(w, results[0].key, results[0].outcome).running
      {
        assert results[1..][i] == results[i + 1];
      }
    }
  }

  /** Every result is pending with its outcome, and what was pending still is. */
  ghost predicate Keeps(w: Local, t: Local, results: seq<JoinResult>) {
    && (forall i | 0 <= i < |results| ::
          results[i].Finished? && results[i].key in t.pending && t.pending[results[i].key] == results[i].outcome)
    && (forall key | key in w.pending :: key in t.pending && t.pending[key] == w.pending[key])
  }

  /** Joining loses no result: every finished handler before a panic is pending with its outcome, and what was pending
      still is. */
  lemma {:induction false} DrainKeepsResults(w: Local, c: Config, results: seq<JoinResult>)
    requires Tracks(w, c) && AreRunning(w, results) && Drained(w, results).1
    ensures Drained(w, results).0.active == w.active && Keeps(w, Drained(w, results).0, results)
    decreases |results|
  {
    if results != [] {
      hide *;
      DrainedStep(w, results);
      JoinedTracks(w, c, results[0].key, results[0].outcome);
      DrainRest(w, c, results);
      RunningNotPending(w, c, results[0].key);
      DrainKeepsResults(Joined(w, results[0].key, results[0].outcome), c, results[1..]);
      KeptStep(w, Drained(w, results).0, results);
    } else {
      NothingDrained(w);
    }
  }

  lemma RunningNotPending(w: Local, c: Config, key: AttemptKey)
    requires Tracks(w, c) && key in w.running
    ensures key !in w.pending
  {
  }

  lemma NothingDrained(w: Local)
    ensures Drained(w, []).0.active == w.active && Keeps(w, Drained(w, []).0, [])
  {
  }

  lemma DrainedStep(w: Local, results: seq<JoinResult>)
    requires results != [] && AreRunning(w, results) && Drained(w, results).1
    ensures results[0].Finished? && results[0].key in w.running
    ensures Drained(w, results) == Drained(Joined(w, results[0].key, results[0].outcome), results[1..])
    ensures Joined(w, results[0].key, results[0].outcome).active == w.active
  {
  }

  lemma KeptStep(w: Local, t: Local, results: seq<JoinResult>)
    requires results != [] && AreRunning(w, results) && results[0].Finished?
    requires results[0].key !in w.pending
    requires Keeps(Joined(w, results[0].key, results[0].outcome), t, results[1..])
    ensures Keeps(w, t, results)
  {
    var w1 := Joined(w, results[0].key, results[0].outcome);
    assert results[0].key in w1.pending;
    assert forall i | 0 < i < |results| :: results[i] == results[1..][i - 1];
  }
}
