/** What one worker process keeps between two turns of its loop, and how each event changes it. */
module WorkerState {
  import opened Wrappers
  import opened Policy
  import opened Queue
  import opened Steps

  /** A lease attempt is known by its job and its token, exactly what a grant reports. */
  type AttemptKey = Grant

  /** What a handler returned: done, run me again (at a time, 0 for at once), failed for good, or an error to retry. */
  datatype Outcome = RunCompleted | RunAgain(at: int) | RunFailed | RunErrored

  /** What became of one command: applied, turned away by the fence, an error worth retrying, or one that is not. */
  datatype Answer = Applied | Mismatch | Transient | Fatal

  datatype ReserveSleep = ReserveSleep(duration: int, advance: bool)

  datatype Config = Config(
    id: string,
    concurrency: nat,
    leaseDuration: int,
    heartbeatInterval: int,
    reapInterval: int,
    pollMin: int,
    pollMax: int,
    policy: RetryPolicy)

  predicate Validated(c: Config) {
    && c.concurrency > 0 && c.leaseDuration > 0
    && 0 < c.heartbeatInterval < c.leaseDuration
    && c.reapInterval > 0
    && 0 < c.pollMin <= c.pollMax
  }

  /** `running` is the join set: the handlers that have not been joined, by attempt. The flag of an active attempt says
      whether it is still heartbeated. */
  datatype Local = Local(
    active: map<AttemptKey, bool>,
    pending: map<AttemptKey, Outcome>,
    running: multiset<AttemptKey>,
    pollDelay: int,
    reserveSleep: Option<ReserveSleep>,
    nextScheduleAt: Option<int>,
    backingOff: bool)

  function Initial(c: Config): Local {
    Local(map[], map[], multiset{}, c.pollMin, None, None, false)
  }

  /** The attempts a worker is responsible for are its running handlers and its unresolved results, each once,
      and they never exceed its concurrency. */
  ghost predicate Tracks(w: Local, c: Config) {
    && w.pending.Keys <= w.active.Keys
    && w.running == multiset(w.active.Keys - w.pending.Keys)
    && |w.active| <= c.concurrency
  }

  /** Every pause the loop takes before its next reservation is at most `pollMax`. */
  predicate Paced(w: Local, c: Config) {
    && c.pollMin <= w.pollDelay <= c.pollMax
    && (w.reserveSleep.Some? ==> w.reserveSleep.value.duration <= c.pollMax)
  }

  function Capacity(w: Local, c: Config): nat {
    if |w.active| <= c.concurrency then c.concurrency - |w.active| else 0
  }

  function NextPollDelay(current: int, max: int): int {
    Min(2 * current, max)
  }

  /** Until the next schedule, but never longer than the poll delay. */
  function SleepDuration(now: int, pollDelay: int, nextScheduleAt: Option<int>): int {
    match nextScheduleAt
    case Some(at) => if at > now then Min(at - now, pollDelay) else pollDelay
    case None => pollDelay
  }

  /** A handler task is joined: its result waits to be resolved. */
  function Joined(w: Local, key: AttemptKey, outcome: Outcome): Local {
    w.(running := w.running - multiset{key}, pending := w.pending[key := outcome])
  }

  /** One pending result after its completion command: gone, kept for another try, or lost with the whole worker. */
  function Resolved(w: Local, key: AttemptKey, answer: Answer): Local {
    match answer
    case Applied => w.(active := w.active - {key}, pending := w.pending - {key})
    case Mismatch => w.(active := w.active - {key}, pending := w.pending - {key})
    case Transient => w
    case Fatal => w.(pending := w.pending - {key})
  }

  /** A heartbeat that lost its lease marks the attempt; the attempt still counts until it joins and resolves. */
  function Beaten(w: Local, key: AttemptKey, answer: Answer): Local {
    if answer == Mismatch && key in w.active then w.(active := w.active[key := false]) else w
  }

  function Spawned(w: Local, grant: Grant): Local {
    w.(active := w.active[grant := true], running := w.running + multiset{grant})
  }

  function SpawnedAll(w: Local, grants: seq<Grant>): Local
    decreases |grants|
  {
    if grants == [] then w else SpawnedAll(Spawned(w, grants[0]), grants[1..])
  }

  /** What a reservation may deliver: no more than asked for, every attempt new and only once. */
  ghost predicate Fits(w: Local, c: Config, grants: seq<Grant>) {
    && |grants| <= Capacity(w, c)
    && (forall i | 0 <= i < |grants| :: grants[i] !in w.active)
    && (forall i, k | 0 <= i < k < |grants| :: grants[i] != grants[k])
  }

  /** The reservation's reply: jobs reset the poll delay; none starts a pause. */
  function Replied(w: Local, c: Config, grants: seq<Grant>, nextScheduleAt: Option<int>, now: int): Local {
    if grants != [] then SpawnedAll(w.(nextScheduleAt := nextScheduleAt, pollDelay := c.pollMin), grants)
    else
      w.(nextScheduleAt := nextScheduleAt,
         reserveSleep := Some(ReserveSleep(SleepDuration(now, w.pollDelay, nextScheduleAt), true)))
  }

  /** A reservation that hit a transient error: pause, and poll less often. */
  function ReserveFailed(w: Local, c: Config): Local {
    w.(reserveSleep := Some(ReserveSleep(w.pollDelay, false)), pollDelay := NextPollDelay(w.pollDelay, c.pollMax))
  }

  function Slept(w: Local, c: Config): Local
    requires w.reserveSleep.Some?
  {
    w.(reserveSleep := None,
       pollDelay := if w.reserveSleep.value.advance then NextPollDelay(w.pollDelay, c.pollMax) else w.pollDelay)
  }

  /** The command that resolves one result. */
  function CompletionOf(c: Config, key: AttemptKey, outcome: Outcome, now: int): Op {
    match outcome
    case RunCompleted => AckLease(key.job, c.id, key.token, now)
    case RunAgain(at) => CompleteLease(key.job, c.id, key.token, now, at)
    case RunFailed => FailLease(key.job, c.id, key.token, now, true, c.policy)
    case RunErrored => FailLease(key.job, c.id, key.token, now, false, c.policy)
  }

  lemma InitialTracks(c: Config)
    requires Validated(c)
    ensures Tracks(Initial(c), c) && Paced(Initial(c), c)
  {
  }

  lemma JoinedTracks(w: Local, c: Config, key: AttemptKey, outcome: Outcome)
    requires Tracks(w, c) && key in w.running
    ensures Tracks(Joined(w, key, outcome), c)
  {
    assert (w.active.Keys - w.pending.Keys) - {key} == w.active.Keys - Joined(w, key, outcome).pending.Keys;
  }

  lemma ResolvedTracks(w: Local, c: Config, key: AttemptKey, answer: Answer)
    requires Tracks(w, c) && key in w.pending && answer != Fatal
    ensures Tracks(Resolved(w, key, answer), c)
    ensures Paced(w, c) ==> Paced(Resolved(w, key, answer), c)
  {
    if answer != Transient {
      var t := Resolved(w, key, answer);
      assert t.active.Keys == w.active.Keys - {key} && t.pending.Keys == w.pending.Keys - {key};
      assert t.active.Keys - t.pending.Keys == w.active.Keys - w.pending.Keys;
    }
  }

  lemma BeatenTracks(w: Local, c: Config, key: AttemptKey, answer: Answer)
    requires Tracks(w, c)
    ensures Tracks(Beaten(w, key, answer), c)
    ensures Paced(w, c) ==> Paced(Beaten(w, key, answer), c)
  {
    var t := Beaten(w, key, answer);
    assert t.active.Keys == w.active.Keys;
  }

  lemma SpawnedTracks(w: Local, c: Config, grant: Grant)
    requires Tracks(w, c) && |w.active| < c.concurrency && grant !in w.active
    ensures Tracks(Spawned(w, grant), c)
    ensures |Spawned(w, grant).active| == |w.active| + 1
  {
    OneMoreActive(w.active, grant);
    OneMore(w.active.Keys - w.pending.Keys, grant);
    KeysAfter(w.active, w.pending.Keys, grant);
  }

  lemma OneMoreActive(active: map<AttemptKey, bool>, key: AttemptKey)
    requires key !in active
    ensures |active[key := true]| == |active| + 1
  {
    assert active[key := true].Keys == active.Keys + {key};
  }

  lemma KeysAfter(active: map<AttemptKey, bool>, done: set<AttemptKey>, key: AttemptKey)
    requires key !in active && done <= active.Keys
    ensures active[key := true].Keys - done == (active.Keys - done) + {key}
  {
  }

  lemma OneMore(keys: set<AttemptKey>, key: AttemptKey)
    requires key !in keys
    ensures multiset(keys + {key}) == multiset(keys) + multiset{key}
  {
  }

  lemma FitsRest(w: Local, c: Config, grants: seq<Grant>)
    requires Fits(w, c, grants) && grants != [] && |w.active| < c.concurrency
    requires |Spawned(w, grants[0]).active| == |w.active| + 1
    ensures Fits(Spawned(w, grants[0]), c, grants[1..])
  {
  }

  lemma {:induction false} SpawnedAllTracks(w: Local, c: Config, grants: seq<Grant>)
    requires Tracks(w, c) && Fits(w, c, grants)
    ensures Tracks(SpawnedAll(w, grants), c)
    decreases |grants|
  {
    if grants != [] {
      SpawnedTracks(w, c, grants[0]);
      FitsRest(w, c, grants);
      hide Tracks, Fits;
      SpawnedAllTracks(Spawned(w, grants[0]), c, grants[1..]);
    }
  }

  lemma {:induction false} SpawnedAllActive(w: Local, grants: seq<Grant>)
    ensures SpawnedAll(w, grants).pending == w.pending
    ensures forall key :: key in SpawnedAll(w, grants).active <==> key in w.active || key in grants
    ensures forall key | key in SpawnedAll(w, grants).active ::
              SpawnedAll(w, grants).active[key] == (key in grants || w.active[key])
    decreases |grants|
  {
    if grants != [] {
      SpawnedAllActive(Spawned(w, grants[0]), grants[1..]);
      assert grants == [grants[0]] + grants[1..];
    }
  }

  lemma {:induction false} SpawnedAllPaced(w: Local, grants: seq<Grant>)
    ensures SpawnedAll(w, grants).pollDelay == w.pollDelay
    ensures SpawnedAll(w, grants).reserveSleep == w.reserveSleep
    decreases |grants|
  {
    if grants != [] {
      SpawnedAllPaced(Spawned(w, grants[0]), grants[1..]);
    }
  }

  /** Whatever the reservation's reply, the worker keeps track and keeps its pace. */
  lemma RepliedTracks(w: Local, c: Config, grants: seq<Grant>, nextScheduleAt: Option<int>, now: int)
    requires Validated(c) && Tracks(w, c) && Paced(w, c) && Fits(w, c, grants)
    ensures Tracks(Replied(w, c, grants, nextScheduleAt, now), c)
    ensures Paced(Replied(w, c, grants, nextScheduleAt, now), c)
  {
    if grants != [] {
      var t := w.(nextScheduleAt := nextScheduleAt, pollDelay := c.pollMin);
      SpawnedAllTracks(t, c, grants);
      SpawnedAllPaced(t, grants);
    }
  }

  lemma ReserveFailedTracks(w: Local, c: Config)
    requires Validated(c) && Tracks(w, c) && Paced(w, c)
    ensures Tracks(ReserveFailed(w, c), c) && Paced(ReserveFailed(w, c), c)
  {
  }

  lemma SleptTracks(w: Local, c: Config)
    requires Validated(c) && Tracks(w, c) && Paced(w, c) && w.reserveSleep.Some?
    ensures Tracks(Slept(w, c), c) && Paced(Slept(w, c), c)
  {
  }
}
