/** How often an idle worker asks for jobs, and how many it asks for. */
module Pacing {
  import opened Wrappers
  import opened Policy
  import opened LuaNumbers
  import opened Queue
  import opened WorkerState
  import opened Hints
  import Scripts

  /** A reservation that brings no job, and the pause after it. */
  datatype Round = FoundNothing(nextScheduleAt: Option<int>, now: int) | Erred

  function AfterRound(w: Local, c: Config, round: Round): Local {
    match round
    case FoundNothing(next, now) => Slept(Replied(w, c, [], next, now), c)
    case Erred => Slept(ReserveFailed(w, c), c)
  }

  function AfterRounds(w: Local, c: Config, rounds: seq<Round>): Local
    decreases |rounds|
  {
    if rounds == [] then w else AfterRounds(AfterRound(w, c, rounds[0]), c, rounds[1..])
  }

  /** The poll delay doubles with every round without a job, up to the longest one. */
  lemma {:induction false} DelayDoubles(w: Local, c: Config, rounds: seq<Round>)
    requires Validated(c) && 0 < w.pollDelay <= c.pollMax
    ensures AfterRounds(w, c, rounds).pollDelay == Min(w.pollDelay * Pow(2, |rounds|), c.pollMax)
    decreases |rounds|
  {
    if rounds == [] {
      assert w.pollDelay * Pow(2, 0) == w.pollDelay;
    } else {
      var t, k := AfterRound(w, c, rounds[0]), |rounds| - 1;
      assert t.pollDelay == if 2 * w.pollDelay <= c.pollMax then 2 * w.pollDelay else c.pollMax;
      DelayDoubles(t, c, rounds[1..]);
      PowPositive(k);
      assert Pow(2, k + 1) == 2 * Pow(2, k);
      MulRegroup(w.pollDelay, 2, Pow(2, k));
      assert w.pollDelay * Pow(2, k + 1) == 2 * w.pollDelay * Pow(2, k);
      if 2 * w.pollDelay > c.pollMax {
        MulMonotone(c.pollMax, 2 * w.pollDelay, Pow(2, k));
        MulMonotone(1, Pow(2, k), c.pollMax);
      }
    }
  }

  lemma PowPositive(k: nat)
    ensures Pow(2, k) >= 1
  {
  }

  /** A worker starts with the shortest delay and with room for all its jobs, and goes back to that delay whenever it is
      given a job. */
  lemma DelayResets(w: Local, c: Config, grants: seq<Grant>, next: Option<int>, now: int, rounds: seq<Round>)
    requires Validated(c) && grants != []
    ensures Capacity(Initial(c), c) == c.concurrency && Initial(c).reserveSleep == None && !Initial(c).backingOff
    ensures AfterRounds(Initial(c), c, rounds).pollDelay == Min(c.pollMin * Pow(2, |rounds|), c.pollMax)
    ensures var t := Replied(w, c, grants, next, now);
            && t.reserveSleep == w.reserveSleep
            && AfterRounds(t, c, rounds).pollDelay == Min(c.pollMin * Pow(2, |rounds|), c.pollMax)
  {
    SpawnedAllPaced(w.(nextScheduleAt := next, pollDelay := c.pollMin), grants);
    DelayDoubles(Initial(c), c, rounds);
    DelayDoubles(Replied(w, c, grants, next, now), c, rounds);
    hide AfterRounds, Pow;
  }

  /** A pause for lack of work ends after the poll delay, or at the next schedule if that comes first; one after an error
      lasts the whole delay. Neither touches what the worker runs. */
  lemma PauseEnds(w: Local, c: Config, next: Option<int>, now: int)
    ensures var t := Replied(w, c, [], next, now);
            && t == w.(nextScheduleAt := next, reserveSleep := t.reserveSleep) && t.reserveSleep != None
            && (if next != None && now < next.value <= now + w.pollDelay then now + t.reserveSleep.value.duration == next.value
                else t.reserveSleep.value.duration == w.pollDelay)
    ensures var t := ReserveFailed(w, c);
            t == w.(pollDelay := t.pollDelay, reserveSleep := t.reserveSleep)
            && t.reserveSleep != None && t.reserveSleep.value.duration == w.pollDelay
  {
  }

  /** What the client makes of a hint. */
  function HintRead(hint: int): Option<int> {
    if hint == 0 then None else Some(hint)
  }

  /** An idle worker does not sleep through a schedule: unless the reported one is past by then, its pause is over when the
      first of the schedules the reservation has left, counted from the bound it searched, is due. */
  lemma WakesInTime(s: State, worker: string, at: int, capacity: nat, duration: int, key: string, record: string,
                    tokens: seq<string>, w: Local, c: Config, now: int)
    requires Validated(c) && Paced(w, c)
    requires Scripts.Reserve(s, worker, at, capacity, duration, key, record, tokens).1.Reserved?
    ensures var (t, reply) := Scripts.Reserve(s, worker, at, capacity, duration, key, record, tokens);
            var pause := Replied(w, c, [], HintRead(reply.nextScheduleAt), now).reserveSleep.value.duration;
            && 0 < pause <= w.pollDelay
            && (reply.nextScheduleAt != 0 && reply.nextScheduleAt > now ==>
                  forall j | j in t.scheduled && t.scheduled[j] > LuaValue(at) :: now + pause <= t.scheduled[j])
  {
    HintIsEarliest(s, worker, at, capacity, duration, key, record, tokens);
    PauseEnds(w, c, HintRead(Scripts.Reserve(s, worker, at, capacity, duration, key, record, tokens).1.nextScheduleAt), now);
    hide Scripts.Reserve, LuaValue;
  }

  /** A worker asks for all the room it has: with that many jobs it runs exactly as many as it may. */
  lemma FilledUp(w: Local, c: Config, grants: seq<Grant>, next: Option<int>, now: int)
    requires Tracks(w, c) && Fits(w, c, grants) && |grants| == Capacity(w, c)
    ensures |Replied(w, c, grants, next, now).active| == c.concurrency
  {
    if grants != [] {
      SpawnedCount(w.(nextScheduleAt := next, pollDelay := c.pollMin), c, grants);
    }
  }

  lemma {:induction false} SpawnedCount(w: Local, c: Config, grants: seq<Grant>)
    requires Tracks(w, c) && Fits(w, c, grants)
    ensures |SpawnedAll(w, grants).active| == |w.active| + |grants|
    decreases |grants|
  {
    if grants != [] {
      SpawnedTracks(w, c, grants[0]);
      FitsRest(w, c, grants);
      hide Tracks, Fits, Spawned;
      SpawnedCount(Spawned(w, grants[0]), c, grants[1..]);
    }
  }
}
