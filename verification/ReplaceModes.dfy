/** Conditional rescheduling: in whatever order the requests come, the extreme activation time wins. */
module ReplaceModes {
  import opened Policy
  import opened Queue
  import opened Invariants
  import Scripts

  /** One request: when it was sent and the activation time it asks for. */
  datatype Ask = Ask(now: int, requested: int)

  predicate Waiting(s: State, job: string) {
    job in s.ready || job in s.scheduled
  }

  /** What the waiting job's activation time may become: never earlier than the moment of the request. */
  function Target(ask: Ask): int {
    TargetScore(ask.now, ask.requested)
  }

  function Extreme(mode: ReplaceMode, a: int, b: int): int {
    match mode
    case Always => b
    case IfEarlier => Min(a, b)
    case IfLater => Max(a, b)
  }

  /** The namespace after a series of requests for one job under one mode. */
  function AskAll(s: State, job: string, asks: seq<Ask>, mode: ReplaceMode): State
    decreases |asks|
  {
    if asks == [] then s
    else
      var last := |asks| - 1;
      Scripts.Enqueue(AskAll(s, job, asks[..last], mode), EnqueueScheduled, job, asks[last].now, asks[last].requested, mode).0
  }

  function ExtremeOf(mode: ReplaceMode, first: int, asks: seq<Ask>): int
    decreases |asks|
  {
    if asks == [] then first
    else Extreme(mode, ExtremeOf(mode, first, asks[..|asks| - 1]), Target(asks[|asks| - 1]))
  }

  lemma ReplaceScore(s: State, job: string, place: Place, score: int)
    requires Waiting(s, job) && OnePlaceAt(s, job) && (place == Ready || place == Scheduled)
    ensures var t := Scripts.Replace(s, job, place, score);
            Waiting(t, job) && OnePlaceAt(t, job) && Scripts.WaitingScore(t, job) == score
  {
    if PlaceOf(s, job) == Ready {
      if place == Ready {
      } else {
      }
    } else {
      if place == Ready {
      } else {
      }
    }
  }

  /** One request leaves the job waiting, at the extreme of its activation time and the requested one. */
  lemma AskScore(s: State, job: string, ask: Ask, mode: ReplaceMode)
    requires Waiting(s, job) && OnePlaceAt(s, job)
    ensures var t := Scripts.Enqueue(s, EnqueueScheduled, job, ask.now, ask.requested, mode).0;
            && Waiting(t, job) && OnePlaceAt(t, job)
            && Scripts.WaitingScore(t, job) == Extreme(mode, Scripts.WaitingScore(s, job), Target(ask))
  {
    assert Scripts.Enqueue(s, EnqueueScheduled, job, ask.now, ask.requested, mode).0
        == Scripts.Move(s, job, ask.now, ask.requested, mode).0;
    ReplaceScore(s, job, TargetPlace(ask.now, ask.requested), Target(ask));
    hide Scripts.Replace, Scripts.Enqueue;
  }

  /** A series of requests leaves the job at the extreme of them all: the minimum under `IfEarlier`, the maximum under
      `IfLater`. */
  lemma {:induction false} AsksFold(s: State, job: string, asks: seq<Ask>, mode: ReplaceMode)
    requires Waiting(s, job) && OnePlaceAt(s, job)
    ensures var t := AskAll(s, job, asks, mode);
            && Waiting(t, job) && OnePlaceAt(t, job)
            && Scripts.WaitingScore(t, job) == ExtremeOf(mode, Scripts.WaitingScore(s, job), asks)
    decreases |asks|
  {
    hide OnePlaceAt, Scripts.Enqueue;
    if asks != [] {
      AsksFold(s, job, asks[..|asks| - 1], mode);
      AskScore(AskAll(s, job, asks[..|asks| - 1], mode), job, asks[|asks| - 1], mode);
    }
  }

  predicate Bounds(mode: ReplaceMode, extreme: int, x: int) {
    match mode
    case Always => true
    case IfEarlier => extreme <= x
    case IfLater => extreme >= x
  }

  /** The extreme bounds the original time and every target, and is one of them. */
  lemma {:induction false} ExtremeBounds(mode: ReplaceMode, first: int, asks: seq<Ask>)
    ensures Bounds(mode, ExtremeOf(mode, first, asks), first)
    ensures forall i | 0 <= i < |asks| :: Bounds(mode, ExtremeOf(mode, first, asks), Target(asks[i]))
    ensures ExtremeOf(mode, first, asks) == first || exists ask :: ask in asks && ExtremeOf(mode, first, asks) == Target(ask)
    decreases |asks|
  {
    hide Target;
    if asks != [] {
      var rest, last := asks[..|asks| - 1], asks[|asks| - 1];
      ExtremeBounds(mode, first, rest);
      assert asks == rest + [last];
      assert last in asks && forall ask | ask in rest :: ask in asks;
    }
  }

  /** So the order of the requests does not matter, nor how often each is repeated. */
  lemma OrderIrrelevant(s: State, job: string, asks: seq<Ask>, others: seq<Ask>, mode: ReplaceMode)
    requires Waiting(s, job) && OnePlaceAt(s, job) && mode != Always
    requires forall ask :: ask in asks <==> ask in others
    ensures Waiting(AskAll(s, job, asks, mode), job) && Waiting(AskAll(s, job, others, mode), job)
    ensures Scripts.WaitingScore(AskAll(s, job, asks, mode), job) == Scripts.WaitingScore(AskAll(s, job, others, mode), job)
  {
    AsksFold(s, job, asks, mode);
    AsksFold(s, job, others, mode);
    var first := Scripts.WaitingScore(s, job);
    ExtremeBounds(mode, first, asks);
    ExtremeBounds(mode, first, others);
    hide OnePlaceAt, AskAll, ExtremeOf, Target;
    var a, b := ExtremeOf(mode, first, asks), ExtremeOf(mode, first, others);
    BoundBoth(mode, first, asks, others, a, b);
    BoundBoth(mode, first, others, asks, b, a);
  }

  lemma BoundBoth(mode: ReplaceMode, first: int, asks: seq<Ask>, others: seq<Ask>, a: int, b: int)
    requires forall ask | ask in asks :: ask in others
    requires a == first || exists ask :: ask in asks && a == Target(ask)
    requires Bounds(mode, b, first) && forall i | 0 <= i < |others| :: Bounds(mode, b, Target(others[i]))
    ensures Bounds(mode, b, a)
  {
    hide Target, Bounds;
  }
}
