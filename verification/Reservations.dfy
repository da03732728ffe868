/** What a reservation takes, in which order, and what it conserves. */
module Reservations {
  import opened Wrappers
  import opened SortedSets
  import opened Codec
  import opened Queue
  import opened Invariants
  import opened Coherence
  import opened ReservationSpec
  import Scripts

  /** The order of the eligible jobs, spelled out. */
  lemma EligibleOrder(s: State, now: int, a: string, b: string)
    requires a in Eligible(s, now) && b in Eligible(s, now)
    ensures Before(Eligible(s, now), a, b) <==>
            || ActivationTime(s, a) < ActivationTime(s, b)
            || (ActivationTime(s, a) == ActivationTime(s, b) && a in s.ready && b !in s.ready)
            || (ActivationTime(s, a) == ActivationTime(s, b) && (a in s.ready <==> b in s.ready) && LexBefore(a, b))
  {
    hide LexBefore;
  }

  lemma ScheduledApartIsClean(s: State, now: int)
    requires ScheduledApart(s)
    ensures Scripts.DropDuplicates(s, now) == s
  {
  }

  /** Comparing the two heads finds the first of all eligible jobs. */
  lemma PickIsFirst(s: State, now: int)
    requires ScheduledApart(s)
    ensures var pick := Scripts.PickNext(s.ready, UpTo(s.scheduled, now));
            && (pick == Scripts.NoWork <==> Eligible(s, now) == map[])
            && (pick != Scripts.NoWork ==> pick.job == First(Eligible(s, now)))
            && (pick.FromReady? ==> pick.job in s.ready)
            && (pick.FromScheduled? ==> pick.job in UpTo(s.scheduled, now) && pick.job !in s.ready)
  {
    var due := UpTo(s.scheduled, now);
    var e := Eligible(s, now);
    var pick := Scripts.PickNext(s.ready, due);
    if pick == Scripts.NoWork {
      assert e.Keys == {};
    } else {
      assert pick.job in e;
      forall k | k in e && k != pick.job ensures Before(e, pick.job, k) {
        HeadBeforeOthers(s, now, k);
      }
      FirstUnique(e, pick.job, First(e));
    }
  }

  lemma HeadBeforeOthers(s: State, now: int, k: string)
    requires ScheduledApart(s)
    requires k in Eligible(s, now)
    requires var pick := Scripts.PickNext(s.ready, UpTo(s.scheduled, now)); pick != Scripts.NoWork && k != pick.job
    ensures var pick := Scripts.PickNext(s.ready, UpTo(s.scheduled, now));
            pick.job in Eligible(s, now) && Before(Eligible(s, now), pick.job, k)
  {
    hide LexBefore;
    var due := UpTo(s.scheduled, now);
    if k in s.ready {
      assert k == First(s.ready) || Before(s.ready, First(s.ready), k);
    } else {
      assert k in due;
      assert k == First(due) || Before(due, First(due), k);
    }
  }

  lemma EligibleWithout(s: State, t: State, now: int, job: string)
    requires ScheduledApart(s)
    requires t.ready == s.ready - {job} && t.scheduled == s.scheduled - {job}
    ensures Eligible(t, now) == Eligible(s, now) - {job}
  {
    UpToWithout(s.scheduled, now, job);
    hide UpTo;
    var due, rest := UpTo(s.scheduled, now), UpTo(t.scheduled, now);
    assert forall j :: j in Eligible(t, now) <==> j in Eligible(s, now) && j != job;
  }

  lemma TakeRemoves(s: State, now: int)
    requires ScheduledApart(s) && Eligible(s, now) != map[]
    ensures var pick := Scripts.PickNext(s.ready, UpTo(s.scheduled, now));
            var t := Scripts.Take(s, pick);
            && pick != Scripts.NoWork
            && t == s.(ready := s.ready - {pick.job}, scheduled := s.scheduled - {pick.job})
  {
    PickIsFirst(s, now);
    var pick := Scripts.PickNext(s.ready, UpTo(s.scheduled, now));
    hide First, Scripts.PickNext, Eligible;
    match pick
    case FromReady(job) => assert s.scheduled - {job} == s.scheduled;
    case FromScheduled(job) => assert s.ready - {job} == s.ready;
  }

  lemma EligibleAfterLease(s: State, now: int, worker: string, token: string, deadline: int)
    requires ScheduledApart(s) && Eligible(s, now) != map[]
    ensures var job := First(Eligible(s, now));
            var pick := Scripts.PickNext(s.ready, UpTo(s.scheduled, now));
            var t := Scripts.Lease(Scripts.Take(s, pick), job, worker, token, deadline);
            && pick != Scripts.NoWork && pick.job == job
            && Eligible(t, now) == Eligible(s, now) - {job}
            && t.ready == s.ready - {job} && t.scheduled == s.scheduled - {job}
            && ScheduledApart(t)
  {
    PickIsFirst(s, now);
    TakeRemoves(s, now);
    hide First, Scripts.PickNext, PackLease, Eligible, Scripts.Take;
    var pick := Scripts.PickNext(s.ready, UpTo(s.scheduled, now));
    var t := Scripts.Lease(Scripts.Take(s, pick), pick.job, worker, token, deadline);
    EligibleWithout(s, t, now, pick.job);
    assert forall j | j in t.scheduled :: j in s.scheduled && j != pick.job;
  }

  /** The state after the first round of a reservation that finds work and a token. */
  function AfterRound(s: State, job: string, worker: string, token: string, deadline: int): State {
    Scripts.Lease(s, job, worker, token, deadline).(ready := s.ready - {job}, scheduled := s.scheduled - {job})
  }

  lemma TakesNothing(s: State, worker: string, deadline: int)
    ensures Takes(s, s, [], [], [], worker, deadline, [])
  {
    assert s.ready - {} == s.ready && s.scheduled - {} == s.scheduled;
  }

  /** One round puts its job in front of what the later rounds take. */
  lemma TakesStep(s: State, s1: State, t: State, job: string, token: string, grants: seq<Grant>, taken: seq<string>,
                  leased: seq<string>, worker: string, deadline: int, tokens: seq<string>)
    requires |leased| == |tokens| && job !in leased
    requires s1 == AfterRound(s, job, worker, token, deadline)
    requires Takes(s1, t, grants, taken, leased, worker, deadline, tokens)
    ensures Takes(s, t, [Grant(job, token)] + grants, [job] + taken, [job] + leased, worker, deadline, [token] + tokens)
  {
    hide PackLease, Assigned, Members, Records;
    LeasedStep(s.leased, job, deadline, t.leased, leased);
    RecordsStep(s.leaseMeta, job, worker, token, t.leaseMeta, leased, tokens);
    WithoutStep(s.ready, job, taken);
    WithoutStep(s.scheduled, job, taken);
    CounterStep(s.workerLeases, worker);
  }

  lemma LeasedStep(before: ZSet, job: string, deadline: int, after: ZSet, leased: seq<string>)
    requires job !in leased
    requires Assigned(before[job := deadline], after, leased, seq(|leased|, _ => deadline))
    ensures Assigned(before, after, [job] + leased, seq(|[job] + leased|, _ => deadline))
  {
    hide Assigned;
    assert [deadline] + seq(|leased|, _ => deadline) == seq(|[job] + leased|, _ => deadline);
    AssignedStep(before, job, deadline, after, leased, seq(|leased|, _ => deadline));
  }

  lemma RecordsStep(before: map<string, string>, job: string, worker: string, token: string, after: map<string, string>,
                    leased: seq<string>, tokens: seq<string>)
    requires |leased| == |tokens| && job !in leased
    requires Assigned(before[job := PackLease(worker, token)], after, leased, Records(worker, tokens))
    ensures Assigned(before, after, [job] + leased, Records(worker, [token] + tokens))
  {
    hide Assigned, PackLease;
    assert [PackLease(worker, token)] + Records(worker, tokens) == Records(worker, [token] + tokens);
    AssignedStep(before, job, PackLease(worker, token), after, leased, Records(worker, tokens));
  }

  lemma WithoutStep(z: ZSet, job: string, taken: seq<string>)
    ensures z - {job} - Members(taken) == z - Members([job] + taken)
  {
    assert Members([job] + taken) == {job} + Members(taken);
  }

  lemma CounterStep(counters: map<string, int>, worker: string)
    ensures Increment(counters, worker) - {worker} == counters - {worker}
    ensures Counter(Increment(counters, worker), worker) == Counter(counters, worker) + 1
  {
  }

  lemma RankedRest(z: ZSet)
    requires z != map[]
    ensures Ranked(z - {First(z)}) == Ranked(z)[1..] && First(z) == Ranked(z)[0] && First(z) !in Ranked(z)[1..]
  {
    RankedUnfold(z);
    RankedMembers(z - {First(z)});
  }

  lemma TakesFirstNone(s: State, order: seq<string>, worker: string, capacity: nat, deadline: int, tokens: seq<string>)
    requires capacity == 0 || order == []
    ensures TakesFirst(s, (s, []), order, worker, capacity, deadline, tokens)
  {
    TakesNothing(s, worker, deadline);
    hide Takes;
    assert order[..0] == [] && tokens[..0] == [];
  }

  lemma TakesFirstNoToken(s: State, order: seq<string>, worker: string, capacity: nat, deadline: int)
    requires capacity > 0 && order != []
    ensures TakesFirst(s, (s.(ready := s.ready - {order[0]}, scheduled := s.scheduled - {order[0]}), []), order, worker,
                       capacity, deadline, [])
  {
    assert order[..1] == [order[0]] && order[..0] == [];
    assert Members([order[0]]) == {order[0]};
    var none: seq<string> := [];
    assert none[..0] == [];
    assert Records(worker, []) == [];
  }

  lemma TakesFirstStep(s: State, s1: State, r: (State, seq<Grant>), order: seq<string>, worker: string, capacity: nat,
                       deadline: int, tokens: seq<string>)
    requires capacity > 0 && order != [] && tokens != [] && order[0] !in order[1..]
    requires s1 == AfterRound(s, order[0], worker, tokens[0], deadline)
    requires TakesFirst(s1, r, order[1..], worker, capacity - 1, deadline, tokens[1..])
    ensures TakesFirst(s, (r.0, [Grant(order[0], tokens[0])] + r.1), order, worker, capacity, deadline, tokens)
  {
    hide Takes, Scripts.Lease;
    var wanted := Least(capacity - 1, |order| - 1);
    var granted := Least(wanted, |tokens| - 1);
    var taken := Least(wanted, |tokens|);
    assert [order[0]] + order[1..][..granted] == order[..granted + 1];
    assert [order[0]] + order[1..][..taken] == order[..taken + 1];
    assert [tokens[0]] + tokens[1..][..granted] == tokens[..granted + 1];
    assert order[0] !in order[1..][..granted];
    TakesStep(s, s1, r.0, order[0], tokens[0], r.1, order[1..][..taken], order[1..][..granted], worker, deadline,
              tokens[1..][..granted]);
  }

  lemma Round(s: State, worker: string, now: int, capacity: nat, deadline: int, tokens: seq<string>)
    requires ScheduledApart(s) && capacity > 0 && Eligible(s, now) != map[]
    ensures var job := First(Eligible(s, now));
            var r := Scripts.GrantLoop(s, worker, now, capacity, deadline, tokens);
            if tokens == [] then
              r == (s.(ready := s.ready - {job}, scheduled := s.scheduled - {job}), [])
            else
              var s1 := AfterRound(s, job, worker, tokens[0], deadline);
              var next := Scripts.GrantLoop(s1, worker, now, capacity - 1, deadline, tokens[1..]);
              && ScheduledApart(s1) && Eligible(s1, now) == Eligible(s, now) - {job}
              && r == (next.0, [Grant(job, tokens[0])] + next.1)
  {
    Scripts.GrantLoopUnfold(s, worker, now, capacity, deadline, tokens);
    ScheduledApartIsClean(s, now);
    PickIsFirst(s, now);
    TakeRemoves(s, now);
    hide Eligible, First, Scripts.GrantLoop, Scripts.PickNext, Scripts.DropDuplicates, Scripts.Lease, Scripts.Take,
         ScheduledApart;
    if tokens != [] {
      EligibleAfterLease(s, now, worker, tokens[0], deadline);
      LeaseCommutes(s, First(Eligible(s, now)), worker, tokens[0], deadline);
    }
  }

  lemma NoRound(s: State, worker: string, now: int, capacity: nat, deadline: int, tokens: seq<string>)
    requires ScheduledApart(s) && (capacity == 0 || Eligible(s, now) == map[])
    ensures Scripts.GrantLoop(s, worker, now, capacity, deadline, tokens) == (s, [])
  {
    Scripts.GrantLoopUnfold(s, worker, now, capacity, deadline, tokens);
    ScheduledApartIsClean(s, now);
    PickIsFirst(s, now);
    hide Eligible, First, Scripts.GrantLoop, Scripts.PickNext, Scripts.DropDuplicates;
  }

  /** The merge loop refines the specification, for any capacity and any number of tokens. */
  lemma {:induction false} GrantLoopTakesFirst(s: State, worker: string, now: int, capacity: nat, deadline: int,
                                               tokens: seq<string>)
    requires ScheduledApart(s)
    ensures TakesFirst(s, Scripts.GrantLoop(s, worker, now, capacity, deadline, tokens), Ranked(Eligible(s, now)),
                       worker, capacity, deadline, tokens)
    decreases capacity
  {
    hide Eligible, Ranked, First, Scripts.GrantLoop, TakesFirst, AfterRound;
    var e := Eligible(s, now);
    if capacity == 0 || e == map[] {
      NoRound(s, worker, now, capacity, deadline, tokens);
      TakesFirstNone(s, Ranked(e), worker, capacity, deadline, tokens);
    } else {
      Round(s, worker, now, capacity, deadline, tokens);
      RankedRest(e);
      if tokens == [] {
        TakesFirstNoToken(s, Ranked(e), worker, capacity, deadline);
      } else {
        var s1 := AfterRound(s, First(e), worker, tokens[0], deadline);
        GrantLoopTakesFirst(s1, worker, now, capacity - 1, deadline, tokens[1..]);
        TakesFirstStep(s, s1, Scripts.GrantLoop(s1, worker, now, capacity - 1, deadline, tokens[1..]), Ranked(e), worker,
                       capacity, deadline, tokens);
      }
    }
  }

  lemma LeaseCommutes(s: State, job: string, worker: string, token: string, deadline: int)
    ensures Scripts.Lease(s.(ready := s.ready - {job}, scheduled := s.scheduled - {job}), job, worker, token, deadline)
         == AfterRound(s, job, worker, token, deadline)
  {
    hide PackLease, Increment;
  }

  lemma TakenMembers(z: ZSet, n: nat)
    requires n <= |z|
    ensures Members(Ranked(z)[..n]) <= z.Keys
    ensures n == |z| ==> Members(Ranked(z)[..n]) == z.Keys
  {
    RankedMembers(z);
    forall j | j in Ranked(z)[..n] ensures j in z {
      assert j in Ranked(z);
    }
    if n == |z| {
      assert Ranked(z)[..n] == Ranked(z);
    }
  }

  lemma GrantLoopInOrder(s: State, worker: string, now: int, capacity: nat, deadline: int, tokens: seq<string>)
    requires ScheduledApart(s) && |tokens| >= capacity
    ensures var (t, grants) := Scripts.GrantLoop(s, worker, now, capacity, deadline, tokens);
            FirstEligible(s, t, grants, worker, now, capacity, deadline, tokens)
  {
    GrantLoopTakesFirst(s, worker, now, capacity, deadline, tokens);
    hide Eligible, Ranked, Scripts.GrantLoop, Assigned, Records, Members;
    var r := Scripts.GrantLoop(s, worker, now, capacity, deadline, tokens);
    var n := Least(capacity, |Eligible(s, now)|);
    TakenAll(s, r.0, now, n);
    assert JobsOf(r.1) == Ranked(Eligible(s, now))[..n];
  }

  /** The whole script, for a worker whose policy the namespace accepts: the worker is registered, then the first
      eligible jobs are granted. A job is eligible afterwards only if it was before. */
  lemma ReserveTakesFirst(s: State, worker: string, now: int, capacity: nat, duration: int, policyKey: string,
                          record: string, tokens: seq<string>)
    requires ScheduledApart(s) && |tokens| >= capacity
    requires s.policy == None || s.policy == Some(policyKey)
    ensures var (t, reply) := Scripts.Reserve(s, worker, now, capacity, duration, policyKey, record, tokens);
            && reply.Reserved?
            && FirstEligible(Scripts.Register(s, worker, now, policyKey, record), t, reply.grants, worker, now, capacity,
                             now + duration, tokens)
    ensures Eligible(Scripts.Register(s, worker, now, policyKey, record), now) == Eligible(s, now)
  {
    hide *;
    RegisterKeepsWaiting(s, worker, now, policyKey, record);
    ReserveIsLoop(s, worker, now, capacity, duration, policyKey, record, tokens);
    GrantLoopInOrder(Scripts.Register(s, worker, now, policyKey, record), worker, now, capacity, now + duration, tokens);
  }

  lemma RegisterKeepsWaiting(s: State, worker: string, now: int, policyKey: string, record: string)
    ensures var s0 := Scripts.Register(s, worker, now, policyKey, record);
            Eligible(s0, now) == Eligible(s, now) && (ScheduledApart(s) ==> ScheduledApart(s0))
  {
  }

  lemma ReserveIsLoop(s: State, worker: string, now: int, capacity: nat, duration: int, policyKey: string,
                      record: string, tokens: seq<string>)
    requires s.policy == None || s.policy == Some(policyKey)
    ensures var s0 := Scripts.Register(s, worker, now, policyKey, record);
            var r := Scripts.GrantLoop(s0, worker, now, capacity, now + duration, tokens);
            Scripts.Reserve(s, worker, now, capacity, duration, policyKey, record, tokens)
            == (r.0, Reserved(r.1, Scripts.NextSchedule(r.0.scheduled, now)))
  {
    hide Scripts.GrantLoop, Scripts.NextSchedule, Scripts.Register;
  }

  lemma TakenAll(s: State, t: State, now: int, n: nat)
    requires n <= |Eligible(s, now)|
    ensures var taken := Members(Ranked(Eligible(s, now))[..n]);
            n == |Eligible(s, now)| && t.ready == s.ready - taken && t.scheduled == s.scheduled - taken
            ==> Eligible(t, now) == map[]
  {
    TakenMembers(Eligible(s, now), n);
    var taken := Members(Ranked(Eligible(s, now))[..n]);
    hide Members, Ranked;
    if n == |Eligible(s, now)| && t.ready == s.ready - taken && t.scheduled == s.scheduled - taken {
      assert Eligible(t, now).Keys == {};
    }
  }

  /** With a token for every job taken, the jobs that are not terminal stay the same. */
  lemma ReserveConserves(s: State, worker: string, now: int, capacity: nat, deadline: int, tokens: seq<string>)
    requires OnePlace(s) && |tokens| >= Least(capacity, |Eligible(s, now)|)
    ensures Live(Scripts.GrantLoop(s, worker, now, capacity, deadline, tokens).0) == Live(s)
  {
    PlacesDisjoint(s);
    var wanted := Least(capacity, |Eligible(s, now)|);
    hide Ranked, Scripts.GrantLoop, Live, Eligible, OnePlace, Members;
    LoopLive(s, worker, now, capacity, deadline, tokens, wanted, wanted);
  }

  /** Otherwise the first job without a token is lost, and no other. */
  lemma ReserveLosesOne(s: State, worker: string, now: int, capacity: nat, deadline: int, tokens: seq<string>)
    requires OnePlace(s) && |tokens| < Least(capacity, |Eligible(s, now)|)
    ensures var lost := Ranked(Eligible(s, now))[|tokens|];
            && lost in Live(s)
            && Live(Scripts.GrantLoop(s, worker, now, capacity, deadline, tokens).0) == Live(s) - {lost}
  {
    PlacesDisjoint(s);
    hide Ranked, Scripts.GrantLoop, Live, Eligible, OnePlace, Members;
    LoopLive(s, worker, now, capacity, deadline, tokens, |tokens|, |tokens| + 1);
    NextMember(Eligible(s, now), |tokens|);
  }

  /** So the number of tokens is load-bearing: a reservation conserves the jobs if and only if there is a token for each
      job it takes. */
  lemma ReserveConservesIff(s: State, worker: string, now: int, capacity: nat, deadline: int, tokens: seq<string>)
    requires OnePlace(s)
    ensures Live(Scripts.GrantLoop(s, worker, now, capacity, deadline, tokens).0) == Live(s)
       <==> |tokens| >= Least(capacity, |Eligible(s, now)|)
  {
    hide *;
    if |tokens| >= Least(capacity, |Eligible(s, now)|) {
      ReserveConserves(s, worker, now, capacity, deadline, tokens);
    } else {
      ReserveLosesOne(s, worker, now, capacity, deadline, tokens);
    }
  }

  lemma NextMember(z: ZSet, n: nat)
    requires n < |z|
    ensures Members(Ranked(z)[..n + 1]) == Members(Ranked(z)[..n]) + {Ranked(z)[n]}
    ensures Ranked(z)[n] !in Members(Ranked(z)[..n]) && Ranked(z)[n] in z
  {
    RankedMembers(z);
    hide Ranked, Members;
    assert Ranked(z)[n] in Ranked(z);
    assert Ranked(z)[..n + 1] == Ranked(z)[..n] + [Ranked(z)[n]];
    MembersAppend(Ranked(z)[..n], Ranked(z)[n]);
    if Ranked(z)[n] in Members(Ranked(z)[..n]) {
      var i := PositionOf(Ranked(z)[..n], Ranked(z)[n]);
      RankedDistinct(z, i, n);
    }
  }

  lemma MembersAppend(order: seq<string>, last: string)
    ensures Members(order + [last]) == Members(order) + {last}
  {
  }

  lemma MembersCount(order: seq<string>)
    requires forall i, k | 0 <= i < k < |order| :: order[i] != order[k]
    ensures |Members(order)| == |order|
  {
    if order == [] {
      assert Members(order) == {};
    } else {
      var front, last := order[..|order| - 1], order[|order| - 1];
      MembersCount(front);
      assert order == front + [last];
      MembersAppend(front, last);
      hide Members;
      assert last !in Members(front) by {
        MembersIn(front, last);
      }
    }
  }

  lemma MembersIn(order: seq<string>, j: string)
    ensures j in Members(order) <==> j in order
  {
  }

  /** Members that come before `j` in the order are ahead of it. */
  lemma FirstAhead(z: ZSet, j: string, n: nat)
    requires j in z && n <= |z| && j !in Ranked(z)[..n]
    ensures n < |z| && Members(Ranked(z)[..n]) <= Ahead(z, j) && |Members(Ranked(z)[..n])| == n
  {
    RankIsPosition(z, j);
    RankedMembers(z);
    var order, p := Ranked(z), |Ahead(z, j)|;
    hide Ranked, Ahead, LexBefore;
    var got := order[..n];
    BeyondPrefix(order, p, n);
    forall i, k | 0 <= i < k < n ensures got[i] != got[k] {
      if order[i] == order[k] {
        RankedDistinct(z, i, k);
      }
    }
    MembersCount(got);
    forall m | m in Members(got) ensures m in Ahead(z, j) {
      MembersIn(got, m);
      var i :| 0 <= i < n && got[i] == m;
      RankedSorted(z, i, p);
      InAhead(z, m, j);
    }
  }

  lemma InAhead(z: ZSet, m: string, j: string)
    requires m in z && j in z
    ensures m in Ahead(z, j) <==> Before(z, m, j)
  {
  }

  lemma BeyondPrefix(order: seq<string>, p: nat, n: nat)
    requires p < |order| && n <= |order| && order[p] !in order[..n]
    ensures n <= p
  {
  }

  lemma {:induction false} SubsetSize(x: set<string>, y: set<string>)
    requires x <= y
    ensures |x| <= |y|
    decreases |x|
  {
    if x != {} {
      var e :| e in x;
      SubsetSize(x - {e}, y - {e});
    }
  }

  lemma PositionOf(order: seq<string>, j: string) returns (i: nat)
    requires j in Members(order)
    ensures i < |order| && order[i] == j
  {
    i :| i < |order| && order[i] == j;
  }

  lemma LoopLive(s: State, worker: string, now: int, capacity: nat, deadline: int, tokens: seq<string>, granted: nat,
                 taken: nat)
    requires OnePlace(s)
    requires granted == Least(Least(capacity, |Eligible(s, now)|), |tokens|)
    requires taken == Least(Least(capacity, |Eligible(s, now)|), |tokens| + 1)
    ensures var order := Ranked(Eligible(s, now));
            && Live(Scripts.GrantLoop(s, worker, now, capacity, deadline, tokens).0)
            == Live(s) - (Members(order[..taken]) - Members(order[..granted]))
            && Members(order[..taken]) <= Live(s)
  {
    PlacesDisjoint(s);
    assert ScheduledApart(s);
    TakenMembers(Eligible(s, now), taken);
    TakenMembers(Eligible(s, now), granted);
    GrantLoopTakesFirst(s, worker, now, capacity, deadline, tokens);
    hide Ranked, Scripts.GrantLoop, Records, OnePlace, ScheduledApart;
    var order := Ranked(Eligible(s, now));
    forall j | j in order[..granted] ensures j in order[..taken] {
    }
    LiveAfter(s, Scripts.GrantLoop(s, worker, now, capacity, deadline, tokens).0, Members(order[..taken]),
              Members(order[..granted]));
  }

  lemma LiveAfter(s: State, t: State, gone: set<string>, kept: set<string>)
    requires kept <= gone && gone <= s.ready.Keys + s.scheduled.Keys
    requires s.ready.Keys !! s.leased.Keys && s.scheduled.Keys !! s.leased.Keys
    requires t.ready == s.ready - gone && t.scheduled == s.scheduled - gone && t.leased.Keys == s.leased.Keys + kept
    ensures Live(t) == Live(s) - (gone - kept)
  {
  }

  /** One grant keeps the job among those that are not terminal, wherever else its id still occurs. */
  lemma RoundConserves(s: State, now: int, worker: string, token: string, deadline: int)
    requires HeadIsNoDuplicate(s, now)
    requires Scripts.PickNext(s.ready, UpTo(s.scheduled, now)) != Scripts.NoWork
    ensures var pick := Scripts.PickNext(s.ready, UpTo(s.scheduled, now));
            && MovesForward(s, Scripts.Lease(Scripts.Take(s, pick), pick.job, worker, token, deadline))
            && Takable(s, pick.job, now)
  {
    hide PackLease, Increment;
    match Scripts.PickNext(s.ready, UpTo(s.scheduled, now))
    case FromReady(job) => TakeReadyForward(s, job, worker, token, deadline);
    case FromScheduled(job) => TakeScheduledForward(s, job, worker, token, deadline);
    case NoWork =>
  }

  lemma TakeReadyForward(s: State, job: string, worker: string, token: string, deadline: int)
    requires job in s.ready
    ensures MovesForward(s, Scripts.Lease(s.(ready := s.ready - {job}), job, worker, token, deadline))
  {
    hide PackLease, Increment;
    assert Live(Scripts.Lease(s.(ready := s.ready - {job}), job, worker, token, deadline)) == Live(s);
  }

  lemma TakeScheduledForward(s: State, job: string, worker: string, token: string, deadline: int)
    requires job in s.scheduled
    ensures MovesForward(s, Scripts.Lease(s.(scheduled := s.scheduled - {job}), job, worker, token, deadline))
  {
    hide PackLease, Increment;
    assert Live(Scripts.Lease(s.(scheduled := s.scheduled - {job}), job, worker, token, deadline)) == Live(s);
  }

  ghost predicate HeadIsNoDuplicate(s: State, now: int) {
    var due := UpTo(s.scheduled, now);
    due != map[] ==> First(due) !in s.ready && First(due) !in s.leased
  }

  lemma DropOneForward(s: State, job: string)
    requires job in s.scheduled && (job in s.ready || job in s.leased)
    ensures MovesForward(s, s.(scheduled := s.scheduled - {job}))
    ensures |s.scheduled - {job}| < |s.scheduled|
  {
    assert (s.scheduled - {job}).Keys == s.scheduled.Keys - {job};
    assert Live(s.(scheduled := s.scheduled - {job})) == Live(s);
  }

  /** What the dedupe loop drops is a duplicate: its job stays where it is, in `ready` or `leased`. The loop ends with
      a head that is none. */
  lemma {:induction false} DropConserves(s: State, now: int)
    ensures MovesForward(s, Scripts.DropDuplicates(s, now))
    ensures HeadIsNoDuplicate(Scripts.DropDuplicates(s, now), now)
    ensures Scripts.DropDuplicates(s, now).ready == s.ready && Scripts.DropDuplicates(s, now).leased == s.leased
    decreases |s.scheduled|
  {
    hide MovesForward;
    var due := UpTo(s.scheduled, now);
    if due != map[] && (First(due) in s.ready || First(due) in s.leased) {
      var t := s.(scheduled := s.scheduled - {First(due)});
      DropOneForward(s, First(due));
      DropConserves(t, now);
      MovesForwardTransitive(s, t, Scripts.DropDuplicates(t, now));
    } else {
      NoMove(s);
    }
  }

  lemma NoMove(s: State)
    ensures MovesForward(s, s)
  {
  }

  lemma TakeNothing(s: State)
    ensures Scripts.Take(s, Scripts.NoWork) == s
  {
  }

  /** From any state at all, also one with duplicate placements: given a token for each round, no job disappears, no
      lease is lost, and a job taken from `scheduled` was due and not already leased. */
  lemma {:induction false} GrantLoopConserves(s: State, worker: string, now: int, capacity: nat, deadline: int, tokens: seq<string>)
    requires |tokens| >= capacity
    ensures MovesForward(s, Scripts.GrantLoop(s, worker, now, capacity, deadline, tokens).0)
    ensures AllTakable(s, Scripts.GrantLoop(s, worker, now, capacity, deadline, tokens).1, now)
    decreases capacity
  {
    hide *;
    Scripts.GrantLoopUnfold(s, worker, now, capacity, deadline, tokens);
    NoMove(s);
    NoneTakable(s, now);
    if capacity > 0 {
      var clean := Scripts.DropDuplicates(s, now);
      DropConserves(s, now);
      TakeNothing(clean);
      var pick := Scripts.PickNext(clean.ready, UpTo(clean.scheduled, now));
      if pick != Scripts.NoWork {
        RoundConserves(clean, now, worker, tokens[0], deadline);
        var leased := Scripts.Lease(Scripts.Take(clean, pick), pick.job, worker, tokens[0], deadline);
        var next := Scripts.GrantLoop(leased, worker, now, capacity - 1, deadline, tokens[1..]);
        GrantLoopConserves(leased, worker, now, capacity - 1, deadline, tokens[1..]);
        MovesForwardTransitive(clean, leased, next.0);
        MovesForwardTransitive(s, clean, next.0);
        TakableBefore(clean, leased, next.1, now);
        TakableCons(clean, Grant(pick.job, tokens[0]), next.1, now);
        TakableBefore(s, clean, [Grant(pick.job, tokens[0])] + next.1, now);
      }
    }
  }

  lemma NoneTakable(s: State, now: int)
    ensures AllTakable(s, [], now)
  {
  }

  lemma TakesGranted(s: State, t: State, grants: seq<Grant>, leased: seq<string>, worker: string, deadline: int,
                     tokens: seq<string>, i: nat)
    requires |leased| == |tokens| && Takes(s, t, grants, leased, leased, worker, deadline, tokens)
    requires i < |leased| && (leased[i] in s.ready || leased[i] in s.scheduled) && leased[i] !in s.leased
    ensures |grants| == |leased| && grants[i] == Grant(leased[i], tokens[i])
    ensures GrantedAt(s, t, leased[i], worker, tokens[i], deadline)
  {
    hide PackLease;
    assert leased[i] in Members(leased);
  }

  lemma TakesUntouched(s: State, t: State, grants: seq<Grant>, leased: seq<string>, worker: string, deadline: int,
                       tokens: seq<string>, j: string)
    requires |leased| == |tokens| && Takes(s, t, grants, leased, leased, worker, deadline, tokens)
    requires j !in leased
    ensures UntouchedAt(s, t, j)
  {
    hide PackLease;
    assert j !in Members(leased);
  }

  lemma GrantAtIndex(s: State, t: State, grants: seq<Grant>, worker: string, now: int, capacity: nat, deadline: int,
                            tokens: seq<string>, i: nat)
    requires OnePlace(s) && |tokens| >= capacity
    requires FirstEligible(s, t, grants, worker, now, capacity, deadline, tokens)
    requires i < |grants|
    ensures |grants| <= |tokens| && grants[i].token == tokens[i]
    ensures GrantedAt(s, t, grants[i].job, worker, grants[i].token, deadline)
  {
    var n := Least(capacity, |Eligible(s, now)|);
    var order := Ranked(Eligible(s, now))[..n];
    hide Ranked, PackLease, GrantedAt, Eligible, Assigned, Members, Records, OnePlace;
    EligiblePlace(s, now, n, i);
    assert tokens[..n][i] == tokens[i];
    hide Takes;
    TakesGranted(s, t, grants, order, worker, deadline, tokens[..n], i);
  }

  lemma GrantsDistinct(s: State, t: State, grants: seq<Grant>, worker: string, now: int, capacity: nat, deadline: int,
                            tokens: seq<string>, i: nat, k: nat)
    requires OnePlace(s) && |tokens| >= capacity
    requires FirstEligible(s, t, grants, worker, now, capacity, deadline, tokens)
    requires i < k < |grants|
    ensures grants[i].job != grants[k].job
  {
    var e := Eligible(s, now);
    hide Ranked, PackLease, Eligible, Takes;
    assert JobsOf(grants)[i] == Ranked(e)[i] && JobsOf(grants)[k] == Ranked(e)[k];
    if Ranked(e)[i] == Ranked(e)[k] {
      RankedDistinct(e, i, k);
    }
  }

  lemma OthersUntouched(s: State, t: State, grants: seq<Grant>, worker: string, now: int, capacity: nat, deadline: int,
                            tokens: seq<string>, j: string)
    requires OnePlace(s) && |tokens| >= capacity
    requires FirstEligible(s, t, grants, worker, now, capacity, deadline, tokens)
    ensures IsGranted(grants, j) || UntouchedAt(s, t, j)
  {
    var n := Least(capacity, |Eligible(s, now)|);
    var order := Ranked(Eligible(s, now))[..n];
    hide Ranked, PackLease, UntouchedAt, Eligible, Takes;
    if j in order {
      var i := PositionOf(order, j);
      assert JobsOf(grants)[i] == grants[i].job == j;
    } else {
      TakesUntouched(s, t, grants, order, worker, deadline, tokens[..n], j);
    }
  }

  lemma FirstEligibleRest(s: State, t: State, grants: seq<Grant>, worker: string, now: int, capacity: nat, deadline: int,
                            tokens: seq<string>)
    requires OnePlace(s) && |tokens| >= capacity
    requires FirstEligible(s, t, grants, worker, now, capacity, deadline, tokens)
    ensures |grants| <= |tokens| && t.rerun == s.rerun && t.failures == s.failures && t.failed == s.failed
    ensures t.policy == s.policy
  {
    var n := Least(capacity, |Eligible(s, now)|);
    hide Ranked, PackLease, Eligible, Takes;
    TakesRest(s, t, grants, Ranked(Eligible(s, now))[..n], worker, deadline, tokens[..n]);
  }

  lemma FirstEligibleGrants(s: State, t: State, grants: seq<Grant>, worker: string, now: int, capacity: nat, deadline: int,
                            tokens: seq<string>)
    requires OnePlace(s) && |tokens| >= capacity
    requires FirstEligible(s, t, grants, worker, now, capacity, deadline, tokens)
    ensures Grants(s, t, grants, worker, deadline, tokens)
  {
    hide FirstEligible, GrantedAt, UntouchedAt, OnePlace, IsGranted;
    forall i | 0 <= i < |grants|
      ensures |grants| <= |tokens| && grants[i].token == tokens[i]
      ensures GrantedAt(s, t, grants[i].job, worker, grants[i].token, deadline)
    {
      GrantAtIndex(s, t, grants, worker, now, capacity, deadline, tokens, i);
    }
    forall i, k | 0 <= i < k < |grants| ensures grants[i].job != grants[k].job {
      GrantsDistinct(s, t, grants, worker, now, capacity, deadline, tokens, i, k);
    }
    forall j ensures IsGranted(grants, j) || UntouchedAt(s, t, j) {
      OthersUntouched(s, t, grants, worker, now, capacity, deadline, tokens, j);
    }
    FirstEligibleRest(s, t, grants, worker, now, capacity, deadline, tokens);
  }

  lemma EligiblePlace(s: State, now: int, n: nat, i: nat)
    requires OnePlace(s) && i < n <= |Eligible(s, now)|
    ensures var job := Ranked(Eligible(s, now))[..n][i];
            (job in s.ready || job in s.scheduled) && job !in s.leased
  {
    RankedMembers(Eligible(s, now));
    hide Ranked;
    var job := Ranked(Eligible(s, now))[..n][i];
    assert job in Ranked(Eligible(s, now));
    assert OnePlaceAt(s, job);
  }

  lemma TakesRest(s: State, t: State, grants: seq<Grant>, leased: seq<string>, worker: string, deadline: int,
                  tokens: seq<string>)
    requires |leased| == |tokens| && Takes(s, t, grants, leased, leased, worker, deadline, tokens)
    ensures |grants| == |leased| && t.rerun == s.rerun && t.failures == s.failures && t.failed == s.failed
    ensures t.policy == s.policy
  {
    hide Assigned, Records, Members;
  }
}
