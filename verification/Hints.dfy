/** The next schedule that a reservation reports to an idle worker. */
module Hints {
  import opened SortedSets
  import opened Policy
  import opened LuaNumbers
  import opened Queue
  import Scripts

  /** `hint` is the earliest schedule after `bound`, and 0 if there is none. */
  ghost predicate IsEarliest(scheduled: ZSet, bound: int, hint: int) {
    if exists j :: j in scheduled && scheduled[j] > bound then
      && hint > bound
      && (exists j :: j in scheduled && scheduled[j] == hint)
      && (forall j | j in scheduled && scheduled[j] > bound :: hint <= scheduled[j])
    else hint == 0
  }

  lemma NextIsEarliest(scheduled: ZSet, now: int)
    ensures IsEarliest(scheduled, LuaValue(now), Scripts.NextSchedule(scheduled, now))
  {
    var bound := LuaValue(now);
    hide LuaValue;
    var later := map j | j in scheduled && scheduled[j] > bound :: scheduled[j];
    if later != map[] {
      var m := First(later);
      assert IsFirst(later, m);
      assert m in scheduled && scheduled[m] == later[m] > bound;
      forall j | j in scheduled && scheduled[j] > bound ensures later[m] <= scheduled[j] {
        assert j in later && (j == m || Before(later, m, j));
      }
      assert Scripts.NextSchedule(scheduled, now) == later[m];
    } else {
      assert forall j | j in scheduled && scheduled[j] > bound :: j in later;
      assert Scripts.NextSchedule(scheduled, now) == 0;
    }
  }

  /** An accepted reservation reports the earliest schedule after the bound that Lua writes for the current time, among the
      schedules it leaves. */
  lemma HintIsEarliest(s: State, worker: string, now: int, capacity: nat, duration: int, policyKey: string, record: string,
                       tokens: seq<string>)
    ensures var (t, reply) := Scripts.Reserve(s, worker, now, capacity, duration, policyKey, record, tokens);
            reply.Reserved? ==> IsEarliest(t.scheduled, LuaValue(now), reply.nextScheduleAt)
  {
    NextIsEarliest(Scripts.Reserve(s, worker, now, capacity, duration, policyKey, record, tokens).0.scheduled, now);
    hide Scripts.GrantLoop, Scripts.Register, Scripts.NextSchedule, IsEarliest, LuaValue;
  }

  lemma ValueSign(v: int)
    ensures v < 0 ==> LuaValue(v) < 0
    ensures v == 0 ==> LuaValue(v) == 0
    ensures v > 0 ==> LuaValue(v) > 0
  {
    var n := Magnitude(v);
    if n == 0 {
      assert UnitOf(0) == 1;
    } else {
      UnitSmall(n);
      RoundsUp(n, UnitOf(n));
    }
    hide UnitOf, RoundTo;
  }

  lemma RoundsUp(n: nat, unit: nat)
    requires 0 < unit <= n
    ensures RoundTo(n, unit) > 0
  {
    var q := n / unit;
    assert q >= 1;
    MulMonotone(1, q, unit);
    MulMonotone(1, q + 1, unit);
  }

  lemma {:induction false} UnitSmall(n: nat)
    requires n > 0
    ensures UnitOf(n) <= n
    decreases n
  {
    if n >= SIGNIFICANT {
      UnitSmall(n / 10);
    }
  }

  /** It is the earliest schedule after the current time itself if and only if no schedule lies between that time and the
      bound. */
  lemma HintExactIff(s: State, worker: string, now: int, capacity: nat, duration: int, policyKey: string, record: string,
                     tokens: seq<string>)
    ensures var (t, reply) := Scripts.Reserve(s, worker, now, capacity, duration, policyKey, record, tokens);
            reply.Reserved? ==>
              (IsEarliest(t.scheduled, now, reply.nextScheduleAt)
               <==> forall j | j in t.scheduled :: !(Min(now, LuaValue(now)) < t.scheduled[j] <= Max(now, LuaValue(now))))
  {
    var (t, reply) := Scripts.Reserve(s, worker, now, capacity, duration, policyKey, record, tokens);
    HintIsEarliest(s, worker, now, capacity, duration, policyKey, record, tokens);
    if reply.Reserved? {
      ValueSign(now);
      EarliestIff(t.scheduled, now, LuaValue(now), reply.nextScheduleAt);
    }
    hide *;
  }

  lemma EarliestIff(z: ZSet, now: int, bound: int, hint: int)
    requires IsEarliest(z, bound, hint)
    requires (now < 0 <==> bound < 0) && (now == 0 <==> bound == 0)
    ensures IsEarliest(z, now, hint) <==> forall j | j in z :: !(Min(now, bound) < z[j] <= Max(now, bound))
  {
  }
}
