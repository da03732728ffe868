/** What a reap takes: the expired leases, oldest deadline first, up to its limit. */
module Reaps {
  import opened SortedSets
  import opened Queue
  import opened ReservationSpec
  import Scripts

  /** The leases a reap with this limit recovers. */
  function Recovered(s: State, now: int, limit: nat): seq<string> {
    Ranked(UpTo(s.leased, now))[..Least(limit, |UpTo(s.leased, now)|)]
  }

  /** The leases of `jobs` are gone and the jobs are ready again since `now`; nothing else has changed for any job. */
  ghost predicate ReapsTo(s: State, t: State, jobs: seq<string>, now: int) {
    && t.leased == s.leased - Members(jobs)
    && t.leaseMeta == s.leaseMeta - Members(jobs)
    && t.rerun == s.rerun - Members(jobs)
    && t.ready.Keys == s.ready.Keys + Members(jobs)
    && (forall j | j in t.ready :: t.ready[j] == if j in jobs then now else s.ready[j])
    && t == s.(leased := t.leased, leaseMeta := t.leaseMeta, rerun := t.rerun, ready := t.ready,
               workerLeases := t.workerLeases)
  }

  lemma ReapsToNothing(s: State, now: int)
    ensures ReapsTo(s, s, [], now)
  {
    assert Members([]) == {};
    assert s.leased - {} == s.leased && s.leaseMeta - {} == s.leaseMeta && s.rerun - {} == s.rerun;
  }

  lemma ReapsToStep(s: State, t: State, job: string, jobs: seq<string>, now: int)
    requires ReapsTo(Scripts.ReapOne(s, job, now), t, jobs, now)
    ensures ReapsTo(s, t, [job] + jobs, now)
  {
    hide HolderOf, Decrement;
    assert Members([job] + jobs) == {job} + Members(jobs);
    hide Members;
    assert s.leased - {job} - Members(jobs) == s.leased - ({job} + Members(jobs));
    assert s.leaseMeta - {job} - Members(jobs) == s.leaseMeta - ({job} + Members(jobs));
    assert s.rerun - {job} - Members(jobs) == s.rerun - ({job} + Members(jobs));
  }

  lemma ExpiredWithout(s: State, job: string, now: int)
    ensures UpTo(Scripts.ReapOne(s, job, now).leased, now) == UpTo(s.leased, now) - {job}
  {
  }

  lemma RecoveredNone(s: State, now: int, limit: nat)
    requires limit == 0 || UpTo(s.leased, now) == map[]
    ensures Recovered(s, now, limit) == []
  {
    hide Ranked;
  }

  lemma RecoveredStep(s: State, now: int, limit: nat)
    requires limit > 0 && UpTo(s.leased, now) != map[]
    ensures var job := First(UpTo(s.leased, now));
            Recovered(s, now, limit) == [job] + Recovered(Scripts.ReapOne(s, job, now), now, limit - 1)
  {
    hide First, Scripts.ReapOne, Ranked;
    var e := UpTo(s.leased, now);
    ExpiredWithout(s, First(e), now);
    RankedPrefix(e, Least(limit, |e|));
  }

  /** The reap loop refines its specification. */
  lemma {:induction false} ReapRefines(s: State, now: int, limit: nat)
    ensures var (t, n) := Scripts.Reap(s, now, limit);
            n == |Recovered(s, now, limit)| && ReapsTo(s, t, Recovered(s, now, limit), now)
    decreases limit
  {
    hide *;
    Scripts.ReapUnfold(s, now, limit);
    if limit == 0 || UpTo(s.leased, now) == map[] {
      RecoveredNone(s, now, limit);
      ReapsToNothing(s, now);
    } else {
      var job := First(UpTo(s.leased, now));
      var s1 := Scripts.ReapOne(s, job, now);
      RecoveredStep(s, now, limit);
      ReapRefines(s1, now, limit - 1);
      ReapsToStep(s, Scripts.Reap(s1, now, limit - 1).0, job, Recovered(s1, now, limit - 1), now);
    }
  }

  /** Only expired leases are recovered. */
  lemma RecoveredExpired(s: State, now: int, limit: nat, j: string)
    requires j in Recovered(s, now, limit)
    ensures j in s.leased && s.leased[j] <= now
  {
    var e := UpTo(s.leased, now);
    RankedMembers(e);
    hide Ranked;
    assert j in Ranked(e);
  }
}
