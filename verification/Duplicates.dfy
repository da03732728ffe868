/** Exactly which duplicate schedules a reservation drops before it chooses a job. */
module Duplicates {
  import opened SortedSets
  import opened Queue
  import Scripts

  /** The job also has a current run. */
  predicate HasRun(s: State, j: string) {
    j in s.ready || j in s.leased
  }

  /** The entry is due, and it and every due entry ordered before it is a duplicate. */
  ghost predicate InLeadingDuplicates(s: State, now: int, j: string) {
    var due := UpTo(s.scheduled, now);
    j in due && HasRun(s, j) && forall k | k in due && Before(due, k, j) :: HasRun(s, k)
  }

  /** One round: taking the first due entry away changes no other entry's standing. */
  lemma LeadingStep(s: State, now: int, j: string)
    requires UpTo(s.scheduled, now) != map[] && HasRun(s, First(UpTo(s.scheduled, now)))
    requires j != First(UpTo(s.scheduled, now))
    ensures InLeadingDuplicates(s.(scheduled := s.scheduled - {First(UpTo(s.scheduled, now))}), now, j)
        <==> InLeadingDuplicates(s, now, j)
  {
    var due := UpTo(s.scheduled, now);
    var head := First(due);
    var t := s.(scheduled := s.scheduled - {head});
    UpToWithout(s.scheduled, now, head);
    var rest := UpTo(t.scheduled, now);
    hide UpTo, First, LexBefore;
    assert forall k :: k in rest <==> k in due && k != head;
    assert forall k | k in rest :: rest[k] == due[k];
    assert forall k, i | k in rest && i in rest :: Before(rest, k, i) == Before(due, k, i);
    assert forall k :: HasRun(t, k) == HasRun(s, k);
  }

  /** A duplicate is dropped if and only if everything due before it is a duplicate too; one that stands behind a job
      without a current run stays, and so does everything that is no duplicate. */
  lemma {:induction false} DroppedExactly(s: State, now: int, j: string)
    requires j in s.scheduled
    ensures j !in Scripts.DropDuplicates(s, now).scheduled <==> InLeadingDuplicates(s, now, j)
    decreases |s.scheduled|
  {
    var due := UpTo(s.scheduled, now);
    if due != map[] {
      var head := First(due);
      var t := s.(scheduled := s.scheduled - {head});
      assert t.scheduled.Keys == s.scheduled.Keys - {head};
      if HasRun(s, head) {
        if j == head {
          FirstLeads(s, now);
          DropShrinks(t, now);
        } else {
          LeadingStep(s, now, j);
          DroppedExactly(t, now, j);
        }
      } else if j != head {
        assert j in due ==> Before(due, head, j);
      }
    }
  }

  lemma FirstLeads(s: State, now: int)
    requires UpTo(s.scheduled, now) != map[] && HasRun(s, First(UpTo(s.scheduled, now)))
    ensures InLeadingDuplicates(s, now, First(UpTo(s.scheduled, now)))
  {
    var due := UpTo(s.scheduled, now);
    AheadOfFirst(due);
    assert forall k :: k in due && Before(due, k, First(due)) <==> k in Ahead(due, First(due));
  }

  lemma {:induction false} DropShrinks(s: State, now: int)
    ensures Scripts.DropDuplicates(s, now).scheduled.Keys <= s.scheduled.Keys
    decreases |s.scheduled|
  {
    var due := UpTo(s.scheduled, now);
    if due != map[] && HasRun(s, First(due)) {
      var t := s.(scheduled := s.scheduled - {First(due)});
      assert t.scheduled.Keys == s.scheduled.Keys - {First(due)};
      DropShrinks(t, now);
    }
  }

  /** The layout says that no due duplicate outlives the choice. This one does: "b" is due first and has no current run, so
      the duplicate of "a" behind it stays. */
  lemma DuplicateSurvives()
    ensures var s := EMPTY.(ready := map["a" := 0], scheduled := map["b" := 1, "a" := 2]);
            "a" in Scripts.DropDuplicates(s, 2).scheduled
  {
    var s := EMPTY.(ready := map["a" := 0], scheduled := map["b" := 1, "a" := 2]);
    var due := UpTo(s.scheduled, 2);
    assert "b" in due && "a" in due && Before(due, "b", "a");
    assert !HasRun(s, "b") by {
      assert "b"[0] != "a"[0];
    }
    DroppedExactly(s, 2, "a");
  }
}
