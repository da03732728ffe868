/** What operators read from one snapshot of a namespace. */
module Observers {
  import opened Wrappers
  import opened Decimal
  import opened SortedSets
  import opened Codec
  import opened Queue
  import opened Invariants
  import opened Coherence
  import opened Replies
  import opened Steps
  import opened Runs
  import RetryBudgets

  /** `get_job`. `Undecodable` is a leased job without a record, or with one that the client cannot read. */
  datatype JobView =
    | NoJob
    | ReadyJob(failures: int, readyAt: int)
    | LeasedJob(failures: int, worker: string, token: string, leasedUntil: int)
    | FailedJob(failures: int, failedAt: int)
    | ScheduledJob(failures: int, scheduleAt: int)
    | Undecodable

  function GetJob(s: State, job: string): JobView {
    var failures := Counter(s.failures, job);
    if job in s.ready then ReadyJob(failures, s.ready[job])
    else if job in s.leased then
      if job !in s.leaseMeta then Undecodable
      else
        match ParseLeaseMeta(s.leaseMeta[job])
        case LeaseHolder(worker, token) => LeasedJob(failures, worker, token, s.leased[job])
        case _ => Undecodable
    else if job in s.failed then FailedJob(failures, s.failed[job])
    else if job in s.scheduled then ScheduledJob(failures, s.scheduled[job])
    else NoJob
  }

  function PlaceSeen(view: JobView): Place {
    match view
    case NoJob => Absent
    case ReadyJob(_, _) => Ready
    case LeasedJob(_, _, _, _) => Leased
    case FailedJob(_, _) => Failed
    case ScheduledJob(_, _) => Scheduled
    case Undecodable => Leased
  }

  /** The worker id in a record is a string that a client once held. */
  ghost predicate Representable(s: State, job: string) {
    forall worker, token :: job in s.leaseMeta && s.leaseMeta[job] == PackLease(worker, token) ==> |worker| <= USIZE_MAX
  }

  /** The view shows the failures of the job, and the moment it is in its place since or until. */
  ghost predicate Shows(s: State, job: string, view: JobView) {
    match view
    case NoJob => job !in s.failures
    case ReadyJob(n, at) => n == Counter(s.failures, job) && IsAt(s, job, Ready, at, 0)
    case LeasedJob(n, _, _, until) => n == Counter(s.failures, job) && job in s.leased && s.leased[job] == until
    case FailedJob(n, at) => n == Counter(s.failures, job) >= 1 && IsAt(s, job, Failed, at, 0)
    case ScheduledJob(n, at) => n == Counter(s.failures, job) && IsAt(s, job, Scheduled, at, at)
    case Undecodable => false
  }

  /** Clients look a job up in another order than the scripts do, and see the same; a leased job always shows the very
      attempt that passes the fence. */
  lemma ViewAgrees(s: State, job: string)
    requires Coherent(s) && Representable(s, job)
    ensures PlaceSeen(GetJob(s, job)) == PlaceOf(s, job)
    ensures Shows(s, job, GetJob(s, job))
    ensures GetJob(s, job).LeasedJob? <==> exists worker, token :: Holds(s, job, worker, token)
    ensures GetJob(s, job).LeasedJob? ==> Holds(s, job, GetJob(s, job).worker, GetJob(s, job).token)
  {
    assert CoherentAt(s, job);
    hide Coherent;
    if job in s.leased {
      var worker, token :| s.leaseMeta[job] == PackLease(worker, token);
      ParsePacked(worker, token);
      hide PackLease, ParseLeaseMeta;
      assert Holds(s, job, worker, token);
    } else {
      hide PackLease, ParseLeaseMeta;
    }
  }

  function FailuresSeen(view: JobView): int {
    match view
    case NoJob => 0
    case Undecodable => 0
    case _ => view.failures
  }

  /** At every point of every run the view shows the explicit failures of the job since its failure lifecycle began. */
  lemma ViewOverRun(ops: seq<Op>, i: nat, job: string)
    requires i <= |ops| && ValidRun(ops) && Representable(After(ops, i), job)
    ensures FailuresSeen(GetJob(After(ops, i), job)) == RetryBudgets.ExplicitFailures(ops, i, job)
  {
    RunCoherent(ops, i);
    RetryBudgets.CounterIsExplicit(ops, i, job);
    ViewAgrees(After(ops, i), job);
    hide Coherent, After, Issued, GetJob, Representable, RetryBudgets.ExplicitFailures;
  }

  datatype QueueCounts = QueueCounts(ready: nat, scheduledDue: nat, scheduledFuture: nat, leased: nat, failed: nat)

  function Later(z: ZSet, now: int): ZSet {
    map j | j in z && z[j] > now :: z[j]
  }

  function Counts(s: State, now: int): QueueCounts {
    QueueCounts(|s.ready|, |UpTo(s.scheduled, now)|, |Later(s.scheduled, now)|, |s.leased|, |s.failed|)
  }

  function Total(c: QueueCounts): nat {
    c.ready + c.scheduledDue + c.scheduledFuture + c.leased + c.failed
  }

  lemma DueAndLater(z: ZSet, now: int)
    ensures |UpTo(z, now)| + |Later(z, now)| == |z|
  {
    var due, later := UpTo(z, now).Keys, Later(z, now).Keys;
    assert z.Keys == due + later && due !! later;
  }

  function JobsAt(s: State, place: Place): set<string> {
    set j | j in Jobs(s) && PlaceOf(s, j) == place
  }

  /** Each count is the number of jobs in its place; of the scheduled ones, the first counts those that are due. */
  lemma CountsByPlace(s: State, now: int)
    requires Coherent(s)
    ensures var c := Counts(s, now);
            && c.ready == |JobsAt(s, Ready)| && c.leased == |JobsAt(s, Leased)| && c.failed == |JobsAt(s, Failed)|
            && c.scheduledDue == |set j | j in JobsAt(s, Scheduled) && s.scheduled[j] <= now|
            && c.scheduledFuture == |set j | j in JobsAt(s, Scheduled) && s.scheduled[j] > now|
  {
    CoherentIndexes(s);
    hide Coherent;
    PlacedJobs(s);
    hide JobsAt, OnePlace;
    assert (set j | j in JobsAt(s, Scheduled) && s.scheduled[j] <= now) == UpTo(s.scheduled, now).Keys;
    assert (set j | j in JobsAt(s, Scheduled) && s.scheduled[j] > now) == Later(s.scheduled, now).Keys;
  }

  lemma PlacedJobs(s: State)
    requires OnePlace(s)
    ensures JobsAt(s, Ready) == s.ready.Keys && JobsAt(s, Leased) == s.leased.Keys && JobsAt(s, Failed) == s.failed.Keys
    ensures JobsAt(s, Scheduled) == s.scheduled.Keys
  {
    forall j ensures j in s.leased <==> j in JobsAt(s, Leased) {
      assert OnePlaceAt(s, j);
    }
    forall j ensures j in s.failed <==> j in JobsAt(s, Failed) {
      assert OnePlaceAt(s, j);
    }
    forall j ensures j in s.scheduled <==> j in JobsAt(s, Scheduled) {
      assert OnePlaceAt(s, j);
    }
  }

  /** Whatever the time, the five counts add up to the number of distinct jobs. */
  lemma CountsAddUp(s: State, now: int)
    requires Coherent(s)
    ensures Total(Counts(s, now)) == |Jobs(s)|
  {
    CoherentIndexes(s);
    hide Coherent;
    DueAndLater(s.scheduled, now);
    hide UpTo, Later;
    assert |s.ready.Keys + s.scheduled.Keys| == |s.ready| + |s.scheduled|;
    assert |s.ready.Keys + s.scheduled.Keys + s.leased.Keys| == |s.ready| + |s.scheduled| + |s.leased|;
  }

  datatype FailedRow = FailedRow(job: string, failures: int, failedAt: int)

  datatype FailedPage = FailedPage(rows: seq<FailedRow>, next: Option<string>) | InvalidCursor

  /** `ZRANGE failed first last`: ranks are cut off at the end of the set. */
  function RankRange(z: ZSet, first: nat, last: nat): seq<string> {
    var order := Ranked(z);
    var stop := if last + 1 <= |order| then last + 1 else |order|;
    if first >= stop then [] else order[first..stop]
  }

  function RowOf(s: State, job: string): FailedRow {
    FailedRow(job, Counter(s.failures, job), Counter(s.failed, job))
  }

  function RowsOf(s: State, order: seq<string>): (rows: seq<FailedRow>)
    ensures |rows| == |order|
  {
    seq(|order|, i requires 0 <= i < |order| => RowOf(s, order[i]))
  }

  /** `list_failed`: one row more than asked for tells whether another page follows. */
  method ListFailed(s: State, cursor: Option<string>, limit: nat) returns (page: FailedPage)
    ensures page == PageOf(s, cursor, limit)
  {
    hide Slice, RankRange, RowsOf, Format, ParseUnsigned, Ranked;
    var offset := 0;
    if cursor.Some? {
      var parsed := ParseUnsigned(cursor.value, USIZE_MAX);
      if parsed == None {
        return InvalidCursor;
      }
      offset := parsed.value;
    }
    if limit == 0 {
      return FailedPage([], None);
    }
    var order := RankRange(s.failed, offset, offset + limit);
    var next := None;
    if |order| > limit {
      order := order[..limit];
      next := Some(Format(offset + limit));
    }
    RangeCut(s.failed, offset, limit);
    page := FailedPage(RowsOf(s, order), next);
  }

  function OffsetOf(cursor: Option<string>): Option<nat> {
    match cursor
    case None => Some(0)
    case Some(text) => ParseUnsigned(text, USIZE_MAX)
  }

  /** The page without the extra row: the ranks from the cursor on, and a cursor exactly when ranks remain. */
  function PageOf(s: State, cursor: Option<string>, limit: nat): FailedPage {
    match OffsetOf(cursor)
    case None => InvalidCursor
    case Some(offset) =>
      if limit == 0 then FailedPage([], None)
      else
        FailedPage(RowsOf(s, Slice(Ranked(s.failed), offset, limit)),
                   if offset + limit < |s.failed| then Some(Format(offset + limit)) else None)
  }

  /** Up to `limit` elements from `offset` on. */
  function Slice(order: seq<string>, offset: nat, limit: nat): seq<string> {
    if offset >= |order| then []
    else if offset + limit >= |order| then order[offset..]
    else order[offset..offset + limit]
  }

  lemma RangeCut(z: ZSet, offset: nat, limit: nat)
    requires limit > 0
    ensures var order := RankRange(z, offset, offset + limit);
            && (|order| > limit <==> offset + limit < |z|)
            && (if |order| > limit then order[..limit] else order) == Slice(Ranked(z), offset, limit)
  {
    hide Ranked;
  }

  /** Every row a client gets by following the cursors from `offset` to the last page. */
  function FollowCursors(s: State, cursor: Option<string>, limit: nat): seq<FailedRow>
    requires limit > 0 && |s.failed| <= USIZE_MAX
    decreases match OffsetOf(cursor) case None => 0 case Some(offset) => if offset < |s.failed| then |s.failed| - offset else 0
  {
    match PageOf(s, cursor, limit)
    case InvalidCursor => []
    case FailedPage(rows, next) =>
      ParseFormat(OffsetOf(cursor).value + limit, USIZE_MAX);
      rows + if next == None then [] else FollowCursors(s, next, limit)
  }

  lemma RowsSplit(s: State, order: seq<string>, i: nat, k: nat)
    requires i <= k <= |order|
    ensures RowsOf(s, order[i..]) == RowsOf(s, order[i..k]) + RowsOf(s, order[k..])
  {
  }

  lemma {:induction false} FollowsFrom(s: State, cursor: Option<string>, limit: nat, offset: nat)
    requires limit > 0 && |s.failed| <= USIZE_MAX && OffsetOf(cursor) == Some(offset) && offset <= |s.failed|
    ensures FollowCursors(s, cursor, limit) == RowsOf(s, Ranked(s.failed)[offset..])
    decreases |s.failed| - offset
  {
    hide Ranked, Format, ParseUnsigned, RowsOf;
    var order := Ranked(s.failed);
    if offset + limit < |s.failed| {
      ParseFormat(offset + limit, USIZE_MAX);
      FollowsFrom(s, Some(Format(offset + limit)), limit, offset + limit);
      RowsSplit(s, order, offset, offset + limit);
    } else {
      assert Slice(order, offset, limit) == order[offset..];
    }
  }

  /** With any page size the pages add up to all failed jobs, in the order of their failure, each exactly once. */
  lemma PagesCoverFailed(s: State, limit: nat)
    requires limit > 0 && |s.failed| <= USIZE_MAX
    ensures var rows := FollowCursors(s, None, limit);
            && rows == RowsOf(s, Ranked(s.failed))
            && (forall j :: j in s.failed <==> exists i | 0 <= i < |rows| :: rows[i].job == j)
            && (forall i, k | 0 <= i < k < |rows| :: rows[i].job != rows[k].job)
            && (forall i, k | 0 <= i < k < |rows| :: rows[i].failedAt <= rows[k].failedAt)
  {
    FollowsFrom(s, None, limit, 0);
    RankedMembers(s.failed);
    hide Ranked, FollowCursors, RowsOf;
    var order := Ranked(s.failed);
    assert order[0..] == order;
    RowsInOrder(s, order);
    forall i, k | 0 <= i < k < |order| ensures RowBefore(s, order[i], order[k]) {
      RankedRows(s, i, k);
    }
  }

  predicate RowBefore(s: State, a: string, b: string) {
    a != b && Counter(s.failed, a) <= Counter(s.failed, b)
  }

  lemma RankedRows(s: State, i: nat, k: nat)
    requires i < k < |s.failed|
    ensures RowBefore(s, Ranked(s.failed)[i], Ranked(s.failed)[k])
  {
    RankedSorted(s.failed, i, k);
    BeforeAsymmetric(s.failed, Ranked(s.failed)[i], Ranked(s.failed)[k]);
    hide Ranked, LexBefore;
  }

  lemma RowsInOrder(s: State, order: seq<string>)
    ensures var rows := RowsOf(s, order);
            && (forall i | 0 <= i < |rows| :: rows[i] == RowOf(s, order[i]))
            && (forall j :: j in order <==> exists i | 0 <= i < |rows| :: rows[i].job == j)
  {
    var rows := RowsOf(s, order);
    forall j ensures j in order <==> exists i | 0 <= i < |rows| :: rows[i].job == j {
      if j in order {
        var i :| 0 <= i < |order| && order[i] == j;
        assert rows[i].job == j;
      }
    }
  }

  /** Every listed row is what looking up its job shows. */
  lemma RowsAgree(s: State, cursor: Option<string>, limit: nat)
    requires Coherent(s)
    ensures var page := PageOf(s, cursor, limit);
            page.FailedPage? ==> forall row | row in page.rows :: GetJob(s, row.job) == FailedJob(row.failures, row.failedAt)
  {
    hide Slice, Ranked, RowsOf, Format, ParseUnsigned;
    var page := PageOf(s, cursor, limit);
    if page.FailedPage? && page.rows != [] {
      var order := Slice(Ranked(s.failed), OffsetOf(cursor).value, limit);
      RowsInOrder(s, order);
      RankedMembers(s.failed);
      SliceMembers(Ranked(s.failed), OffsetOf(cursor).value, limit);
      forall row | row in page.rows ensures GetJob(s, row.job) == FailedJob(row.failures, row.failedAt) {
        assert exists i | 0 <= i < |order| :: row == RowOf(s, order[i]);
        FailedSeen(s, row.job);
      }
    }
  }

  lemma SliceMembers(order: seq<string>, offset: nat, limit: nat)
    ensures forall j | j in Slice(order, offset, limit) :: j in order
  {
  }

  lemma FailedSeen(s: State, job: string)
    requires Coherent(s) && job in s.failed
    ensures GetJob(s, job) == FailedJob(RowOf(s, job).failures, RowOf(s, job).failedAt)
  {
    assert CoherentAt(s, job);
  }
}
