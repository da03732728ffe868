/** The registration record of a worker, and the choice of the workers a cleanup removes. */
module WorkerRecords {
  import opened Wrappers
  import opened Decimal
  import opened SortedSets
  import opened Codec
  import opened Policy
  import opened Queue

  const DAY_US: int := 24 * 60 * 60 * 1_000_000

  datatype StoredConfig = StoredConfig(concurrency: nat, leaseMs: nat)

  /** Concurrency and durations in milliseconds, then the policy key. */
  function PackConfig(concurrency: nat, leaseMs: nat, others: seq<nat>, policyKey: string): string {
    Format(concurrency) + ":" + (Format(leaseMs) + ":" + PackRest(others, policyKey))
  }

  function PackRest(others: seq<nat>, policyKey: string): string {
    if others == [] then policyKey else Format(others[0]) + ":" + PackRest(others[1..], policyKey)
  }

  /** One step of `split(':')`: the next part, and what follows if there is another. */
  function SplitPart(s: string): (string, Option<string>) {
    match IndexOf(s, ':')
    case None => (s, None)
    case Some(d) => (s[..d], Some(s[d + 1..]))
  }

  function ParseConfig(record: string): Option<StoredConfig> {
    var (first, rest) := SplitPart(record);
    match ParseUnsigned(first, USIZE_MAX)
    case None => None
    case Some(concurrency) =>
      if rest == None then None
      else
        match ParseUnsigned(SplitPart(rest.value).0, U64_MAX)
        case None => None
        case Some(leaseMs) => Some(StoredConfig(concurrency, leaseMs))
  }

  /** A record can be read back exactly when the lease duration fits 64 bits; the concurrency is a `usize` anyway. */
  lemma ConfigRoundTrip(concurrency: nat, leaseMs: nat, others: seq<nat>, policyKey: string)
    requires concurrency <= USIZE_MAX
    ensures ParseConfig(PackConfig(concurrency, leaseMs, others, policyKey))
         == if leaseMs <= U64_MAX then Some(StoredConfig(concurrency, leaseMs)) else None
  {
    var tail := PackRest(others, policyKey);
    FieldDelimiter(Format(concurrency), Format(leaseMs) + ":" + tail);
    FieldDelimiter(Format(leaseMs), tail);
    ParseFormat(concurrency, USIZE_MAX);
    ParseFormat(leaseMs, U64_MAX);
    hide Format, ParseUnsigned, IndexOf, PackRest;
  }

  function Saturate(n: int): int {
    Max(I64_MIN, Min(n, I64_MAX))
  }

  /** `as i64` keeps the low 64 bits. */
  function AsI64(n: nat): int
    requires n <= U64_MAX
  {
    if n <= I64_MAX then n else n - U64_MAX - 1
  }

  /** How long a worker may be silent before it is removed, in microseconds. */
  function StaleAfter(leaseMs: nat): int
    requires leaseMs <= U64_MAX
  {
    Max(Saturate(Saturate(AsI64(leaseMs) * 10) * 1000), DAY_US)
  }

  /** Ten lease durations or a day, whichever is longer, as far as 64 bits can tell. */
  lemma StaleAfterClosedForm(leaseMs: nat)
    requires leaseMs <= U64_MAX
    ensures StaleAfter(leaseMs) == if leaseMs <= I64_MAX then Min(Max(10 * leaseMs * 1000, DAY_US), I64_MAX) else DAY_US
  {
  }

  lemma ParsedFits(record: string)
    ensures ParseConfig(record).Some? ==> ParseConfig(record).value.leaseMs <= U64_MAX
  {
  }

  /** The worker has no record, or was silent for too long. */
  predicate StaleIn(s: State, worker: string, now: int)
    requires worker in s.lastSeen
  {
    if worker !in s.workerConfigs then true
    else
      ParsedFits(s.workerConfigs[worker]);
      match ParseConfig(s.workerConfigs[worker])
      case None => false
      case Some(config) => Saturate(now - s.lastSeen[worker]) > StaleAfter(config.leaseMs)
  }

  /** A record that cannot be read stops the whole cleanup. */
  predicate Readable(s: State, worker: string) {
    worker in s.workerConfigs ==> ParseConfig(s.workerConfigs[worker]).Some?
  }

  /** The selection half of `prune_stale_workers`, on one snapshot. */
  method SelectStale(s: State, now: int) returns (stale: Option<seq<string>>)
    ensures stale == None <==> exists worker :: worker in s.lastSeen && !Readable(s, worker)
    ensures stale.Some? ==> forall worker :: worker in stale.value <==> worker in s.lastSeen && StaleIn(s, worker, now)
  {
    var workers := Ranked(s.lastSeen);
    RankedMembers(s.lastSeen);
    hide Ranked, StaleIn, Readable;
    var result := [];
    var i := 0;
    while i < |workers|
      invariant 0 <= i <= |workers|
      invariant forall k | 0 <= k < i :: Readable(s, workers[k])
      invariant forall worker ::
          worker in result <==> worker in workers[..i] && worker in s.lastSeen && StaleIn(s, worker, now)
    {
      var worker := workers[i];
      assert worker in s.lastSeen;
      if !Readable(s, worker) {
        return None;
      }
      if StaleIn(s, worker, now) {
        result := result + [worker];
      }
      assert workers[..i + 1] == workers[..i] + [worker];
      i := i + 1;
    }
    assert workers[..i] == workers;
    return Some(result);
  }

  /** A worker without a record does not survive the cleanup. One with an ordinary record does as long as it was seen within
      a day or within ten of its lease durations; a lease duration of 2^63 milliseconds or more counts as a day. */
  lemma RecentlySeenStays(s: State, worker: string, now: int, concurrency: nat, leaseMs: nat, others: seq<nat>, key: string)
    requires worker in s.lastSeen
    requires worker in s.workerConfigs ==> s.workerConfigs[worker] == PackConfig(concurrency, leaseMs, others, key)
    requires concurrency <= USIZE_MAX && leaseMs <= U64_MAX
    ensures StaleIn(s, worker, now) <==>
              || worker !in s.workerConfigs
              || (&& now - s.lastSeen[worker] > DAY_US
                  && (leaseMs <= I64_MAX ==>
                        now - s.lastSeen[worker] > 10 * leaseMs * 1000 && 10 * leaseMs * 1000 < I64_MAX))
  {
    ConfigRoundTrip(concurrency, leaseMs, others, key);
    StaleAfterClosedForm(leaseMs);
    hide PackConfig, ParseConfig;
  }
}
