/** What clients and scripts write for each other: the arguments of a failure report and the reply to a reservation. */
module Wire {
  import opened Wrappers
  import opened Decimal
  import opened Codec
  import opened Policy
  import opened Queue

  /** `tonumber` on decimal integers. */
  function ReadInt(s: string): Option<int> {
    if s != [] && s[0] == '-' then
      match ToNumber(s[1..])
      case None => None
      case Some(n) => Some(0 - n as int)
    else
      match ToNumber(s)
      case None => None
      case Some(n) => Some(n)
  }

  /** `str::parse::<i64>`. */
  function ParseInt(s: string): Option<int> {
    var text := if s != [] && s[0] == '+' then s[1..] else s;
    if s != [] && s[0] == '+' && text != [] && text[0] == '-' then None
    else
      match ReadInt(text)
      case None => None
      case Some(n) => if I64_MIN <= n <= I64_MAX then Some(n) else None
  }

  lemma ReadFormatted(n: int)
    ensures ReadInt(FormatInt(n)) == Some(n)
    ensures ParseInt(FormatInt(n)) == if I64_MIN <= n <= I64_MAX then Some(n) else None
  {
    var digits := Format(if n < 0 then -n else n);
    FormatValue(if n < 0 then -n else n);
    assert IsDigit(digits[0]);
    hide Format, Value;
    if n < 0 {
      assert FormatInt(n)[0] == '-' && FormatInt(n)[1..] == digits;
    } else {
      assert FormatInt(n) == digits;
    }
  }

  function BackoffArgs(b: Backoff): seq<string> {
    match b
    case NoBackoff => ["none", "0", "0", "0"]
    case Fixed(d) => ["fixed", Format(d), "0", "0"]
    case Exponential(i, m, x) => ["exponential", Format(i), Format(m), Format(x)]
  }

  function FailureArgs(job: string, worker: string, token: string, now: int, terminal: bool, policy: RetryPolicy)
    : seq<string>
  {
    [job, worker, token, FormatInt(now), if terminal then "terminal" else "retryable"]
    + match policy
      case Never => ["never", "0", "none", "0", "0", "0"]
      case Count(m, b) => ["count", Format(m)] + BackoffArgs(b)
      case Infinite(b) => ["infinite", "0"] + BackoffArgs(b)
  }

  /** `tonumber(ARGV[i]) or 0`. */
  function NumberOr0(s: string): int {
    match ReadInt(s)
    case None => 0
    case Some(n) => n
  }

  /** The script's decision, read off its arguments: does failure number `n` get a retry? */
  predicate ScriptRetries(argv: seq<string>, n: int)
    requires |argv| == 11
  {
    if argv[4] == "terminal" then false
    else if argv[5] == "never" then false
    else !(argv[5] == "count" && n > NumberOr0(argv[6]))
  }

  /** `delay_ms` after the script's loop. */
  function ScriptLoop(a: int, b: int, c: int, n: int): int
    decreases n
  {
    if n <= 1 then a else Min(ScriptLoop(a, b, c, n - 1) * b, c)
  }

  function ScriptDelay(argv: seq<string>, n: int): int
    requires |argv| == 11
  {
    if argv[7] == "none" then 0
    else if argv[7] == "fixed" then NumberOr0(argv[8])
    else ScriptLoop(NumberOr0(argv[8]), NumberOr0(argv[9]), NumberOr0(argv[10]), n)
  }

  lemma NumberRead(n: nat)
    ensures NumberOr0(Format(n)) == n
  {
    ReadFormatted(n);
  }

  lemma {:induction false} LoopIsCapped(initial: nat, multiplier: nat, max: nat, n: int)
    ensures ScriptLoop(initial, multiplier, max, n) == CappedDelay(initial, multiplier, max, n)
    decreases n
  {
    if n > 1 {
      LoopIsCapped(initial, multiplier, max, n - 1);
    }
  }

  lemma RetriesFaithful(job: string, worker: string, token: string, now: int, terminal: bool, policy: RetryPolicy, n: int)
    ensures var argv := FailureArgs(job, worker, token, now, terminal, policy);
            |argv| == 11 && (ScriptRetries(argv, n) <==> !terminal && Retries(policy, n))
  {
    hide NumberOr0, FormatInt, Format;
    if policy.Count? {
      NumberRead(policy.maxRetries);
    }
  }

  lemma DelayFaithful(job: string, worker: string, token: string, now: int, terminal: bool, policy: RetryPolicy, n: int)
    requires policy != Never
    ensures var argv := FailureArgs(job, worker, token, now, terminal, policy);
            |argv| == 11 && ScriptDelay(argv, n) == DelayMs(BackoffOf(policy), n)
  {
    var b := BackoffOf(policy);
    BackoffFaithful(b, n);
    hide BackoffArgs, ScriptDelay, DelayMs, FormatInt, Format;
    var count := if policy.Count? then ["count", Format(policy.maxRetries)] else ["infinite", "0"];
    var head := [job, worker, token, FormatInt(now), if terminal then "terminal" else "retryable"];
    assert FailureArgs(job, worker, token, now, terminal, policy) == (head + count) + BackoffArgs(b);
  }

  /** What the script decides from the strings is what the client's policy says, for every policy and every count. */
  lemma FailureArgsFaithful(job: string, worker: string, token: string, now: int, terminal: bool, policy: RetryPolicy, n: int)
    ensures var argv := FailureArgs(job, worker, token, now, terminal, policy);
            && |argv| == 11 && argv[..3] == [job, worker, token] && ReadInt(argv[3]) == Some(now)
            && (ScriptRetries(argv, n) <==> !terminal && Retries(policy, n))
            && (policy != Never ==> ScriptDelay(argv, n) == DelayMs(BackoffOf(policy), n))
  {
    ReadFormatted(now);
    RetriesFaithful(job, worker, token, now, terminal, policy, n);
    if policy != Never {
      DelayFaithful(job, worker, token, now, terminal, policy, n);
    }
    hide ScriptRetries, ScriptDelay, Retries, DelayMs, BackoffArgs, FormatInt, Format, ReadInt;
  }

  lemma BackoffFaithful(b: Backoff, n: int)
    ensures |BackoffArgs(b)| == 4
    ensures forall head: seq<string> | |head| == 7 :: ScriptDelay(head + BackoffArgs(b), n) == DelayMs(b, n)
  {
    match b
    case NoBackoff =>
    case Fixed(d) => NumberRead(d);
    case Exponential(i, m, x) =>
      NumberRead(i);
      NumberRead(m);
      NumberRead(x);
      LoopIsCapped(i, m, x, n);
  }

  /** The reply a reservation builds: "ok", the next schedule, then job, token and deadline of every grant. */
  function ReserveResponse(grants: seq<Grant>, next: int, deadline: int): seq<string> {
    ["ok", FormatInt(next)] + Triples(grants, deadline)
  }

  function Triples(grants: seq<Grant>, deadline: int): (r: seq<string>)
    ensures |r| == 3 * |grants|
  {
    if grants == [] then [] else [grants[0].job, grants[0].token, FormatInt(deadline)] + Triples(grants[1..], deadline)
  }

  /** `Panic` is a slice past the end of a reply that is too short. */
  datatype Batch = Batch(jobs: seq<Grant>, next: Option<int>) | ScriptError | InvalidData | Panic

  /** The client's reader. */
  method ReadBatch(response: seq<string>) returns (batch: Batch)
    ensures batch == BatchOf(response)
  {
    if |response| == 0 || response[0] != "ok" {
      return ScriptError;
    }
    var next := NextOf(response);
    if next == None {
      return InvalidData;
    }
    if |response| < 2 {
      return Panic;
    }
    var jobs := [];
    var rest := response[2..];
    NoJobsBefore(rest);
    while rest != []
      invariant JobsOf(response[2..]) == WithJobs(jobs, JobsOf(rest))
      decreases |rest|
    {
      if |rest| < 3 || ParseInt(rest[2]) == None {
        return InvalidData;
      }
      WithOneMore(jobs, Grant(rest[0], rest[1]), JobsOf(rest[3..]));
      jobs := jobs + [Grant(rest[0], rest[1])];
      rest := rest[3..];
    }
    return Batch(jobs, next.value);
  }

  /** The second entry: "0" or nothing means that nothing is scheduled. */
  function NextOf(response: seq<string>): Option<Option<int>> {
    if |response| < 2 || response[1] == "0" then Some(None)
    else
      match ParseInt(response[1])
      case None => None
      case Some(n) => Some(Some(n))
  }

  /** The grants in a list of triples, if every triple is complete and its deadline readable. */
  function JobsOf(triples: seq<string>): Option<seq<Grant>>
    decreases |triples|
  {
    if triples == [] then Some([])
    else if |triples| < 3 || ParseInt(triples[2]) == None then None
    else
      WithJobs([Grant(triples[0], triples[1])], JobsOf(triples[3..]))
  }

  function WithJobs(jobs: seq<Grant>, more: Option<seq<Grant>>): Option<seq<Grant>> {
    match more
    case None => None
    case Some(rest) => Some(jobs + rest)
  }

  lemma NoJobsBefore(triples: seq<string>)
    ensures WithJobs([], JobsOf(triples)) == JobsOf(triples)
  {
    hide JobsOf;
    if JobsOf(triples).Some? {
      assert [] + JobsOf(triples).value == JobsOf(triples).value;
    }
  }

  lemma WithOneMore(jobs: seq<Grant>, job: Grant, more: Option<seq<Grant>>)
    ensures WithJobs(jobs + [job], more) == WithJobs(jobs, WithJobs([job], more))
  {
    if more.Some? {
      assert jobs + [job] + more.value == jobs + ([job] + more.value);
    }
  }

  function BatchOf(response: seq<string>): Batch {
    if |response| == 0 || response[0] != "ok" then ScriptError
    else if NextOf(response) == None then InvalidData
    else if |response| < 2 then Panic
    else
      match JobsOf(response[2..])
      case None => InvalidData
      case Some(jobs) => Batch(jobs, NextOf(response).value)
  }

  lemma {:induction false} TriplesRead(grants: seq<Grant>, deadline: int)
    requires I64_MIN <= deadline <= I64_MAX
    ensures JobsOf(Triples(grants, deadline)) == Some(grants)
    decreases |grants|
  {
    if grants != [] {
      TriplesRead(grants[1..], deadline);
      ReadFormatted(deadline);
      assert Triples(grants, deadline)[3..] == Triples(grants[1..], deadline);
      assert [Grant(grants[0].job, grants[0].token)] + grants[1..] == grants;
    }
  }

  lemma {:induction false} TripleDeadlines(grants: seq<Grant>, deadline: int)
    ensures forall k: nat | k < |grants| :: ReadInt(Triples(grants, deadline)[3 * k + 2]) == Some(deadline)
    decreases |grants|
  {
    hide ReadInt, FormatInt;
    if grants != [] {
      ReadFormatted(deadline);
      TripleDeadlines(grants[1..], deadline);
      forall k: nat | k < |grants| ensures ReadInt(Triples(grants, deadline)[3 * k + 2]) == Some(deadline) {
        if k > 0 {
          assert Triples(grants, deadline)[3 * k + 2] == Triples(grants[1..], deadline)[3 * (k - 1) + 2];
        }
      }
    }
  }

  /** The client reads exactly the grants the script made, in their order, whatever the ids contain. */
  lemma BatchRoundTrip(grants: seq<Grant>, next: int, deadline: int)
    requires I64_MIN <= deadline <= I64_MAX && I64_MIN <= next <= I64_MAX
    ensures BatchOf(ReserveResponse(grants, next, deadline)) == Batch(grants, if next == 0 then None else Some(next))
    ensures forall k: nat | k < |grants| :: ReadInt(Triples(grants, deadline)[3 * k + 2]) == Some(deadline)
  {
    ReadFormatted(next);
    ReadFormatted(0);
    TriplesRead(grants, deadline);
    TripleDeadlines(grants, deadline);
    var response := ReserveResponse(grants, next, deadline);
    assert response[2..] == Triples(grants, deadline);
    assert FormatInt(0) == "0";
    hide FormatInt, ParseInt, Triples, JobsOf;
    assert ReadInt("0") == Some(0);
  }

  /** The slice fails for one reply only: the bare "ok", which no script sends. */
  lemma PanicIff(response: seq<string>)
    ensures BatchOf(response) == Panic <==> response == ["ok"]
  {
    hide ParseInt, JobsOf;
  }

  /** The deadline of triple `k` can be read. */
  predicate Complete(triples: seq<string>, k: nat)
    requires 3 * k + 2 < |triples|
  {
    ParseInt(triples[3 * k + 2]).Some?
  }

  ghost predicate AllComplete(triples: seq<string>) {
    |triples| % 3 == 0 && forall k: nat | 3 * k + 2 < |triples| :: Complete(triples, k)
  }

  /** Job and token of every triple. */
  ghost predicate ReadAs(triples: seq<string>, jobs: seq<Grant>) {
    3 * |jobs| == |triples| && forall k: nat | k < |jobs| :: jobs[k] == Grant(triples[3 * k], triples[3 * k + 1])
  }

  lemma {:induction false} JobsOfIff(triples: seq<string>)
    ensures JobsOf(triples).Some? <==> AllComplete(triples)
    ensures JobsOf(triples).Some? ==> ReadAs(triples, JobsOf(triples).value)
    decreases |triples|
  {
    if |triples| >= 3 {
      JobsOfIff(triples[3..]);
      CompleteCons(triples);
      hide ParseInt, AllComplete, ReadAs;
      if JobsOf(triples).Some? {
        ReadCons(triples, JobsOf(triples[3..]).value);
      }
    }
  }

  lemma CompleteCons(triples: seq<string>)
    requires |triples| >= 3
    ensures AllComplete(triples) <==> ParseInt(triples[2]).Some? && AllComplete(triples[3..])
  {
    hide ParseInt;
    var rest := triples[3..];
    forall k: nat | 3 * k + 2 < |rest| ensures Complete(rest, k) == Complete(triples, k + 1) {
      assert rest[3 * k + 2] == triples[3 * (k + 1) + 2];
    }
    assert Complete(triples, 0) == ParseInt(triples[2]).Some?;
    hide Complete;
    if ParseInt(triples[2]).Some? && AllComplete(rest) {
      forall k: nat | 3 * k + 2 < |triples| ensures Complete(triples, k) {
        if k > 0 {
          assert Complete(rest, k - 1);
        }
      }
    }
    if AllComplete(triples) {
      forall k: nat | 3 * k + 2 < |rest| ensures Complete(rest, k) {
        assert Complete(triples, k + 1);
      }
    }
  }

  lemma ReadCons(triples: seq<string>, jobs: seq<Grant>)
    requires |triples| >= 3 && ReadAs(triples[3..], jobs)
    ensures ReadAs(triples, [Grant(triples[0], triples[1])] + jobs)
  {
    var all := [Grant(triples[0], triples[1])] + jobs;
    forall k: nat | k < |all| ensures all[k] == Grant(triples[3 * k], triples[3 * k + 1]) {
      if k > 0 {
        assert jobs[k - 1] == Grant(triples[3..][3 * (k - 1)], triples[3..][3 * (k - 1) + 1]);
      }
    }
  }

  /** Which replies the client accepts: an "ok", a schedule it can read or "0", and complete triples with readable
      deadlines and nothing after them. */
  lemma AcceptedIff(response: seq<string>)
    ensures BatchOf(response).Batch? <==>
              && |response| >= 2 && response[0] == "ok" && (response[1] == "0" || ParseInt(response[1]).Some?)
              && AllComplete(response[2..])
    ensures BatchOf(response).Batch? ==>
              && BatchOf(response).next == (if response[1] == "0" then None else ParseInt(response[1]))
              && ReadAs(response[2..], BatchOf(response).jobs)
    ensures BatchOf(response) == ScriptError <==> response == [] || response[0] != "ok"
  {
    if |response| >= 2 {
      JobsOfIff(response[2..]);
    }
    hide ParseInt, JobsOf, AllComplete, ReadAs;
  }
}
