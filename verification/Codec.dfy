/** Lease records, as grants write them and both sides read them. Strings stand for byte strings: one `char` is one
    byte, as `string.len` and `str::len` count them. */
module Codec {
  import opened Wrappers
  import opened Decimal

  /** The record a grant stores in `lease_meta`: byte length of the worker id, ':', worker id, token. */
  function PackLease(worker: string, token: string): string {
    Format(|worker|) + ":" + worker + token
  }

  /** `string.find(s, c, 1, true)` and `str::find`: the first position of `c`. */
  function IndexOf(s: string, c: char): (r: Option<nat>)
    ensures r.None? ==> c !in s
    ensures r.Some? ==> r.value < |s| && s[r.value] == c && c !in s[..r.value]
  {
    if s == [] then None
    else if s[0] == c then Some(0)
    else
      match IndexOf(s[1..], c)
      case None => None
      case Some(i) =>
        assert s[..i + 1] == [s[0]] + s[1..][..i];
        Some(i + 1)
  }

  /** `tonumber` on a string of decimal digits. */
  function ToNumber(s: string): Option<nat> {
    if s != [] && AllDigits(s) then Some(Value(s)) else None
  }

  /** The scripts' decoder: `string.sub` clamps at the end of the record. */
  function WorkerFromMeta(meta: string): Option<string> {
    match IndexOf(meta, ':')
    case None => None
    case Some(d) =>
      match ToNumber(meta[..d])
      case None => None
      case Some(length) =>
        var rest := meta[d + 1..];
        Some(if length <= |rest| then rest[..length] else rest)
  }

  datatype LeaseMeta =
    | LeaseHolder(worker: string, token: string)
    | MissingDelimiter
    | BadLength
    | ShortWorker

  /** The client's decoder. */
  function ParseLeaseMeta(meta: string): LeaseMeta {
    match IndexOf(meta, ':')
    case None => MissingDelimiter
    case Some(d) =>
      match ParseUnsigned(meta[..d], USIZE_MAX)
      case None => BadLength
      case Some(length) =>
        var rest := meta[d + 1..];
        if |rest| < length then ShortWorker else LeaseHolder(rest[..length], rest[length..])
  }

  lemma {:induction false} IndexOfFirst(s: string, c: char, k: nat)
    requires k < |s| && s[k] == c
    requires forall i | 0 <= i < k :: s[i] != c
    ensures IndexOf(s, c) == Some(k)
  {
    if k > 0 {
      IndexOfFirst(s[1..], c, k - 1);
    }
  }

  lemma FieldDelimiter(field: string, rest: string)
    requires AllDigits(field)
    ensures var s := field + ":" + rest;
            IndexOf(s, ':') == Some(|field|) && s[..|field|] == field && s[|field| + 1..] == rest
  {
    var s := field + ":" + rest;
    assert s[|field|] == ':';
    assert forall i | 0 <= i < |field| :: s[i] == field[i] && IsDigit(s[i]);
    IndexOfFirst(s, ':', |field|);
  }

  /** The first ':' ends the length field, whatever the worker id contains. */
  lemma PackedDelimiter(worker: string, token: string)
    ensures IndexOf(PackLease(worker, token), ':') == Some(|Format(|worker|)|)
    ensures PackLease(worker, token)[..|Format(|worker|)|] == Format(|worker|)
    ensures PackLease(worker, token)[|Format(|worker|)| + 1..] == worker + token
  {
    assert PackLease(worker, token) == Format(|worker|) + ":" + (worker + token);
    FieldDelimiter(Format(|worker|), worker + token);
  }

  lemma PackInjective(w1: string, t1: string, w2: string, t2: string)
    requires PackLease(w1, t1) == PackLease(w2, t2)
    ensures w1 == w2 && t1 == t2
  {
    assert PackLease(w1, t1) == Format(|w1|) + ":" + (w1 + t1);
    assert PackLease(w2, t2) == Format(|w2|) + ":" + (w2 + t2);
    FieldInjective(|w1|, w1 + t1, |w2|, w2 + t2);
    assert w1 == (w1 + t1)[..|w1|] && w2 == (w2 + t2)[..|w2|];
    assert t1 == (w1 + t1)[|w1|..] && t2 == (w2 + t2)[|w2|..];
  }

  lemma WorkerOfPacked(worker: string, token: string)
    ensures WorkerFromMeta(PackLease(worker, token)) == Some(worker)
  {
    PackedDelimiter(worker, token);
    FormatValue(|worker|);
    assert (worker + token)[..|worker|] == worker;
  }

  /** The client recovers both fields of every record a script wrote; the worker id of a Rust string is never
      longer than `usize::MAX`. */
  lemma ParsePacked(worker: string, token: string)
    requires |worker| <= USIZE_MAX
    ensures ParseLeaseMeta(PackLease(worker, token)) == LeaseHolder(worker, token)
  {
    PackedDelimiter(worker, token);
    ParseFormat(|worker|, USIZE_MAX);
    assert (worker + token)[..|worker|] == worker;
    assert (worker + token)[|worker|..] == token;
  }

  /** On any record at all, well formed or not, a worker the client reports is the one the scripts decrement,
      unless the length field carries the '+' that only `str::parse` reads. */
  lemma DecodersAgree(meta: string)
    requires ParseLeaseMeta(meta).LeaseHolder?
    requires meta[0] != '+'
    ensures WorkerFromMeta(meta) == Some(ParseLeaseMeta(meta).worker)
  {
    var d := IndexOf(meta, ':').value;
    assert meta[..d] != [] && meta[..d][0] == meta[0];
  }
}
