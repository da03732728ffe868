/** The names of the Redis keys of a namespace. */
module Keys {
  import opened Wrappers
  import opened Codec
  import opened Decimal

  const HEX := "0123456789abcdef"

  type Byte = b: int | 0 <= b < 256

  datatype Field =
    | Cfg | Failures | Ready | Scheduled | Leased | LeaseRecords | Rerun | FailedJobs
    | WorkersLastSeen | WorkersConfig | WorkersLeases

  function HexByte(b: Byte): (s: string)
    ensures |s| == 2 && '{' !in s && '}' !in s
  {
    [HEX[b / 16], HEX[b % 16]]
  }

  /** The raw bytes of the namespace in lower-case hexadecimal. */
  function Slot(namespace: seq<Byte>): (s: string)
    ensures |s| == 2 * |namespace| && '{' !in s && '}' !in s
  {
    if namespace == [] then "" else HexByte(namespace[0]) + Slot(namespace[1..])
  }

  function Suffix(f: Field): string {
    match f
    case Cfg => "cfg"
    case Failures => "failures"
    case Ready => "ready"
    case Scheduled => "scheduled"
    case Leased => "leased"
    case LeaseRecords => "lease_meta"
    case Rerun => "rerun"
    case FailedJobs => "failed"
    case WorkersLastSeen => "workers:last_seen"
    case WorkersConfig => "workers:config"
    case WorkersLeases => "workers:leases"
  }

  /** The part of a key that all fields of a namespace share. */
  function Head(prefix: string, namespace: seq<Byte>): string {
    prefix + "{" + Slot(namespace) + "}"
  }

  function Key(prefix: string, namespace: seq<Byte>, f: Field): string {
    Head(prefix, namespace) + ":" + Suffix(f)
  }

  /** The key of the namespace catalog. */
  function CatalogKey(prefix: string): string {
    if prefix == "" then "namespaces" else prefix + ":namespaces"
  }

  lemma HexByteInjective(a: Byte, b: Byte)
    requires HexByte(a) == HexByte(b)
    ensures a == b
  {
    var x, y := HexByte(a), HexByte(b);
    assert x[0] == y[0] && x[1] == y[1];
    HexDigitInjective(a / 16, b / 16);
    HexDigitInjective(a % 16, b % 16);
  }

  lemma HexDigitInjective(i: nat, k: nat)
    requires i < 16 && k < 16 && HEX[i] == HEX[k]
    ensures i == k
  {
    assert forall d | 0 <= d < 16 :: HEX[d] as int == if d < 10 then 48 + d else 87 + d;
  }

  lemma {:induction false} SlotInjective(m: seq<Byte>, n: seq<Byte>)
    requires Slot(m) == Slot(n)
    ensures m == n
    decreases |m|
  {
    if m != [] {
      assert n != [];
      assert Slot(m)[..2] == HexByte(m[0]) && Slot(n)[..2] == HexByte(n[0]);
      assert Slot(m)[2..] == Slot(m[1..]) && Slot(n)[2..] == Slot(n[1..]);
      HexByteInjective(m[0], n[0]);
      SlotInjective(m[1..], n[1..]);
      assert m == [m[0]] + m[1..] && n == [n[0]] + n[1..];
    }
  }

  lemma SuffixInjective(f: Field, g: Field)
    requires Suffix(f) == Suffix(g)
    ensures f == g
  {
    assert |Suffix(f)| == |Suffix(g)|;
    if |Suffix(f)| == 5 {
      assert Suffix(f)[2] == Suffix(g)[2];
    } else if |Suffix(f)| == 6 {
      assert Suffix(f)[0] == Suffix(g)[0];
    } else if |Suffix(f)| == 14 {
      assert Suffix(f)[8] == Suffix(g)[8];
    }
  }

  /** A text without '}' that ends at the first '}' can be cut off again in only one way. */
  lemma BraceCuts(a: string, x: string, b: string, y: string)
    requires '}' !in a && '}' !in b && a + "}" + x == b + "}" + y
    ensures a == b && x == y
  {
    var s, t := a + "}" + x, b + "}" + y;
    assert s[|a|] == '}' && t[|b|] == '}';
    assert forall i | 0 <= i < |a| :: s[i] == a[i];
    assert forall i | 0 <= i < |b| :: t[i] == b[i];
    assert |a| == |b|;
    assert s[..|a|] == a && t[..|b|] == b && s[|a| + 1..] == x && t[|b| + 1..] == y;
  }

  /** No two namespaces under one prefix share a key, and no two fields of a namespace do. */
  lemma KeysApart(prefix: string, m: seq<Byte>, f: Field, n: seq<Byte>, g: Field)
    requires Key(prefix, m, f) == Key(prefix, n, g)
    ensures m == n && f == g
  {
    var x, y := Slot(m) + "}" + (":" + Suffix(f)), Slot(n) + "}" + (":" + Suffix(g));
    hide Suffix, Slot;
    assert Key(prefix, m, f) == (prefix + "{") + x && Key(prefix, n, g) == (prefix + "{") + y;
    AppendInjective(prefix + "{", x, y);
    BraceCuts(Slot(m), ":" + Suffix(f), Slot(n), ":" + Suffix(g));
    AppendInjective(":", Suffix(f), Suffix(g));
    SlotInjective(m, n);
    SuffixInjective(f, g);
  }

  lemma CatalogApart(prefix: string, n: seq<Byte>, f: Field)
    ensures CatalogKey(prefix) != Key(prefix, n, f)
  {
    hide Suffix, Slot;
    assert Key(prefix, n, f)[|prefix|] == '{';
    assert CatalogKey(prefix)[|prefix|] != '{';
  }

  /** What Redis Cluster hashes of a key: what stands between the first '{' and the next '}', unless that is empty or
      missing; then the whole key. */
  function HashedPart(key: string): string {
    match IndexOf(key, '{')
    case None => key
    case Some(i) =>
      var rest := key[i + 1..];
      match IndexOf(rest, '}')
      case None => key
      case Some(n) => if n == 0 then key else rest[..n]
  }

  /** A namespace is kept together unless its tag is empty: the empty namespace, or a prefix that brings "{}" itself. */
  predicate TagNotEmpty(prefix: string, namespace: seq<Byte>) {
    match IndexOf(prefix, '{')
    case None => namespace != []
    case Some(i) => i + 1 == |prefix| || prefix[i + 1] != '}'
  }

  lemma {:induction false} IndexOfAppend(s: string, t: string, c: char)
    ensures c in s ==> IndexOf(s + t, c) == IndexOf(s, c)
    ensures c !in s ==> IndexOf(s, c) == None
    decreases |s|
  {
    if s != [] {
      assert (s + t)[1..] == s[1..] + t;
      IndexOfAppend(s[1..], t, c);
      assert s == [s[0]] + s[1..];
    }
  }

  /** The first '{' of the head is the prefix's own, if it has one. */
  lemma FirstBrace(prefix: string, namespace: seq<Byte>) returns (i: nat)
    ensures IndexOf(Head(prefix, namespace), '{') == Some(i) && i <= |prefix|
    ensures IndexOf(prefix, '{') == if i < |prefix| then Some(i) else None
  {
    var rest := "{" + Slot(namespace) + "}";
    assert Head(prefix, namespace) == prefix + rest;
    IndexOfAppend(prefix, rest, '{');
    if '{' in prefix {
      i := IndexOf(prefix, '{').value;
    } else {
      IndexOfFirst(prefix + rest, '{', |prefix|);
      i := |prefix|;
    }
  }

  lemma CutAppend(s: string, t: string, k: nat)
    requires k <= |s|
    ensures (s + t)[k..] == s[k..] + t && (s + t)[..k] == s[..k]
  {
  }

  lemma HashedAt(key: string, i: nat, n: nat)
    requires IndexOf(key, '{') == Some(i) && i < |key| && IndexOf(key[i + 1..], '}') == Some(n) && n <= |key[i + 1..]|
    ensures HashedPart(key) == if n == 0 then key else key[i + 1..][..n]
  {
    hide IndexOf;
  }

  lemma HashedPrefix(head: string, tail: string, i: nat)
    requires IndexOf(head, '{') == Some(i) && i + 1 < |head| && head[|head| - 1] == '}'
    ensures HashedPart(head + tail) == if head[i + 1] != '}' then HashedPart(head) else head + tail
  {
    hide IndexOf, HashedPart;
    var rest := head[i + 1..];
    assert rest[|rest| - 1] == '}' && rest[0] == head[i + 1];
    IndexOfAppend(head, tail, '{');
    IndexOfAppend(rest, tail, '}');
    CutAppend(head, tail, i + 1);
    var n := IndexOf(rest, '}').value;
    CutAppend(rest, tail, n);
    HashedAt(head, i, n);
    HashedAt(head + tail, i, n);
    assert n == 0 <==> rest[0] == '}';
  }

  /** The hashed part of a key depends on its head alone, if the tag is not empty; otherwise it is the whole key. */
  lemma HashedOfHead(prefix: string, namespace: seq<Byte>, f: Field)
    ensures var head, key := Head(prefix, namespace), Key(prefix, namespace, f);
            if TagNotEmpty(prefix, namespace) then HashedPart(key) == HashedPart(head) else HashedPart(key) == key
  {
    hide Suffix, HashedPart, IndexOf, TagNotEmpty;
    var head, tail := Head(prefix, namespace), ":" + Suffix(f);
    assert head + tail == Key(prefix, namespace, f);
    assert head[|head| - 1] == '}';
    var i := FirstBrace(prefix, namespace);
    TagStart(prefix, namespace, i);
    HashedPrefix(head, tail, i);
  }

  /** The tag starts right after the first '{' of the head. */
  lemma TagStart(prefix: string, namespace: seq<Byte>, i: nat)
    requires i <= |prefix| && i + 1 < |Head(prefix, namespace)|
    requires IndexOf(prefix, '{') == if i < |prefix| then Some(i) else None
    ensures TagNotEmpty(prefix, namespace) <==> Head(prefix, namespace)[i + 1] != '}'
  {
    var head, slot := Head(prefix, namespace), Slot(namespace);
    if i == |prefix| {
      assert head[i + 1] == (slot + "}")[0];
      if namespace != [] {
        assert slot[0] in slot;
      }
    } else if i + 1 == |prefix| {
      assert head[i + 1] == '{';
    } else {
      assert head[i + 1] == prefix[i + 1];
    }
  }

  /** All keys of a namespace hash to one cluster slot exactly when the tag is not empty. With an empty tag every key is
      hashed as a whole, and no two of them alike. */
  lemma OneSlotPerNamespace(prefix: string, namespace: seq<Byte>, f: Field, g: Field)
    requires f != g
    ensures HashedPart(Key(prefix, namespace, f)) == HashedPart(Key(prefix, namespace, g))
        <==> TagNotEmpty(prefix, namespace)
  {
    HashedOfHead(prefix, namespace, f);
    HashedOfHead(prefix, namespace, g);
    hide Key, HashedPart, TagNotEmpty;
    if Key(prefix, namespace, f) == Key(prefix, namespace, g) {
      KeysApart(prefix, namespace, f, namespace, g);
    }
  }

  /** The layout promises one slot for every namespace; the empty namespace breaks it under an ordinary prefix. */
  lemma EmptyNamespaceIsScattered()
    ensures HashedPart(Key("redloop", [], Ready)) != HashedPart(Key("redloop", [], Leased))
  {
    IndexOfAppend("redloop", "", '{');
    assert "redloop" + "" == "redloop";
    OneSlotPerNamespace("redloop", [], Ready, Leased);
  }
}
