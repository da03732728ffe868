/** Redis sorted sets: a score for each member, members ordered by (score, member bytes). */
module SortedSets {

  type ZSet = map<string, int>

  /** Byte-wise order of members, which decides between equal scores. */
  predicate LexBefore(a: string, b: string) {
    |b| > 0 && (|a| == 0 || a[0] < b[0] || (a[0] == b[0] && LexBefore(a[1..], b[1..])))
  }

  lemma {:induction false} LexTotal(a: string, b: string)
    ensures a == b || LexBefore(a, b) || LexBefore(b, a)
  {
    if |a| > 0 && |b| > 0 && a[0] == b[0] {
      LexTotal(a[1..], b[1..]);
      assert a == [a[0]] + a[1..] && b == [b[0]] + b[1..];
    }
  }

  lemma {:induction false} LexAsymmetric(a: string, b: string)
    requires LexBefore(a, b)
    ensures !LexBefore(b, a)
  {
    if |a| > 0 && a[0] == b[0] {
      LexAsymmetric(a[1..], b[1..]);
    }
  }

  lemma {:induction false} LexTransitive(a: string, b: string, c: string)
    requires LexBefore(a, b) && LexBefore(b, c)
    ensures LexBefore(a, c)
  {
    if |a| > 0 && a[0] == b[0] == c[0] {
      LexTransitive(a[1..], b[1..], c[1..]);
    }
  }

  predicate Before(z: ZSet, a: string, b: string)
    requires a in z && b in z
  {
    z[a] < z[b] || (z[a] == z[b] && LexBefore(a, b))
  }

  lemma BeforeTotal(z: ZSet, a: string, b: string)
    requires a in z && b in z
    ensures a == b || Before(z, a, b) || Before(z, b, a)
  {
    LexTotal(a, b);
  }

  lemma BeforeAsymmetric(z: ZSet, a: string, b: string)
    requires a in z && b in z && Before(z, a, b)
    ensures !Before(z, b, a) && a != b
  {
    if z[a] == z[b] {
      LexAsymmetric(a, b);
    }
  }

  lemma BeforeTransitive(z: ZSet, a: string, b: string, c: string)
    requires a in z && b in z && c in z
    requires Before(z, a, b) && Before(z, b, c)
    ensures Before(z, a, c)
  {
    if z[a] == z[b] == z[c] {
      LexTransitive(a, b, c);
    }
  }

  predicate IsFirst(z: ZSet, m: string) {
    m in z && forall k | k in z && k != m :: Before(z, m, k)
  }

  lemma {:induction false} FirstExists(z: ZSet) returns (m: string)
    requires z != map[]
    ensures IsFirst(z, m)
    decreases |z|
  {
    var c :| c in z;
    var rest := z - {c};
    assert z.Keys == rest.Keys + {c};
    if rest == map[] {
      m := c;
      assert z.Keys == {c};
    } else {
      var r := FirstExists(rest);
      BeforeTotal(z, c, r);
      m := if Before(z, c, r) then c else r;
      forall k | k in z && k != m ensures Before(z, m, k) {
        if k != c && k != r {
          assert k in rest && Before(rest, r, k);
          if m == c {
            BeforeTransitive(z, c, r, k);
          }
        }
      }
    }
  }

  lemma FirstUnique(z: ZSet, a: string, b: string)
    requires IsFirst(z, a) && IsFirst(z, b)
    ensures a == b
  {
    if a != b {
      BeforeAsymmetric(z, a, b);
    }
  }

  /** The member `ZRANGE z 0 0` returns. */
  function First(z: ZSet): (m: string)
    requires z != map[]
    ensures IsFirst(z, m)
  {
    assert exists m :: IsFirst(z, m) by {
      var m := FirstExists(z);
    }
    assert forall a, b | IsFirst(z, a) && IsFirst(z, b) :: a == b by {
      forall a, b | IsFirst(z, a) && IsFirst(z, b) ensures a == b {
        FirstUnique(z, a, b);
      }
    }
    var m :| m in z && IsFirst(z, m);
    m
  }

  /** The members `ZRANGEBYSCORE z -inf now` selects. */
  function UpTo(z: ZSet, now: int): (r: ZSet)
    ensures r.Keys <= z.Keys
    ensures forall j | j in r :: r[j] == z[j] && r[j] <= now
    ensures forall j | j in z && z[j] <= now :: j in r
  {
    map j | j in z && z[j] <= now :: z[j]
  }

  lemma UpToWithout(z: ZSet, now: int, m: string)
    ensures UpTo(z - {m}, now) == UpTo(z, now) - {m}
  {
  }

  /** All members in order: what `ZRANGE z 0 -1` returns. */
  function Ranked(z: ZSet): (order: seq<string>)
    ensures |order| == |z|
    decreases |z|
  {
    if z == map[] then []
    else
      var m := First(z);
      assert (z - {m}).Keys == z.Keys - {m};
      [m] + Ranked(z - {m})
  }

  lemma RankedUnfold(z: ZSet)
    requires z != map[]
    ensures (z - {First(z)}).Keys == z.Keys - {First(z)}
    ensures |z - {First(z)}| == |z| - 1
    ensures Ranked(z) == [First(z)] + Ranked(z - {First(z)})
  {
  }

  lemma RankedPrefix(z: ZSet, n: nat)
    requires 0 < n <= |z|
    ensures |z - {First(z)}| == |z| - 1
    ensures Ranked(z)[..n] == [First(z)] + Ranked(z - {First(z)})[..n - 1]
  {
    RankedUnfold(z);
    hide First, Ranked;
  }

  /** `Ranked` lists exactly the members ... */
  lemma {:induction false} RankedMembers(z: ZSet)
    ensures forall j :: j in Ranked(z) <==> j in z
    decreases |z|
  {
    if z != map[] {
      var rest := z - {First(z)};
      RankedUnfold(z);
      RankedMembers(rest);
      forall j ensures j in Ranked(z) <==> j in z {
        assert j in Ranked(rest) <==> j in rest;
      }
    }
  }

  lemma BeforeWithout(z: ZSet, m: string, a: string, b: string)
    requires a in z - {m} && b in z - {m}
    ensures a in z && b in z && Before(z - {m}, a, b) == Before(z, a, b)
  {
  }

  /** ... in strictly increasing order. */
  lemma {:induction false} RankedSorted(z: ZSet, i: nat, k: nat)
    requires i < k < |z|
    ensures Ranked(z)[i] in z && Ranked(z)[k] in z && Before(z, Ranked(z)[i], Ranked(z)[k])
    decreases |z|
  {
    hide *;
    var m := First(z);
    var rest := z - {m};
    RankedAt(z, k);
    if i == 0 {
      FirstBefore(z, Ranked(z)[k]);
    } else {
      RankedAt(z, i);
      RankedSorted(rest, i - 1, k - 1);
      BeforeWithout(z, m, Ranked(z)[i], Ranked(z)[k]);
    }
  }

  lemma RankedAt(z: ZSet, k: nat)
    requires 0 < k < |z|
    ensures Ranked(z)[0] == First(z) && First(z) in z
    ensures |z - {First(z)}| == |z| - 1
    ensures Ranked(z)[k] == Ranked(z - {First(z)})[k - 1]
    ensures Ranked(z)[k] in z && Ranked(z)[k] != First(z)
  {
    var rest := z - {First(z)};
    RankedUnfold(z);
    RankedMembers(rest);
    hide Ranked;
    assert Ranked(rest)[k - 1] in Ranked(rest);
  }

  lemma FirstBefore(z: ZSet, b: string)
    requires b in z && b != First(z)
    ensures First(z) in z && Before(z, First(z), b)
  {
  }

  lemma RankedDistinct(z: ZSet, i: nat, k: nat)
    requires i < |z| && k < |z| && Ranked(z)[i] == Ranked(z)[k]
    ensures i == k
  {
    if i < k {
      RankedSorted(z, i, k);
      BeforeAsymmetric(z, Ranked(z)[i], Ranked(z)[k]);
    } else if k < i {
      RankedSorted(z, k, i);
      BeforeAsymmetric(z, Ranked(z)[k], Ranked(z)[i]);
    }
  }

  /** The members ordered before `j`. */
  ghost function Ahead(z: ZSet, j: string): set<string>
    requires j in z
  {
    set k | k in z && Before(z, k, j)
  }

  lemma AheadOfFirst(z: ZSet)
    requires z != map[]
    ensures Ahead(z, First(z)) == {}
  {
    forall k | k in z && Before(z, k, First(z)) ensures false {
      BeforeAsymmetric(z, k, First(z));
    }
  }

  lemma AheadOfRest(z: ZSet, j: string)
    requires z != map[] && j in z && j != First(z)
    ensures Ahead(z, j) == Ahead(z - {First(z)}, j) + {First(z)}
  {
  }

  /** A member's position in the order is the number of members ahead of it. */
  lemma {:induction false} RankIsPosition(z: ZSet, j: string)
    requires j in z
    ensures |Ahead(z, j)| < |z| && Ranked(z)[|Ahead(z, j)|] == j
    decreases |z|
  {
    var m := First(z);
    RankedUnfold(z);
    if j == m {
      AheadOfFirst(z);
    } else {
      var rest := z - {m};
      RankIsPosition(rest, j);
      AheadOfRest(z, j);
    }
  }
}
