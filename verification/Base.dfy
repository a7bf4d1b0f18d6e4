/** Values shared by every part of the model: bytes, digests and sums over maps. */
module Base {

  datatype Option<+T> = None | Some(value: T)

  type Byte = b: int | 0 <= b < 256
  type Bytes = seq<Byte>

  /** SHA-256, taken to be injective: a digest is the symbolic hash of exactly one byte string. */
  datatype Hash = Sha256(preimage: Bytes)

  const PACKET := 128 * 1024
  const MAX_CHUNK := 2 * 1024 * 1024

  function Min(a: nat, b: nat): nat {
    if a < b then a else b
  }

  /** All the byte strings of a list, one after the other. */
  function Concat(parts: seq<Bytes>): Bytes {
    if parts == [] then [] else parts[0] + Concat(parts[1..])
  }

  lemma Associate(a: Bytes, b: Bytes, c: Bytes)
    ensures a + b + c == a + (b + c)
  {
  }

  lemma {:induction false} ConcatAppend(a: seq<Bytes>, b: seq<Bytes>)
    ensures Concat(a + b) == Concat(a) + Concat(b)
  {
    if a == [] {
      assert a + b == b;
    } else {
      assert (a + b)[0] == a[0] && (a + b)[1..] == a[1..] + b;
      ConcatAppend(a[1..], b);
      Associate(a[0], Concat(a[1..]), Concat(b));
    }
  }

  /** The sum of the values of a finite map. */
  ghost function Total<K>(m: map<K, nat>): nat {
    if m == map[] then 0
    else
      var k :| k in m;
      m[k] + Total(m - {k})
  }

  lemma {:induction false} TotalRemove<K>(m: map<K, nat>, k: K)
    requires k in m
    ensures Total(m) == m[k] + Total(m - {k})
    decreases |m|
  {
    var c :| c in m && Total(m) == m[c] + Total(m - {c});
    if c != k {
      assert |m - {c}| < |m| by { assert (m - {c}).Keys == m.Keys - {c}; }
      TotalRemove(m - {c}, k);
      assert m - {c} - {k} == m - {k} - {c};
      assert |m - {k}| < |m| by { assert (m - {k}).Keys == m.Keys - {k}; }
      TotalRemove(m - {k}, c);
    }
  }

  lemma {:induction false} TotalDisjoint<K>(a: map<K, nat>, b: map<K, nat>)
    requires a.Keys !! b.Keys
    ensures Total(a + b) == Total(a) + Total(b)
    decreases |b|
  {
    if b == map[] {
      assert a + b == a;
    } else {
      var k :| k in b;
      var rest := b - {k};
      assert rest.Keys == b.Keys - {k};
      TotalDisjoint(a, rest);
      TotalRemove(b, k);
      TotalRemove(a + b, k);
      SplitRemove(a, b, k);
    }
  }

  lemma SplitRemove<K>(a: map<K, nat>, b: map<K, nat>, k: K)
    requires k in b && k !in a
    ensures a + b - {k} == a + (b - {k})
  {
  }

  lemma {:induction false} TotalMonotone<K>(a: map<K, nat>, b: map<K, nat>)
    requires forall k | k in a :: k in b && a[k] <= b[k]
    ensures Total(a) <= Total(b)
    decreases |a|
  {
    if a != map[] {
      var k :| k in a;
      assert |a - {k}| < |a| by { assert (a - {k}).Keys == a.Keys - {k}; }
      TotalRemove(a, k);
      TotalRemove(b, k);
      TotalMonotone(a - {k}, b - {k});
    }
  }

  /** A map cut into two disjoint maps and zeros. */
  lemma TotalSplit<K>(all: map<K, nat>, a: map<K, nat>, b: map<K, nat>)
    requires a.Keys !! b.Keys && a.Keys + b.Keys <= all.Keys
    requires forall k | k in all :: all[k] == if k in a then a[k] else if k in b then b[k] else 0
    ensures Total(all) == Total(a) + Total(b)
  {
    hide Total;
    var outside := all - a.Keys;
    var zeros := outside - b.Keys;
    TotalPatch(all, a, outside);
    TotalPatch(outside, b, zeros);
    TotalZero(zeros);
  }

  lemma MapPatch<K>(all: map<K, nat>, part: map<K, nat>, rest: map<K, nat>)
    requires part.Keys !! rest.Keys && all.Keys == part.Keys + rest.Keys
    requires forall k | k in part :: all[k] == part[k]
    requires forall k | k in rest :: all[k] == rest[k]
    ensures all == part + rest
  {
  }

  lemma TotalPatch<K>(all: map<K, nat>, part: map<K, nat>, rest: map<K, nat>)
    requires part.Keys !! rest.Keys && all.Keys == part.Keys + rest.Keys
    requires forall k | k in part :: all[k] == part[k]
    requires forall k | k in rest :: all[k] == rest[k]
    ensures Total(all) == Total(part) + Total(rest)
  {
    hide Total;
    MapPatch(all, part, rest);
    TotalDisjoint(part, rest);
  }

  lemma {:induction false} TotalZero<K>(m: map<K, nat>)
    requires forall k | k in m :: m[k] == 0
    ensures Total(m) == 0
    decreases |m|
  {
    if m != map[] {
      var k :| k in m;
      TotalRemove(m, k);
      assert |m - {k}| < |m| by { assert (m - {k}).Keys == m.Keys - {k}; }
      TotalZero(m - {k});
    }
  }

  /** The members of a list that belong to a set, in list order. */
  function Select<T(==)>(list: seq<T>, keep: set<T>): seq<T> {
    if list == [] then []
    else if list[|list| - 1] in keep then Select(list[..|list| - 1], keep) + [list[|list| - 1]]
    else Select(list[..|list| - 1], keep)
  }
}
