/** Shared vocabulary: bytes, options, concatenation of chunk lists, and sums over finite maps. */
module Base {

  newtype byte = x: int | 0 <= x < 256

  type Bytes = seq<byte>

  datatype Option<+T> = None | Some(value: T)

  function Min(a: int, b: int): int {
    if a <= b then a else b
  }

  /** No element twice. */
  predicate Distinct<T(==)>(s: seq<T>) {
    forall i, j :: 0 <= i < j < |s| ==> s[i] != s[j]
  }

  /** The bytes of a list of chunks, in order. */
  function Flatten(chunks: seq<Bytes>): Bytes {
    if chunks == [] then [] else Flatten(chunks[..|chunks| - 1]) + chunks[|chunks| - 1]
  }

  lemma {:induction false} FlattenSnoc(chunks: seq<Bytes>, c: Bytes)
    ensures Flatten(chunks + [c]) == Flatten(chunks) + c
  {
    assert (chunks + [c])[..|chunks|] == chunks;
  }

  lemma {:induction false} FlattenConcat(a: seq<Bytes>, b: seq<Bytes>)
    ensures Flatten(a + b) == Flatten(a) + Flatten(b)
  {
    if b == [] {
      assert a + b == a;
    } else {
      var b' := b[..|b| - 1];
      FlattenConcat(a, b');
      assert (a + b)[..|a + b| - 1] == a + b';
      assert Flatten(a) + (Flatten(b') + b[|b| - 1]) == (Flatten(a) + Flatten(b')) + b[|b| - 1];
    }
  }

  lemma {:induction false} SliceOfSlice<T>(s: seq<T>, lo: nat, hi: nat, from: nat, to: nat)
    requires lo <= hi <= |s| && from <= to <= hi - lo
    ensures s[lo..hi][from..to] == s[lo + from..lo + to]
  {
    var a, b := s[lo..hi][from..to], s[lo + from..lo + to];
    assert |a| == |b|;
    assert forall i :: 0 <= i < |a| ==> a[i] == s[lo + from + i] && b[i] == s[lo + from + i];
  }

  /** The sum of a finite map's values. */
  ghost function Total<K>(m: map<K, int>): int
    decreases |m|
  {
    if m == map[] then 0
    else
      var k :| k in m;
      m[k] + Total(m - {k})
  }

  lemma {:induction false} TotalRemove<K>(m: map<K, int>, k: K)
    requires k in m
    ensures Total(m) == m[k] + Total(m - {k})
    decreases |m|
  {
    var k0 :| k0 in m && Total(m) == m[k0] + Total(m - {k0});
    if k0 != k {
      TotalRemove(m - {k0}, k);
      TotalRemove(m - {k}, k0);
      assert m - {k0} - {k} == m - {k} - {k0};
    }
  }

  lemma {:induction false} TotalInsert<K>(m: map<K, int>, k: K, v: int)
    requires k !in m
    ensures Total(m[k := v]) == v + Total(m)
  {
    TotalRemove(m[k := v], k);
    assert m[k := v] - {k} == m;
  }

  lemma {:induction false} TotalUpdate<K>(m: map<K, int>, k: K, v: int)
    requires k in m
    ensures Total(m[k := v]) == Total(m) - m[k] + v
  {
    TotalRemove(m[k := v], k);
    TotalRemove(m, k);
    assert m[k := v] - {k} == m - {k};
  }

  lemma {:induction false} SplitWithout<K>(m: map<K, int>, s: set<K>, k: K)
    requires k in m
    ensures var m' := m - {k};
      if k in s then m' - s == m - s && (m - (m.Keys - s)) - {k} == m' - (m'.Keys - s)
      else m' - (m'.Keys - s) == m - (m.Keys - s) && (m - s) - {k} == m' - s
  {
  }

  /** Splitting a map by a set of keys splits its sum. */
  lemma {:induction false} TotalSplit<K>(m: map<K, int>, s: set<K>)
    ensures Total(m) == Total(m - s) + Total(m - (m.Keys - s))
    decreases |m|
  {
    if k :| k in m {
      TotalSplit(m - {k}, s);
      SplitWithout(m, s, k);
      TotalRemove(m, k);
      TotalRemove(if k in s then m - (m.Keys - s) else m - s, k);
    } else {
      assert m - s == m && m - (m.Keys - s) == m && m == map[];
    }
  }

  lemma {:induction false} TotalBounds<K>(m: map<K, int>)
    requires forall k :: k in m ==> m[k] >= 0
    ensures Total(m) >= 0
    ensures forall k :: k in m ==> m[k] <= Total(m)
    decreases |m|
  {
    if m != map[] {
      forall k | k in m ensures 0 <= m[k] <= Total(m) {
        TotalRemove(m, k);
        TotalBounds(m - {k});
      }
    }
  }

  lemma {:induction false} TotalZero<K>(m: map<K, int>)
    requires forall k :: k in m ==> m[k] == 0
    ensures Total(m) == 0
    decreases |m|
  {
    if m != map[] {
      var k :| k in m;
      TotalRemove(m, k);
      TotalZero(m - {k});
    }
  }
}
