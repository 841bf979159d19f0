/** Optional values and sums over rows, shared by every component. */
module Common {

  datatype Option<+T> = None | Some(value: T)

  /** Instants and durations are counted in nanoseconds. */
  const SECOND := 1_000_000_000

  /** Go's integer division, which truncates toward zero. */
  function GoDiv(n: int, d: int): int
    requires d > 0
  {
    if n >= 0 then n / d else -((-n) / d)
  }

  /** Characters that Go's unicode.IsSpace accepts. */
  predicate IsSpace(c: char)
  {
    var n := c as int;
    || 9 <= n <= 13 || n == 0x20 || n == 0x85 || n == 0xA0 || n == 0x1680 || 0x2000 <= n <= 0x200A
    || n == 0x2028 || n == 0x2029 || n == 0x202F || n == 0x205F || n == 0x3000
  }

  function TrimSpace(s: string): string
  {
    if |s| > 0 && IsSpace(s[0]) then TrimSpace(s[1..])
    else if |s| > 0 && IsSpace(s[|s| - 1]) then TrimSpace(s[..|s| - 1])
    else s
  }

  /** Trimming leaves nothing exactly of a text that is all space. */
  lemma {:induction false} TrimmedIsEmptyIff(s: string)
    ensures TrimSpace(s) == "" <==> forall i :: 0 <= i < |s| ==> IsSpace(s[i])
  {
    if |s| > 0 && IsSpace(s[0]) {
      TrimmedIsEmptyIff(s[1..]);
      assert forall i :: 0 < i < |s| ==> s[i] == s[1..][i - 1];
    } else if |s| > 0 && IsSpace(s[|s| - 1]) {
      TrimmedIsEmptyIff(s[..|s| - 1]);
      assert s[..|s| - 1][0] == s[0] || |s| == 1;
    }
  }

  /** Trimming cuts space off both ends and nothing else. */
  lemma {:induction false} TrimmedIs(s: string) returns (left: string, right: string)
    ensures s == left + TrimSpace(s) + right
    ensures forall c :: c in left + right ==> IsSpace(c)
    ensures TrimSpace(s) != "" ==> !IsSpace(TrimSpace(s)[0]) && !IsSpace(TrimSpace(s)[|TrimSpace(s)| - 1])
  {
    left, right := "", "";
    if |s| > 0 && IsSpace(s[0]) {
      left, right := TrimmedIs(s[1..]);
      left := [s[0]] + left;
      assert s == [s[0]] + s[1..];
    } else if |s| > 0 && IsSpace(s[|s| - 1]) {
      left, right := TrimmedIs(s[..|s| - 1]);
      right := right + [s[|s| - 1]];
      assert s == s[..|s| - 1] + [s[|s| - 1]];
    }
  }

  predicate Distinct<T(==)>(s: seq<T>)
  {
    forall i, j :: 0 <= i < j < |s| ==> s[i] != s[j]
  }

  /** The sum of a weight over the rows of a table kept in insertion order. */
  function SumSeq<T>(s: seq<T>, w: T -> int): int
  {
    if |s| == 0 then 0 else SumSeq(s[..|s| - 1], w) + w(s[|s| - 1])
  }

  lemma SumAppend<T>(s: seq<T>, x: T, w: T -> int)
    ensures SumSeq(s + [x], w) == SumSeq(s, w) + w(x)
  {
    assert (s + [x])[..|s|] == s;
  }

  lemma SumPair<T>(x: T, y: T, w: T -> int)
    ensures SumSeq([x], w) == w(x)
    ensures SumSeq([x, y], w) == w(x) + w(y)
  {
    assert [x][..0] == [] && [x, y][..1] == [x];
  }

  lemma {:induction false} SumConcat<T>(s: seq<T>, t: seq<T>, w: T -> int)
    ensures SumSeq(s + t, w) == SumSeq(s, w) + SumSeq(t, w)
  {
    if |t| == 0 {
      assert s + t == s;
    } else {
      assert (s + t)[..|s + t| - 1] == s + t[..|t| - 1];
      SumConcat(s, t[..|t| - 1], w);
    }
  }

  /** A weight that is zero on every row sums to zero. */
  lemma {:induction false} SumZero<T>(s: seq<T>, w: T -> int)
    requires forall x :: x in s ==> w(x) == 0
    ensures SumSeq(s, w) == 0
  {
    if |s| > 0 {
      SumZero(s[..|s| - 1], w);
    }
  }

  /** Two weights that agree on every row have the same sum. */
  lemma {:induction false} SumCongruent<T>(s: seq<T>, v: T -> int, w: T -> int)
    requires forall x :: x in s ==> v(x) == w(x)
    ensures SumSeq(s, v) == SumSeq(s, w)
  {
    if |s| > 0 {
      SumCongruent(s[..|s| - 1], v, w);
    }
  }

  lemma {:induction false} SumOfSums<T>(s: seq<T>, u: T -> int, v: T -> int, w: T -> int)
    requires forall x :: x in s ==> w(x) == u(x) + v(x)
    ensures SumSeq(s, w) == SumSeq(s, u) + SumSeq(s, v)
  {
    if |s| > 0 {
      SumOfSums(s[..|s| - 1], u, v, w);
    }
  }

  /** The sum of a weight over the rows of a table with a primary key. */
  ghost function SumMap<K(!new), V(!new)>(m: map<K, V>, w: (K, V) -> int): int
    decreases |m|
  {
    if |m| == 0 then 0 else var k := AnyKey(m); w(k, m[k]) + SumMap(m - {k}, w)
  }

  ghost function AnyKey<K(!new), V(!new)>(m: map<K, V>): (k: K)
    requires |m| > 0
    ensures k in m
  {
    var k :| k in m; k
  }

  /** The sum does not depend on the order in which rows are taken. */
  lemma {:induction false} SumMapTake<K(!new), V(!new)>(m: map<K, V>, k: K, w: (K, V) -> int)
    requires k in m
    ensures SumMap(m, w) == w(k, m[k]) + SumMap(m - {k}, w)
    decreases |m|
  {
    var j := AnyKey(m);
    if j != k {
      SumMapTake(m - {j}, k, w);
      SumMapTake(m - {k}, j, w);
      assert m - {j} - {k} == m - {k} - {j};
    }
  }

  lemma SumMapInsert<K(!new), V(!new)>(m: map<K, V>, k: K, v: V, w: (K, V) -> int)
    requires k !in m
    ensures SumMap(m[k := v], w) == SumMap(m, w) + w(k, v)
  {
    SumMapTake(m[k := v], k, w);
    assert m[k := v] - {k} == m;
  }

  lemma SumMapUpdate<K(!new), V(!new)>(m: map<K, V>, k: K, v: V, w: (K, V) -> int)
    requires k in m
    ensures SumMap(m[k := v], w) == SumMap(m, w) - w(k, m[k]) + w(k, v)
  {
    SumMapTake(m, k, w);
    SumMapTake(m[k := v], k, w);
    assert m[k := v] - {k} == m - {k};
  }

  /** A pointwise bound between two weights bounds their sums. */
  lemma {:induction false} SumMapMonotone<K(!new), V(!new)>(m: map<K, V>, v: (K, V) -> int, w: (K, V) -> int)
    requires forall k :: k in m ==> v(k, m[k]) <= w(k, m[k])
    ensures SumMap(m, v) <= SumMap(m, w)
    decreases |m|
  {
    if |m| > 0 {
      var k :| k in m;
      SumMapTake(m, k, v);
      SumMapTake(m, k, w);
      SumMapMonotone(m - {k}, v, w);
    }
  }

  lemma {:induction false} SumMapDifference<K(!new), V(!new)>(
    m: map<K, V>, u: (K, V) -> int, v: (K, V) -> int, w: (K, V) -> int)
    requires forall k :: k in m ==> w(k, m[k]) == u(k, m[k]) - v(k, m[k])
    ensures SumMap(m, w) == SumMap(m, u) - SumMap(m, v)
    decreases |m|
  {
    if |m| > 0 {
      var k :| k in m;
      SumMapTake(m, k, u);
      SumMapTake(m, k, v);
      SumMapTake(m, k, w);
      SumMapDifference(m - {k}, u, v, w);
    }
  }

  /** Tables whose rows weigh the same have the same sum. */
  lemma {:induction false} SumMapCongruent<K(!new), V(!new)>(m: map<K, V>, n: map<K, V>, w: (K, V) -> int)
    requires m.Keys == n.Keys
    requires forall k :: k in m ==> w(k, m[k]) == w(k, n[k])
    ensures SumMap(m, w) == SumMap(n, w)
    decreases |m|
  {
    if |m| > 0 {
      var k :| k in m;
      SumMapTake(m, k, w);
      SumMapTake(n, k, w);
      SumMapCongruent(m - {k}, n - {k}, w);
    } else {
      assert |n.Keys| == 0;
    }
  }

  lemma {:induction false} SumMapZero<K(!new), V(!new)>(m: map<K, V>, w: (K, V) -> int)
    requires forall k :: k in m ==> w(k, m[k]) == 0
    ensures SumMap(m, w) == 0
    decreases |m|
  {
    if |m| > 0 {
      var k :| k in m;
      SumMapTake(m, k, w);
      SumMapZero(m - {k}, w);
    }
  }

  lemma {:induction false} SumMapNonnegative<K(!new), V(!new)>(m: map<K, V>, w: (K, V) -> int)
    requires forall k :: k in m ==> w(k, m[k]) >= 0
    ensures SumMap(m, w) >= 0
    ensures forall k :: k in m ==> w(k, m[k]) <= SumMap(m, w)
    decreases |m|
  {
    forall k | k in m ensures 0 <= w(k, m[k]) <= SumMap(m, w) {
      SumMapTake(m, k, w);
      SumMapNonnegative(m - {k}, w);
    }
    if |m| > 0 {
      var k :| k in m;
      assert w(k, m[k]) <= SumMap(m, w);
    }
  }

  /** Two different rows are both part of the sum. */
  lemma SumMapTwo<K(!new), V(!new)>(m: map<K, V>, j: K, k: K, w: (K, V) -> int)
    requires j in m && k in m && j != k
    requires forall i :: i in m ==> w(i, m[i]) >= 0
    ensures w(j, m[j]) + w(k, m[k]) <= SumMap(m, w)
  {
    SumMapTake(m, j, w);
    SumMapNonnegative(m - {j}, w);
    assert k in m - {j};
  }
}
