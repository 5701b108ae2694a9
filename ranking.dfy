/** `sort_values(ascending=False).head(n)`, `nlargest(n)` and
    `value_counts().head(n)`: the n rows with the highest score, highest first. */
module Ranking {
  import opened Seqs
  import opened Grouping

  function Min(a: int, b: int): int { if a < b then a else b }

  /** Ordered by score, highest first: no row scores higher than the one before it. */
  predicate NonIncreasing<T>(r: seq<T>, score: T -> real)
  {
    forall i :: 0 < i < |r| ==> score(r[i - 1]) >= score(r[i])
  }

  /** In a non-increasing sequence every row scores at least as high as every later row. */
  lemma {:induction false} NonIncreasingPairwise<T>(r: seq<T>, score: T -> real, i: nat, j: nat)
    requires NonIncreasing(r, score) && i <= j < |r|
    ensures score(r[i]) >= score(r[j])
    decreases j - i
  {
    if i < j {
      NonIncreasingPairwise(r, score, i, j - 1);
    }
  }

  /** Inserts `x` before the first row scoring no higher than it, so that `x`
      precedes the rows it ties with. */
  function InsertDesc<T>(x: T, s: seq<T>, score: T -> real): (r: seq<T>)
    requires NonIncreasing(s, score)
    ensures |r| == |s| + 1
    ensures multiset(r) == multiset(s) + multiset{x}
    ensures NonIncreasing(r, score)
    ensures r[0] == x || (s != [] && r[0] == s[0])
  {
    if s == [] || score(s[0]) <= score(x) then [x] + s
    else
      var rest := InsertDesc(x, s[1..], score);
      assert s == [s[0]] + s[1..];
      [s[0]] + rest
  }

  /** A stable sort by descending score: rows that tie keep their input order. */
  function SortDesc<T>(s: seq<T>, score: T -> real): (r: seq<T>)
    ensures |r| == |s|
    ensures multiset(r) == multiset(s)
    ensures NonIncreasing(r, score)
  {
    if s == [] then []
    else
      assert s == [s[0]] + s[1..];
      InsertDesc(s[0], SortDesc(s[1..], score), score)
  }

  /** The `n` highest-scoring rows, highest first: sort descending, keep the head. */
  function TopBy<T>(s: seq<T>, score: T -> real, n: nat): (r: seq<T>)
    ensures |r| == Min(n, |s|)
    ensures multiset(r) <= multiset(s)
    ensures NonIncreasing(r, score)
  {
    var t := SortDesc(s, score);
    var k := Min(n, |s|);
    assert t == t[..k] + t[k..];
    t[..k]
  }

  /** Nothing left out of the top `n` scores higher than anything kept. */
  lemma TopByIsTop<T>(s: seq<T>, score: T -> real, n: nat, x: T, j: nat)
    requires x in multiset(s) - multiset(TopBy(s, score, n))
    requires j < |TopBy(s, score, n)|
    ensures score(x) <= score(TopBy(s, score, n)[j])
  {
    var t := SortDesc(s, score);
    var k := Min(n, |s|);
    assert t == t[..k] + t[k..];
    assert x in multiset(t[k..]);
    var m :| k <= m < |t| && t[m] == x by {
      assert x in t[k..];
      var m' :| 0 <= m' < |t| - k && t[k..][m'] == x;
      assert t[k + m'] == x;
    }
    NonIncreasingPairwise(t, score, j, m);
  }

  /** A shorter ranking is a prefix of a longer one (`head(5)` of `head(10)`). */
  lemma TopByPrefix<T>(s: seq<T>, score: T -> real, m: nat, n: nat)
    requires n <= m
    ensures TopBy(s, score, n) == TopBy(s, score, m)[..Min(n, |s|)]
  {
  }

  function CountScore<K>(row: (K, nat)): real { row.1 as real }

  /** `value_counts().nlargest(n)` over the key column `xs`: the grouped
      (key, count) rows ranked by count. */
  function TopCounts<K(==)>(xs: seq<K>, n: nat): (r: seq<(K, nat)>)
    ensures |r| == Min(n, |Distinct(xs)|)
  {
    TopBy(GroupCounts(xs), CountScore, n)
  }

  /** At most `n` distinct keys with their occurrence counts, highest count
      first, and no key left out occurs more often than any key kept. */
  lemma TopCountsFacts<K>(xs: seq<K>, n: nat)
    ensures NoDup(KeysOf(TopCounts(xs, n)))
    ensures forall i :: 0 <= i < |TopCounts(xs, n)| ==>
      TopCounts(xs, n)[i].0 in xs && TopCounts(xs, n)[i].1 == multiset(xs)[TopCounts(xs, n)[i].0]
    ensures forall i, j :: 0 <= i < j < |TopCounts(xs, n)| ==> TopCounts(xs, n)[i].1 >= TopCounts(xs, n)[j].1
    ensures forall k, j :: k in xs && k !in KeysOf(TopCounts(xs, n)) && 0 <= j < |TopCounts(xs, n)| ==>
      multiset(xs)[k] <= TopCounts(xs, n)[j].1
  {
    var g := GroupCounts(xs);
    var r := TopCounts(xs, n);
    RankedKeysDistinct(g, r);
    forall i | 0 <= i < |r| ensures r[i].0 in xs && r[i].1 == multiset(xs)[r[i].0] {
      RankedRowIsGroup(g, r, i);
    }
    forall i, j | 0 <= i < j < |r| ensures r[i].1 >= r[j].1 {
      NonIncreasingPairwise(r, CountScore, i, j);
    }
    forall k, j | k in xs && k !in KeysOf(r) && 0 <= j < |r|
      ensures multiset(xs)[k] <= r[j].1
    {
      LeftOutKeyScoresLower(xs, n, k, j);
    }
  }

  lemma RankedRowIsGroup<K>(g: seq<(K, nat)>, r: seq<(K, nat)>, i: nat)
    requires multiset(r) <= multiset(g) && i < |r|
    ensures exists a :: 0 <= a < |g| && g[a] == r[i]
  {
    assert r[i] in multiset(r);
    assert r[i] in multiset(g);
  }

  /** Rows with distinct keys are distinct rows. */
  lemma KeysDistinctRowsDistinct<K>(g: seq<(K, nat)>)
    requires NoDup(KeysOf(g))
    ensures NoDup(g)
  {
    forall u, v | 0 <= u < v < |g| ensures g[u] != g[v] {
      assert KeysOf(g)[u] != KeysOf(g)[v];
    }
  }

  /** A sub-multiset of a duplicate-free sequence is duplicate free. */
  lemma SubMultisetNoDup<T>(r: seq<T>, g: seq<T>)
    requires NoDup(g) && multiset(r) <= multiset(g)
    ensures NoDup(r)
  {
    forall p ensures multiset(r)[p] <= 1 {
      if p in g {
        NoDupOccursOnce(g, p);
      }
    }
    NoDupFromMultiset(r);
  }

  /** The rows of a grouped table have distinct keys, so the rows drawn from it do too. */
  lemma RankedKeysDistinct<K>(g: seq<(K, nat)>, r: seq<(K, nat)>)
    requires NoDup(KeysOf(g)) && multiset(r) <= multiset(g)
    ensures NoDup(KeysOf(r))
  {
    KeysDistinctRowsDistinct(g);
    SubMultisetNoDup(r, g);
    forall u, v | 0 <= u < v < |r| ensures KeysOf(r)[u] != KeysOf(r)[v] {
      RankedRowIsGroup(g, r, u);
      RankedRowIsGroup(g, r, v);
      var a :| 0 <= a < |g| && g[a] == r[u];
      var b :| 0 <= b < |g| && g[b] == r[v];
      assert r[u] != r[v];
      assert KeysOf(g)[a] == r[u].0 && KeysOf(g)[b] == r[v].0;
    }
  }

  lemma LeftOutKeyScoresLower<K>(xs: seq<K>, n: nat, k: K, j: nat)
    requires k in xs && k !in KeysOf(TopCounts(xs, n)) && j < |TopCounts(xs, n)|
    ensures multiset(xs)[k] <= TopCounts(xs, n)[j].1
  {
    var g := GroupCounts(xs);
    var b := GroupRowOf(xs, k);
    KeyAbsentRowAbsent(TopCounts(xs, n), g[b]);
    assert multiset(g)[g[b]] > 0;
    TopByIsTop(g, CountScore, n, g[b], j);
  }

  lemma KeyAbsentRowAbsent<K>(r: seq<(K, nat)>, row: (K, nat))
    requires row.0 !in KeysOf(r)
    ensures multiset(r)[row] == 0
  {
  }
}
