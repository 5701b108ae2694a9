/** `groupby(key).size()` and `value_counts()`: one (key, count) row per
    distinct key, the counts adding up to the number of rows grouped. */
module Grouping {
  import opened Seqs

  function Key<K>(row: (K, nat)): K { row.0 }

  function KeysOf<K>(g: seq<(K, nat)>): seq<K> { Map(g, Key) }

  /** One row per key of `ks`, holding how often that key occurs in `xs`. */
  function CountsFor<K(==)>(ks: seq<K>, xs: seq<K>): (g: seq<(K, nat)>)
    ensures |g| == |ks|
    ensures forall i :: 0 <= i < |ks| ==> g[i] == (ks[i], multiset(xs)[ks[i]])
  {
    if ks == [] then [] else [(ks[0], multiset(xs)[ks[0]])] + CountsFor(ks[1..], xs)
  }

  lemma KeysOfCountsFor<K>(ks: seq<K>, xs: seq<K>)
    ensures KeysOf(CountsFor(ks, xs)) == ks
  {
  }

  /** The keys of the first `n` rows are the first `n` keys. */
  lemma KeysOfPrefix<K>(g: seq<(K, nat)>, n: nat)
    requires n <= |g|
    ensures KeysOf(g[..n]) == KeysOf(g)[..n]
  {
  }

  /** The sum of the count column. */
  function SumCounts<K>(g: seq<(K, nat)>): nat
  {
    if g == [] then 0 else g[0].1 + SumCounts(g[1..])
  }

  /** Appending one more grouped value adds one to the total for each key row equal to it. */
  lemma {:induction false} SumCountsSnoc<K>(ks: seq<K>, xs: seq<K>, x: K)
    ensures SumCounts(CountsFor(ks, xs + [x])) == SumCounts(CountsFor(ks, xs)) + multiset(ks)[x]
  {
    if ks != [] {
      SumCountsSnoc(ks[1..], xs, x);
      assert ks == [ks[0]] + ks[1..];
      assert CountsFor(ks, xs + [x])[1..] == CountsFor(ks[1..], xs + [x]);
      assert CountsFor(ks, xs)[1..] == CountsFor(ks[1..], xs);
    }
  }

  /** When every grouped value has exactly one key row, the counts add up to
      the number of values grouped. */
  lemma {:induction false} CountsCoverAll<K>(ks: seq<K>, xs: seq<K>)
    requires NoDup(ks)
    requires forall x :: x in xs ==> x in ks
    ensures SumCounts(CountsFor(ks, xs)) == |xs|
  {
    if xs == [] {
      SumOfZeroCounts(ks);
    } else {
      var last := xs[|xs| - 1];
      assert xs == xs[..|xs| - 1] + [last];
      CountsCoverAll(ks, xs[..|xs| - 1]);
      SumCountsSnoc(ks, xs[..|xs| - 1], last);
      NoDupOccursOnce(ks, last);
    }
  }

  lemma {:induction false} SumOfZeroCounts<K>(ks: seq<K>)
    ensures SumCounts(CountsFor(ks, [])) == 0
  {
    if ks != [] {
      SumOfZeroCounts(ks[1..]);
      assert CountsFor(ks, [])[1..] == CountsFor(ks[1..], []);
    }
  }

  /** Rows that are permutations of each other have the same total. */
  lemma {:induction false} SumCountsPermutation<K>(a: seq<(K, nat)>, b: seq<(K, nat)>)
    requires multiset(a) == multiset(b)
    ensures SumCounts(a) == SumCounts(b)
    decreases |a|
  {
    if a != [] {
      assert a[0] in multiset(b);
      var j :| 0 <= j < |b| && b[j] == a[0];
      var b' := RemoveAt(b, j);
      assert a == [a[0]] + a[1..];
      assert multiset(a) == multiset{a[0]} + multiset(a[1..]);
      assert multiset(b') + multiset{b[j]} == multiset(b);
      MultisetCancel(multiset(a[1..]), multiset(b'), a[0]);
      SumCountsPermutation(a[1..], b');
      SumCountsRemoveAt(b, j);
    } else {
      assert |b| == |multiset(b)| == 0;
    }
  }

  lemma MultisetCancel<T>(x: multiset<T>, y: multiset<T>, e: T)
    requires x + multiset{e} == y + multiset{e}
    ensures x == y
  {
    forall v ensures x[v] == y[v] {
      assert (x + multiset{e})[v] == (y + multiset{e})[v];
    }
  }

  lemma {:induction false} SumCountsRemoveAt<K>(b: seq<(K, nat)>, j: nat)
    requires j < |b|
    ensures SumCounts(b) == b[j].1 + SumCounts(RemoveAt(b, j))
  {
    if j > 0 {
      SumCountsRemoveAt(b[1..], j - 1);
      assert RemoveAt(b, j) == [b[0]] + RemoveAt(b[1..], j - 1);
    } else {
      assert RemoveAt(b, 0) == b[1..];
    }
  }

  /** A key drawn from the grouped values is counted at least once. */
  lemma CountsPresent<K>(ks: seq<K>, xs: seq<K>)
    requires forall k :: k in ks ==> k in xs
    ensures forall i :: 0 <= i < |ks| ==> CountsFor(ks, xs)[i].0 in xs && CountsFor(ks, xs)[i].1 >= 1
  {
    forall i | 0 <= i < |ks| ensures ks[i] in xs && multiset(xs)[ks[i]] >= 1 {
      assert ks[i] in ks;
    }
  }

  /** `groupby(key).size()` over the key column `xs`, in order of first appearance. */
  function GroupCounts<K(==)>(xs: seq<K>): (g: seq<(K, nat)>)
    ensures NoDup(KeysOf(g))
    ensures forall i :: 0 <= i < |xs| ==> xs[i] in KeysOf(g)
    ensures forall i :: 0 <= i < |g| ==> g[i].0 in xs && g[i].1 == multiset(xs)[g[i].0] && g[i].1 >= 1
    ensures SumCounts(g) == |xs|
  {
    var ks := Distinct(xs);
    KeysOfCountsFor(ks, xs);
    CountsCoverAll(ks, xs);
    CountsPresent(ks, xs);
    CountsFor(ks, xs)
  }

  /** `groupby(key).size()` over an integer key column: keys ascending, as pandas sorts them. */
  function SortedGroupCounts(xs: seq<int>): (g: seq<(int, nat)>)
    ensures Increasing(KeysOf(g))
    ensures forall x :: x in xs ==> x in KeysOf(g)
    ensures forall i :: 0 <= i < |g| ==> g[i].0 in xs && g[i].1 == multiset(xs)[g[i].0] && g[i].1 >= 1
    ensures SumCounts(g) == |xs|
  {
    var ks := SortedDistinct(xs);
    KeysOfCountsFor(ks, xs);
    IncreasingNoDup(ks);
    CountsCoverAll(ks, xs);
    CountsPresent(ks, xs);
    CountsFor(ks, xs)
  }

  /** The grouped row of a key that occurs in the column. */
  lemma GroupRowOf<K>(xs: seq<K>, k: K) returns (b: nat)
    requires k in xs
    ensures b < |GroupCounts(xs)| && GroupCounts(xs)[b] == (k, multiset(xs)[k])
  {
    var g := GroupCounts(xs);
    var a :| 0 <= a < |xs| && xs[a] == k;
    assert k in KeysOf(g);
    b :| 0 <= b < |g| && KeysOf(g)[b] == k;
  }

  /** `counts.get(k, 0)`: the count on the row for `k`, or 0 when no row has that key. */
  function CountOf<K(==)>(g: seq<(K, nat)>, k: K): (n: nat)
    ensures k !in KeysOf(g) ==> n == 0
    ensures k in KeysOf(g) ==> exists i :: 0 <= i < |g| && g[i] == (k, n)
  {
    if g == [] then 0
    else if g[0].0 == k then g[0].1
    else CountOf(g[1..], k)
  }

  /** Looking a key up in `value_counts()` yields its number of occurrences,
      and 0 for a key that does not occur. */
  lemma CountOfGroup<K>(xs: seq<K>, k: K)
    ensures CountOf(GroupCounts(xs), k) == multiset(xs)[k]
  {
    var g := GroupCounts(xs);
    var n := CountOf(g, k);
    if k in xs {
      var b := GroupRowOf(xs, k);
      assert k in KeysOf(g);
      var i :| 0 <= i < |g| && g[i] == (k, n);
      assert KeysOf(g)[i] == KeysOf(g)[b];
    }
  }

  /** The keys of an integer `groupby` are exactly the values that occur. */
  lemma SortedGroupKeys(xs: seq<int>)
    ensures forall k :: k in KeysOf(SortedGroupCounts(xs)) <==> k in xs
  {
    KeysOfCountsFor(SortedDistinct(xs), xs);
  }
}
