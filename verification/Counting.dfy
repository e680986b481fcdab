/** Counter maps, their declarative meaning, and an insertion-sorted view of a sequence. */
module Counting {
  import opened Log

  function At<K>(m: map<K, nat>, k: K): nat { if k in m then m[k] else 0 }

  function Increment<K>(m: map<K, nat>, k: K): map<K, nat> { m[k := At(m, k) + 1] }

  function IncrementAll<K>(m: map<K, nat>, ks: seq<K>): map<K, nat> {
    if ks == [] then m else Increment(IncrementAll(m, ks[..|ks| - 1]), ks[|ks| - 1])
  }

  /** The counters after each item has incremented all its keys. */
  function Distribution<T, K>(items: seq<T>, keys: T -> seq<K>): map<K, nat> {
    if items == [] then map[]
    else IncrementAll(Distribution(items[..|items| - 1], keys), keys(items[|items| - 1]))
  }

  lemma OneMore<T, K>(items: seq<T>, item: T, keys: T -> seq<K>)
    ensures var before := Distribution(items, keys);
      Distribution(items + [item], keys)
        == if |keys(item)| == 1 then Increment(before, keys(item)[0]) else IncrementAll(before, keys(item))
  {
    assert (items + [item])[..|items|] == items;
    if |keys(item)| == 1 {
      assert IncrementAll(Distribution(items, keys), keys(item)[..0]) == Distribution(items, keys);
    }
  }

  function Total<T>(items: seq<T>, amount: T -> nat): nat {
    if items == [] then 0 else Total(items[..|items| - 1], amount) + amount(items[|items| - 1])
  }

  function Collected<T, K>(items: seq<T>, keys: T -> seq<K>): seq<K> {
    if items == [] then [] else Collected(items[..|items| - 1], keys) + keys(items[|items| - 1])
  }

  // ---------- Sums of counters ----------

  ghost function SumOf<K(!new)>(m: map<K, nat>): nat
    decreases |m|
  {
    if m == map[] then 0
    else
      var k :| k in m;
      m[k] + SumOf(m - {k})
  }

  lemma {:induction false} SumWithout<K(!new)>(m: map<K, nat>, k: K)
    requires k in m
    ensures SumOf(m) == m[k] + SumOf(m - {k})
    decreases |m|
  {
    var j :| j in m && SumOf(m) == m[j] + SumOf(m - {j});
    if j != k {
      SumWithout(m - {j}, k);
      SumWithout(m - {k}, j);
      assert m - {j} - {k} == m - {k} - {j};
    }
  }

  lemma SumReplaced<K(!new)>(m: map<K, nat>, k: K, n: nat)
    ensures SumOf(m[k := n]) + At(m, k) == SumOf(m) + n
  {
    SumWithout(m[k := n], k);
    if k in m {
      SumWithout(m, k);
    }
    assert m[k := n] - {k} == m - {k};
    if k !in m { assert m - {k} == m; }
  }

  lemma {:induction false} SumIncrementAll<K(!new)>(m: map<K, nat>, ks: seq<K>)
    ensures SumOf(IncrementAll(m, ks)) == SumOf(m) + |ks|
  {
    if ks != [] {
      SumIncrementAll(m, ks[..|ks| - 1]);
      var before := IncrementAll(m, ks[..|ks| - 1]);
      SumReplaced(before, ks[|ks| - 1], At(before, ks[|ks| - 1]) + 1);
    }
  }

  function SizeOf<T, K>(keys: T -> seq<K>): T -> nat { (t: T) => |keys(t)| }

  /** A distribution conserves: its counters sum to the number of keys that were counted. */
  lemma {:induction false} DistributionConserves<T, K(!new)>(items: seq<T>, keys: T -> seq<K>)
    ensures SumOf(Distribution(items, keys)) == Total(items, SizeOf(keys))
  {
    if items != [] {
      DistributionConserves(items[..|items| - 1], keys);
      SumIncrementAll(Distribution(items[..|items| - 1], keys), keys(items[|items| - 1]));
    }
  }

  lemma {:induction false} IncrementAllCounts<K>(m: map<K, nat>, ks: seq<K>, k: K)
    ensures At(IncrementAll(m, ks), k) == At(m, k) + multiset(ks)[k]
  {
    if ks != [] {
      IncrementAllCounts(m, ks[..|ks| - 1], k);
      assert ks == ks[..|ks| - 1] + [ks[|ks| - 1]];
    }
  }

  /** Each counter of a distribution is the number of times its key was counted. */
  lemma {:induction false} DistributionCounts<T, K>(items: seq<T>, keys: T -> seq<K>, k: K)
    ensures At(Distribution(items, keys), k) == Total(items, (t: T) => multiset(keys(t))[k])
  {
    if items != [] {
      DistributionCounts(items[..|items| - 1], keys, k);
      IncrementAllCounts(Distribution(items[..|items| - 1], keys), keys(items[|items| - 1]), k);
    }
  }

  lemma {:induction false} TotalIsCount<T(!new)>(items: seq<T>, amount: T -> nat, accept: T -> bool)
    requires forall t :: amount(t) == if accept(t) then 1 else 0
    ensures Total(items, amount) == Count(items, accept)
  {
    if items != [] { TotalIsCount(items[..|items| - 1], amount, accept); }
  }

  // ---------- Sorting ----------

  /** `before(a, b)`: a may stand before b. */
  ghost predicate TotalOrder<T(!new)>(before: (T, T) -> bool) {
    && (forall a, b :: before(a, b) || before(b, a))
    && (forall a, b, c :: before(a, b) && before(b, c) ==> before(a, c))
  }

  predicate SortedBy<T>(xs: seq<T>, before: (T, T) -> bool) {
    forall i, j | 0 <= i < j < |xs| :: before(xs[i], xs[j])
  }

  function Inserted<T>(x: T, xs: seq<T>, before: (T, T) -> bool): seq<T> {
    if xs == [] || before(x, xs[0]) then [x] + xs else [xs[0]] + Inserted(x, xs[1..], before)
  }

  function Sorted<T>(xs: seq<T>, before: (T, T) -> bool): seq<T> {
    if xs == [] then [] else Inserted(xs[0], Sorted(xs[1..], before), before)
  }

  lemma {:induction false} InsertedKeeps<T(!new)>(x: T, xs: seq<T>, before: (T, T) -> bool)
    requires TotalOrder(before) && SortedBy(xs, before)
    ensures SortedBy(Inserted(x, xs, before), before)
    ensures multiset(Inserted(x, xs, before)) == multiset{x} + multiset(xs)
  {
    if xs == [] || before(x, xs[0]) {
    } else {
      InsertedKeeps(x, xs[1..], before);
      var rest := Inserted(x, xs[1..], before);
      assert xs == [xs[0]] + xs[1..];
      forall j | 0 <= j < |rest| ensures before(xs[0], rest[j]) {
        assert rest[j] in multiset(rest);
        assert rest[j] == x || rest[j] in xs[1..];
      }
    }
  }

  lemma {:induction false} SortedIsPermutation<T(!new)>(xs: seq<T>, before: (T, T) -> bool)
    requires TotalOrder(before)
    ensures SortedBy(Sorted(xs, before), before)
    ensures multiset(Sorted(xs, before)) == multiset(xs) && |Sorted(xs, before)| == |xs|
  {
    if xs != [] {
      SortedIsPermutation(xs[1..], before);
      InsertedKeeps(xs[0], Sorted(xs[1..], before), before);
      assert xs == [xs[0]] + xs[1..];
      assert |multiset(Sorted(xs, before))| == |multiset(xs)|;
    }
  }
}
