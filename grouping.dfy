/**
 * The group-by machinery behind the dashboard's pandas expressions,
 * written once over any row type `T` and key type `K`:
 *  - `SortedKeys`: the distinct keys of the rows in ascending order
 *    (pandas' `groupby` sorts its keys by default);
 *  - `SumWhere`: the sum of a value over the rows of one key;
 *  - `GroupTotals`: one `Bucket` per key, as `groupby(key)[val].sum()`;
 *  - `SortByTotalDesc`: `sort_values(ascending=False)` on such a result.
 */
module Grouping {

  datatype Bucket<K> = Bucket(key: K, total: int)

  ghost predicate StrictTotalOrder<K(!new)>(lt: (K, K) -> bool) {
    && (forall a :: !lt(a, a))
    && (forall a, b, c :: lt(a, b) && lt(b, c) ==> lt(a, c))
    && (forall a, b :: a != b ==> lt(a, b) || lt(b, a))
  }

  predicate StrictlySorted<K>(ks: seq<K>, lt: (K, K) -> bool) {
    forall i, j :: 0 <= i < j < |ks| ==> lt(ks[i], ks[j])
  }

  predicate NoDuplicates<K(==)>(ks: seq<K>) {
    forall i, j :: 0 <= i < j < |ks| ==> ks[i] != ks[j]
  }

  /** The keys the rows carry. */
  ghost function KeysOf<T, K>(rows: seq<T>, key: T -> K): set<K> {
    set r | r in rows :: key(r)
  }

  function Keys<K>(bs: seq<Bucket<K>>): (ks: seq<K>)
    ensures |ks| == |bs| && forall i :: 0 <= i < |bs| ==> ks[i] == bs[i].key
  {
    if bs == [] then [] else [bs[0].key] + Keys(bs[1..])
  }

  /** Adds `k` to a list of keys, in front of the first larger key. */
  function Insert<K(==,!new)>(ks: seq<K>, k: K, lt: (K, K) -> bool): (r: seq<K>)
    ensures forall x :: x in r <==> x in ks || x == k
  {
    if ks == [] then [k]
    else if k == ks[0] then ks
    else if lt(k, ks[0]) then [k] + ks
    else [ks[0]] + Insert(ks[1..], k, lt)
  }

  /** The distinct keys of the rows, each once, smallest first. */
  function SortedKeys<T, K(==,!new)>(rows: seq<T>, key: T -> K, lt: (K, K) -> bool): (ks: seq<K>)
    ensures forall x :: x in ks <==> x in KeysOf(rows, key)
  {
    if rows == [] then []
    else
      var rest := SortedKeys(rows[1..], key, lt);
      assert KeysOf(rows, key) == {key(rows[0])} + KeysOf(rows[1..], key) by {
        assert rows == [rows[0]] + rows[1..];
      }
      Insert(rest, key(rows[0]), lt)
  }

  lemma {:induction false} InsertSorted<K(!new)>(ks: seq<K>, k: K, lt: (K, K) -> bool)
    requires StrictTotalOrder(lt) && StrictlySorted(ks, lt)
    ensures StrictlySorted(Insert(ks, k, lt), lt)
  {
    if ks != [] && k != ks[0] && !lt(k, ks[0]) {
      var tail := ks[1..];
      assert StrictlySorted(tail, lt);
      InsertSorted(tail, k, lt);
      var ins := Insert(tail, k, lt);
      assert lt(ks[0], k);
      forall j | 0 <= j < |ins|
        ensures lt(ks[0], ins[j])
      {
        assert ins[j] in ins;
        if ins[j] != k {
          assert ins[j] in tail;
        }
      }
    }
  }

  /** The keys come out strictly ascending, hence each distinct key exactly once. */
  lemma {:induction false} SortedKeysSorted<T, K(!new)>(rows: seq<T>, key: T -> K, lt: (K, K) -> bool)
    requires StrictTotalOrder(lt)
    ensures StrictlySorted(SortedKeys(rows, key, lt), lt)
    ensures NoDuplicates(SortedKeys(rows, key, lt))
  {
    if rows != [] {
      SortedKeysSorted(rows[1..], key, lt);
      InsertSorted(SortedKeys(rows[1..], key, lt), key(rows[0]), lt);
    }
  }

  function Sum<T>(rows: seq<T>, val: T -> int): int {
    if rows == [] then 0 else val(rows[0]) + Sum(rows[1..], val)
  }

  /** The sum of `val` over the rows whose key is `k`. */
  function SumWhere<T, K(==)>(rows: seq<T>, key: T -> K, k: K, val: T -> int): int {
    if rows == [] then 0
    else (if key(rows[0]) == k then val(rows[0]) else 0) + SumWhere(rows[1..], key, k, val)
  }

  function SumOverKeys<T, K(==)>(ks: seq<K>, rows: seq<T>, key: T -> K, val: T -> int): int {
    if ks == [] then 0 else SumWhere(rows, key, ks[0], val) + SumOverKeys(ks[1..], rows, key, val)
  }

  function Occurrences<K(==)>(ks: seq<K>, x: K): nat {
    if ks == [] then 0 else (if ks[0] == x then 1 else 0) + Occurrences(ks[1..], x)
  }

  lemma {:induction false} OccursOnce<K>(ks: seq<K>, x: K)
    requires NoDuplicates(ks)
    ensures Occurrences(ks, x) == if x in ks then 1 else 0
  {
    if ks != [] {
      OccursOnce(ks[1..], x);
      if ks[0] == x {
        assert x !in ks[1..] by {
          forall j | 0 <= j < |ks| - 1 ensures ks[1..][j] != x {
            assert ks[0] != ks[j + 1];
          }
        }
      } else {
        assert x in ks <==> x in ks[1..];
      }
    }
  }

  lemma {:induction false} SumOverKeysEmpty<T, K>(ks: seq<K>, rows: seq<T>, key: T -> K, val: T -> int)
    requires rows == []
    ensures SumOverKeys(ks, rows, key, val) == 0
  {
    if ks != [] {
      SumOverKeysEmpty(ks[1..], rows, key, val);
    }
  }

  lemma {:induction false} SumOverKeysFirstRow<T, K>(ks: seq<K>, rows: seq<T>, key: T -> K, val: T -> int)
    requires rows != []
    ensures SumOverKeys(ks, rows, key, val)
         == SumOverKeys(ks, rows[1..], key, val) + Occurrences(ks, key(rows[0])) * val(rows[0])
  {
    if ks != [] {
      SumOverKeysFirstRow(ks[1..], rows, key, val);
    }
  }

  /**
   * Splitting the rows by key and adding up each group gives the total of
   * all rows, when every row's key is listed once.
   */
  lemma {:induction false} PartitionSum<T, K>(ks: seq<K>, rows: seq<T>, key: T -> K, val: T -> int)
    requires NoDuplicates(ks)
    requires forall r :: r in rows ==> key(r) in ks
    ensures SumOverKeys(ks, rows, key, val) == Sum(rows, val)
  {
    if rows == [] {
      SumOverKeysEmpty(ks, rows, key, val);
    } else {
      SumOverKeysFirstRow(ks, rows, key, val);
      OccursOnce(ks, key(rows[0]));
      assert rows[0] in rows;
      forall r | r in rows[1..] ensures key(r) in ks {
        assert r in rows;
      }
      PartitionSum(ks, rows[1..], key, val);
    }
  }

  function TotalOf<K>(bs: seq<Bucket<K>>): int {
    if bs == [] then 0 else bs[0].total + TotalOf(bs[1..])
  }

  function BucketsFor<T, K(==)>(ks: seq<K>, rows: seq<T>, key: T -> K, val: T -> int): (bs: seq<Bucket<K>>)
    ensures Keys(bs) == ks
    ensures forall i :: 0 <= i < |bs| ==> bs[i].total == SumWhere(rows, key, ks[i], val)
    ensures TotalOf(bs) == SumOverKeys(ks, rows, key, val)
  {
    if ks == [] then []
    else [Bucket(ks[0], SumWhere(rows, key, ks[0], val))] + BucketsFor(ks[1..], rows, key, val)
  }

  /** `groupby(key)[val].sum()`: one bucket per distinct key, keys ascending. */
  function GroupTotals<T, K(==,!new)>(rows: seq<T>, key: T -> K, val: T -> int, lt: (K, K) -> bool): (bs: seq<Bucket<K>>)
    ensures Keys(bs) == SortedKeys(rows, key, lt)
    ensures forall i :: 0 <= i < |bs| ==> bs[i].total == SumWhere(rows, key, bs[i].key, val)
  {
    BucketsFor(SortedKeys(rows, key, lt), rows, key, val)
  }

  /** The buckets list every key once, ascending, and add up to the total of all rows. */
  lemma GroupTotalsFacts<T, K(!new)>(rows: seq<T>, key: T -> K, val: T -> int, lt: (K, K) -> bool)
    requires StrictTotalOrder(lt)
    ensures var bs := GroupTotals(rows, key, val, lt);
      && StrictlySorted(Keys(bs), lt)
      && (forall x :: x in Keys(bs) <==> x in KeysOf(rows, key))
      && TotalOf(bs) == Sum(rows, val)
  {
    var ks := SortedKeys(rows, key, lt);
    SortedKeysSorted(rows, key, lt);
    forall r | r in rows ensures key(r) in ks {
      assert key(r) in KeysOf(rows, key);
    }
    PartitionSum(ks, rows, key, val);
  }

  predicate NonIncreasing<K>(bs: seq<Bucket<K>>) {
    forall i, j :: 0 <= i < j < |bs| ==> bs[i].total >= bs[j].total
  }

  /** Putting a bucket in front puts its key and its total in front. */
  lemma ConsBucket<K>(b: Bucket<K>, bs: seq<Bucket<K>>)
    ensures Keys([b] + bs) == [b.key] + Keys(bs)
    ensures TotalOf([b] + bs) == b.total + TotalOf(bs)
  {
    assert ([b] + bs)[1..] == bs;
  }

  /** Puts `b` in front of the first bucket whose total is not larger. */
  function InsertByTotal<K>(b: Bucket<K>, bs: seq<Bucket<K>>): (r: seq<Bucket<K>>)
    ensures multiset(r) == multiset(bs) + multiset{b}
    decreases |bs|
  {
    if bs == [] || b.total >= bs[0].total then [b] + bs
    else
      assert bs == [bs[0]] + bs[1..];
      [bs[0]] + InsertByTotal(b, bs[1..])
  }

  /** `sort_values(ascending=False)`, stable: equal totals keep their order. */
  function SortByTotalDesc<K>(bs: seq<Bucket<K>>): (r: seq<Bucket<K>>)
    ensures multiset(r) == multiset(bs)
    decreases |bs|
  {
    if bs == [] then []
    else
      assert bs == [bs[0]] + bs[1..];
      InsertByTotal(bs[0], SortByTotalDesc(bs[1..]))
  }

  lemma {:induction false} InsertByTotalTotal<K>(b: Bucket<K>, bs: seq<Bucket<K>>)
    ensures TotalOf(InsertByTotal(b, bs)) == b.total + TotalOf(bs)
    decreases |bs|
  {
    if bs == [] || b.total >= bs[0].total {
      ConsBucket(b, bs);
    } else {
      var rest := InsertByTotal(b, bs[1..]);
      assert InsertByTotal(b, bs) == [bs[0]] + rest;
      InsertByTotalTotal(b, bs[1..]);
      ConsBucket(bs[0], rest);
    }
  }

  lemma {:induction false} InsertByTotalKeys<K>(b: Bucket<K>, bs: seq<Bucket<K>>)
    ensures multiset(Keys(InsertByTotal(b, bs))) == multiset(Keys(bs)) + multiset{b.key}
    decreases |bs|
  {
    if bs == [] || b.total >= bs[0].total {
      ConsBucket(b, bs);
    } else {
      var rest := InsertByTotal(b, bs[1..]);
      assert InsertByTotal(b, bs) == [bs[0]] + rest;
      InsertByTotalKeys(b, bs[1..]);
      ConsBucket(bs[0], rest);
      assert Keys(bs) == [bs[0].key] + Keys(bs[1..]);
      calc {
        multiset(Keys([bs[0]] + rest));
        multiset([bs[0].key] + Keys(rest));
        multiset{bs[0].key} + multiset(Keys(rest));
        multiset{bs[0].key} + multiset(Keys(bs[1..])) + multiset{b.key};
        multiset([bs[0].key] + Keys(bs[1..])) + multiset{b.key};
      }
    }
  }

  /** Sorting keeps the grand total. */
  lemma {:induction false} SortByTotalDescTotal<K>(bs: seq<Bucket<K>>)
    ensures TotalOf(SortByTotalDesc(bs)) == TotalOf(bs)
    decreases |bs|
  {
    if bs != [] {
      var rest := SortByTotalDesc(bs[1..]);
      assert SortByTotalDesc(bs) == InsertByTotal(bs[0], rest);
      SortByTotalDescTotal(bs[1..]);
      InsertByTotalTotal(bs[0], rest);
    }
  }

  /** Sorting keeps the keys, each as often as before. */
  lemma {:induction false} SortByTotalDescKeys<K>(bs: seq<Bucket<K>>)
    ensures multiset(Keys(SortByTotalDesc(bs))) == multiset(Keys(bs))
    decreases |bs|
  {
    if bs != [] {
      var rest := SortByTotalDesc(bs[1..]);
      assert SortByTotalDesc(bs) == InsertByTotal(bs[0], rest);
      SortByTotalDescKeys(bs[1..]);
      InsertByTotalKeys(bs[0], rest);
      assert Keys(bs) == [bs[0].key] + Keys(bs[1..]);
      assert multiset([bs[0].key] + Keys(bs[1..])) == multiset(Keys(bs[1..])) + multiset{bs[0].key};
    }
  }

  /** Every bucket of the insertion is `b` or one of `bs`. */
  lemma InsertByTotalMembers<K>(b: Bucket<K>, bs: seq<Bucket<K>>)
    ensures forall x :: x in InsertByTotal(b, bs) ==> x == b || x in bs
  {
    var r := InsertByTotal(b, bs);
    forall x | x in r ensures x == b || x in bs {
      assert x in multiset(r);
    }
  }

  /** In a non-increasing list the first total is the largest. */
  lemma HeadIsLargest<K>(bs: seq<Bucket<K>>)
    requires bs != [] && NonIncreasing(bs)
    ensures forall x :: x in bs ==> bs[0].total >= x.total
  {
    forall x | x in bs ensures bs[0].total >= x.total {
      var k :| 0 <= k < |bs| && bs[k] == x;
      if k > 0 {
        assert bs[0].total >= bs[k].total;
      }
    }
  }

  lemma {:induction false} InsertByTotalOrdered<K>(b: Bucket<K>, bs: seq<Bucket<K>>)
    requires NonIncreasing(bs)
    ensures NonIncreasing(InsertByTotal(b, bs))
    decreases |bs|
  {
    if bs != [] && b.total < bs[0].total {
      var ins := InsertByTotal(b, bs[1..]);
      InsertByTotalOrdered(b, bs[1..]);
      InsertByTotalMembers(b, bs[1..]);
      HeadIsLargest(bs);
      var r := [bs[0]] + ins;
      assert InsertByTotal(b, bs) == r;
      forall i, j | 0 <= i < j < |r| ensures r[i].total >= r[j].total {
        assert r[j] == ins[j - 1];
        if i > 0 {
          assert r[i] == ins[i - 1];
        } else {
          assert r[j] in ins;
        }
      }
    }
  }

  /** The result is ordered by total, largest first. */
  lemma {:induction false} SortByTotalDescOrdered<K>(bs: seq<Bucket<K>>)
    ensures NonIncreasing(SortByTotalDesc(bs))
    decreases |bs|
  {
    if bs != [] {
      SortByTotalDescOrdered(bs[1..]);
      InsertByTotalOrdered(bs[0], SortByTotalDesc(bs[1..]));
    }
  }

  lemma {:induction false} DistinctOccursOnce<K>(ks: seq<K>, x: K)
    requires NoDuplicates(ks)
    ensures multiset(ks)[x] <= 1
  {
    if ks != [] {
      assert ks == [ks[0]] + ks[1..];
      DistinctOccursOnce(ks[1..], x);
      if ks[0] == x {
        assert x !in ks[1..] by {
          forall j | 0 <= j < |ks| - 1 ensures ks[1..][j] != x {
            assert ks[0] != ks[j + 1];
          }
        }
      }
    }
  }

  lemma OccursOnceDistinct<K>(ks: seq<K>)
    requires forall x :: x in ks ==> multiset(ks)[x] <= 1
    ensures NoDuplicates(ks)
  {
    forall i, j | 0 <= i < j < |ks| ensures ks[i] != ks[j] {
      RepeatCountsTwice(ks, i, j);
    }
  }

  lemma RepeatCountsTwice<K>(ks: seq<K>, i: nat, j: nat)
    requires i < j < |ks|
    ensures ks[i] == ks[j] ==> multiset(ks)[ks[j]] >= 2
  {
    assert ks == ks[..j] + [ks[j]] + ks[j + 1..];
    assert ks[i] in ks[..j];
  }

  /** A reordering of a list without repeats has no repeats. */
  lemma PermutationDistinct<K>(a: seq<K>, b: seq<K>)
    requires multiset(a) == multiset(b) && NoDuplicates(a)
    ensures NoDuplicates(b)
  {
    forall x | x in b ensures multiset(b)[x] <= 1 {
      DistinctOccursOnce(a, x);
    }
    OccursOnceDistinct(b);
  }

  /** `groupby(key)[val].sum().sort_values(ascending=False)`. */
  function GroupTotalsDesc<T, K(==,!new)>(rows: seq<T>, key: T -> K, val: T -> int, lt: (K, K) -> bool): seq<Bucket<K>> {
    SortByTotalDesc(GroupTotals(rows, key, val, lt))
  }

  /** Sorting keeps the keys of the groups, each once, and their totals. */
  lemma GroupTotalsDescKeys<T, K(!new)>(rows: seq<T>, key: T -> K, val: T -> int, lt: (K, K) -> bool)
    requires StrictTotalOrder(lt)
    ensures var bs := GroupTotalsDesc(rows, key, val, lt);
      && NoDuplicates(Keys(bs))
      && (forall x :: x in Keys(bs) <==> x in KeysOf(rows, key))
  {
    var gs := GroupTotals(rows, key, val, lt);
    SortedKeysSorted(rows, key, lt);
    var bs := SortByTotalDesc(gs);
    SortByTotalDescKeys(gs);
    PermutationDistinct(Keys(gs), Keys(bs));
    forall x ensures x in Keys(bs) <==> x in KeysOf(rows, key) {
      assert x in Keys(bs) <==> x in multiset(Keys(bs));
      assert x in Keys(gs) <==> x in multiset(Keys(gs));
    }
  }

  lemma GroupTotalsDescTotals<T, K(!new)>(rows: seq<T>, key: T -> K, val: T -> int, lt: (K, K) -> bool)
    requires StrictTotalOrder(lt)
    ensures var bs := GroupTotalsDesc(rows, key, val, lt);
      && NonIncreasing(bs)
      && (forall b :: b in bs ==> b.total == SumWhere(rows, key, b.key, val))
      && TotalOf(bs) == Sum(rows, val)
  {
    var gs := GroupTotals(rows, key, val, lt);
    GroupTotalsFacts(rows, key, val, lt);
    SortByTotalDescOrdered(gs);
    SortByTotalDescTotal(gs);
    var bs := SortByTotalDesc(gs);
    forall b | b in bs ensures b.total == SumWhere(rows, key, b.key, val) {
      assert b in multiset(bs);
      assert b in multiset(gs);
      var i :| 0 <= i < |gs| && gs[i] == b;
    }
  }
}
