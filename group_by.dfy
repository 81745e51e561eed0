/**
 * The SQL aggregate "SELECT k, SUM(v) ... GROUP BY k ORDER BY k" and the
 * in-memory grouping folds of the controllers, over a sequence of
 * (key, value) pairs.  Keys are ordered through an injective integer rank
 * (the month number, a date ordinal, a rate in hundredths).
 */
module GroupBy {

  datatype Bucket<K> = Bucket(key: K, total: int)

  ghost predicate Injective<K(!new)>(rank: K -> int)
  {
    forall a, b :: rank(a) == rank(b) ==> a == b
  }

  /** Sum of all the values. */
  function Total<K>(ps: seq<(K, int)>): int
  {
    if ps == [] then 0 else Total(ps[..|ps| - 1]) + ps[|ps| - 1].1
  }

  /** Sum of the values paired with key k: the reference meaning of one group. */
  function SumFor<K(==)>(ps: seq<(K, int)>, k: K): int
  {
    if ps == [] then 0
    else SumFor(ps[..|ps| - 1], k) + (if ps[|ps| - 1].0 == k then ps[|ps| - 1].1 else 0)
  }

  function Keys<K>(ps: seq<(K, int)>): set<K>
  {
    set p | p in ps :: p.0
  }

  /** Sum of SumFor over a list of keys. */
  function SumOverKeys<K(==)>(ks: seq<K>, ps: seq<(K, int)>): int
  {
    if ks == [] then 0 else SumFor(ps, ks[0]) + SumOverKeys(ks[1..], ps)
  }

  function BucketKeys<K>(bs: seq<Bucket<K>>): set<K>
  {
    set b | b in bs :: b.key
  }

  function BucketTotal<K>(bs: seq<Bucket<K>>): int
  {
    if bs == [] then 0 else bs[0].total + BucketTotal(bs[1..])
  }

  /** Keys strictly ascending by rank: one bucket per key, in ORDER BY order. */
  predicate StrictlyAscending<K>(bs: seq<Bucket<K>>, rank: K -> int)
  {
    forall i, j :: 0 <= i < j < |bs| ==> rank(bs[i].key) < rank(bs[j].key)
  }

  /** Adds v to the bucket of k, creating it at its place in the order when absent. */
  function Insert<K(==)>(bs: seq<Bucket<K>>, k: K, v: int, rank: K -> int): seq<Bucket<K>>
  {
    if bs == [] then [Bucket(k, v)]
    else if bs[0].key == k then [Bucket(k, bs[0].total + v)] + bs[1..]
    else if rank(k) < rank(bs[0].key) then [Bucket(k, v)] + bs
    else [bs[0]] + Insert(bs[1..], k, v, rank)
  }

  /** GROUP BY k ORDER BY k with SUM(v), folding the pairs in order. */
  function Group<K(==)>(ps: seq<(K, int)>, rank: K -> int): seq<Bucket<K>>
  {
    if ps == [] then [] else Insert(Group(ps[..|ps| - 1], rank), ps[|ps| - 1].0, ps[|ps| - 1].1, rank)
  }

  /** The total of key k's bucket, 0 when there is none. */
  function Lookup<K(==)>(bs: seq<Bucket<K>>, k: K): int
  {
    if bs == [] then 0 else if bs[0].key == k then bs[0].total else Lookup(bs[1..], k)
  }

  /** The first bucket after inserting k is k's or the old first one. */
  lemma InsertFirst<K>(bs: seq<Bucket<K>>, k: K, v: int, rank: K -> int)
    ensures Insert(bs, k, v, rank) != []
    ensures var r := Insert(bs, k, v, rank);
            r[0].key == k || (bs != [] && r[0].key == bs[0].key)
  {
  }

  /** Inserting keeps the buckets strictly ascending. */
  lemma {:induction false} InsertAscending<K(!new)>(bs: seq<Bucket<K>>, k: K, v: int, rank: K -> int)
    requires Injective(rank) && StrictlyAscending(bs, rank)
    ensures StrictlyAscending(Insert(bs, k, v, rank), rank)
  {
    if bs != [] && bs[0].key != k && rank(k) >= rank(bs[0].key) {
      var tail := Insert(bs[1..], k, v, rank);
      InsertAscending(bs[1..], k, v, rank);
      InsertFirst(bs[1..], k, v, rank);
      assert Insert(bs, k, v, rank) == [bs[0]] + tail;
      assert rank(bs[0].key) < rank(tail[0].key) by {
        assert rank(k) != rank(bs[0].key);
        if bs[1..] != [] {
          assert bs[1..][0] == bs[1];
        }
      }
      ConsAscending(bs[0], tail, rank);
    }
  }

  /** A bucket ranked below the first of ascending buckets can go in front of them. */
  lemma ConsAscending<K>(b: Bucket<K>, bs: seq<Bucket<K>>, rank: K -> int)
    requires StrictlyAscending(bs, rank)
    requires bs != [] ==> rank(b.key) < rank(bs[0].key)
    ensures StrictlyAscending([b] + bs, rank)
  {
    var r := [b] + bs;
    forall i, j | 0 <= i < j < |r| ensures rank(r[i].key) < rank(r[j].key) {
      assert r[j] == bs[j - 1];
      if i > 0 {
        assert r[i] == bs[i - 1];
      } else if j > 1 {
        assert rank(bs[0].key) < rank(bs[j - 1].key);
      }
    }
  }

  /** Inserting adds k to the keys and nothing else. */
  lemma {:induction false} InsertKeys<K(!new)>(bs: seq<Bucket<K>>, k: K, v: int, rank: K -> int)
    ensures BucketKeys(Insert(bs, k, v, rank)) == BucketKeys(bs) + {k}
  {
    var r := Insert(bs, k, v, rank);
    if bs == [] {
      assert r[0] in r;
    } else {
      assert bs == [bs[0]] + bs[1..];
      KeysCons(bs[0], bs[1..]);
      if bs[0].key == k {
        KeysCons(Bucket(k, bs[0].total + v), bs[1..]);
      } else if rank(k) < rank(bs[0].key) {
        KeysCons(Bucket(k, v), bs);
      } else {
        InsertKeys(bs[1..], k, v, rank);
        KeysCons(bs[0], Insert(bs[1..], k, v, rank));
      }
    }
  }

  lemma {:induction false} KeysCons<K>(b: Bucket<K>, bs: seq<Bucket<K>>)
    ensures BucketKeys([b] + bs) == {b.key} + BucketKeys(bs)
  {
    var c := [b] + bs;
    forall x | x in BucketKeys(c) ensures x in {b.key} + BucketKeys(bs) {
      var y :| y in c && y.key == x;
      if y != b {
        assert y in bs;
      }
    }
    forall x | x in BucketKeys(bs) ensures x in BucketKeys(c) {
      var y :| y in bs && y.key == x;
      assert y in c;
    }
    assert b in c;
  }

  /** Inserting adds v to the overall total. */
  lemma {:induction false} InsertTotal<K(!new)>(bs: seq<Bucket<K>>, k: K, v: int, rank: K -> int)
    ensures BucketTotal(Insert(bs, k, v, rank)) == BucketTotal(bs) + v
  {
    var r := Insert(bs, k, v, rank);
    if bs == [] {
    } else if bs[0].key == k {
      assert r[1..] == bs[1..];
    } else if rank(k) < rank(bs[0].key) {
      assert r[1..] == bs;
    } else {
      InsertTotal(bs[1..], k, v, rank);
      assert r[1..] == Insert(bs[1..], k, v, rank);
    }
  }

  /** Inserting adds v to the bucket of k and leaves every other bucket's total alone. */
  lemma {:induction false} InsertLookup<K(!new)>(bs: seq<Bucket<K>>, k: K, v: int, rank: K -> int, j: K)
    requires StrictlyAscending(bs, rank)
    ensures Lookup(Insert(bs, k, v, rank), j) == Lookup(bs, j) + (if j == k then v else 0)
  {
    var r := Insert(bs, k, v, rank);
    if bs == [] {
    } else if bs[0].key == k {
      assert r[1..] == bs[1..];
      if j == k {
      }
    } else if rank(k) < rank(bs[0].key) {
      assert r[1..] == bs;
      if j == k {
        LookupAbsent(bs, k, rank);
      }
    } else {
      InsertLookup(bs[1..], k, v, rank, j);
      assert r[1..] == Insert(bs[1..], k, v, rank);
    }
  }

  /** A key ranked below every bucket has no bucket. */
  lemma {:induction false} LookupAbsent<K>(bs: seq<Bucket<K>>, k: K, rank: K -> int)
    requires StrictlyAscending(bs, rank)
    requires bs != [] ==> rank(k) < rank(bs[0].key)
    ensures Lookup(bs, k) == 0 && k !in BucketKeys(bs)
  {
    if bs != [] {
      LookupAbsent(bs[1..], k, rank);
      assert BucketKeys(bs) == {bs[0].key} + BucketKeys(bs[1..]);
    }
  }

  /** The grouping is strictly ascending by key. */
  lemma {:induction false} GroupAscending<K(!new)>(ps: seq<(K, int)>, rank: K -> int)
    requires Injective(rank)
    ensures StrictlyAscending(Group(ps, rank), rank)
  {
    if ps != [] {
      var init := ps[..|ps| - 1];
      GroupAscending(init, rank);
      InsertAscending(Group(init, rank), ps[|ps| - 1].0, ps[|ps| - 1].1, rank);
    }
  }

  /** The grouping has a bucket for every key of the input and for no other key. */
  lemma {:induction false} GroupKeys<K(!new)>(ps: seq<(K, int)>, rank: K -> int)
    ensures BucketKeys(Group(ps, rank)) == Keys(ps)
  {
    if ps != [] {
      var init := ps[..|ps| - 1];
      var last := ps[|ps| - 1];
      GroupKeys(init, rank);
      InsertKeys(Group(init, rank), last.0, last.1, rank);
      KeysSnoc(init, last);
      assert ps == init + [last];
    }
  }

  /** The buckets together hold the sum of all values. */
  lemma {:induction false} GroupTotal<K(!new)>(ps: seq<(K, int)>, rank: K -> int)
    ensures BucketTotal(Group(ps, rank)) == Total(ps)
  {
    if ps != [] {
      var init := ps[..|ps| - 1];
      GroupTotal(init, rank);
      InsertTotal(Group(init, rank), ps[|ps| - 1].0, ps[|ps| - 1].1, rank);
    }
  }

  /** The bucket of key k holds the sum of k's values. */
  lemma {:induction false} GroupLookup<K(!new)>(ps: seq<(K, int)>, rank: K -> int, k: K)
    requires Injective(rank)
    ensures Lookup(Group(ps, rank), k) == SumFor(ps, k)
  {
    if ps != [] {
      var init := ps[..|ps| - 1];
      GroupLookup(init, rank, k);
      GroupAscending(init, rank);
      InsertLookup(Group(init, rank), ps[|ps| - 1].0, ps[|ps| - 1].1, rank, k);
    }
  }

  /**
   * GROUP BY semantics: the buckets are strictly ascending by key, there is
   * exactly one per distinct key of the input, each holds the sum of its
   * key's values, and together they hold the sum of all values.
   */
  lemma GroupSpec<K(!new)>(ps: seq<(K, int)>, rank: K -> int)
    requires Injective(rank)
    ensures var g := Group(ps, rank);
            && StrictlyAscending(g, rank)
            && BucketKeys(g) == Keys(ps)
            && BucketTotal(g) == Total(ps)
            && forall k :: Lookup(g, k) == SumFor(ps, k)
  {
    GroupAscending(ps, rank);
    GroupKeys(ps, rank);
    GroupTotal(ps, rank);
    forall k ensures Lookup(Group(ps, rank), k) == SumFor(ps, k) {
      GroupLookup(ps, rank, k);
    }
  }

  lemma {:induction false} KeysSnoc<K>(ps: seq<(K, int)>, p: (K, int))
    ensures Keys(ps + [p]) == Keys(ps) + {p.0}
  {
    var c := ps + [p];
    forall x | x in Keys(c) ensures x in Keys(ps) + {p.0} {
      var y :| y in c && y.0 == x;
      if y != p {
        assert y in ps;
      }
    }
    forall x | x in Keys(ps) ensures x in Keys(c) {
      var y :| y in ps && y.0 == x;
      assert y in c;
    }
    assert p in c;
  }

  /** In strictly ascending buckets each bucket is the one Lookup finds for its key. */
  lemma {:induction false} LookupAt<K(!new)>(bs: seq<Bucket<K>>, i: int, rank: K -> int)
    requires StrictlyAscending(bs, rank) && 0 <= i < |bs|
    ensures Lookup(bs, bs[i].key) == bs[i].total
  {
    if i > 0 {
      assert bs[0].key != bs[i].key;
      LookupAt(bs[1..], i - 1, rank);
    }
  }

  /** Each bucket of the grouping holds the sum of the values of its key, which occurs in the input. */
  lemma {:induction false} GroupEntries<K(!new)>(ps: seq<(K, int)>, rank: K -> int)
    requires Injective(rank)
    ensures var g := Group(ps, rank);
            forall i :: 0 <= i < |g| ==> g[i].key in Keys(ps) && g[i].total == SumFor(ps, g[i].key)
  {
    var g := Group(ps, rank);
    GroupSpec(ps, rank);
    forall i | 0 <= i < |g| ensures g[i].key in Keys(ps) && g[i].total == SumFor(ps, g[i].key) {
      assert g[i].key in BucketKeys(g);
      LookupAt(g, i, rank);
    }
  }

  /** No input rows, no groups; some input rows, some groups. */
  lemma {:induction false} GroupEmpty<K(!new)>(ps: seq<(K, int)>, rank: K -> int)
    requires Injective(rank)
    ensures Group(ps, rank) == [] <==> ps == []
  {
    GroupSpec(ps, rank);
    if ps != [] {
      assert ps[0].0 in Keys(ps);
    }
  }

  lemma {:induction false} SumForAppend<K>(ps: seq<(K, int)>, p: (K, int), k: K)
    ensures SumFor(ps + [p], k) == SumFor(ps, k) + (if p.0 == k then p.1 else 0)
  {
    assert (ps + [p])[..|ps|] == ps;
  }

  /** A key that does not occur has a zero sum. */
  lemma {:induction false} SumForAbsent<K>(ps: seq<(K, int)>, k: K)
    requires k !in Keys(ps)
    ensures SumFor(ps, k) == 0
  {
    if ps != [] {
      var init := ps[..|ps| - 1];
      assert Keys(init) <= Keys(ps) by {
        forall x | x in Keys(init) ensures x in Keys(ps) {
          var p :| p in init && p.0 == x;
          assert p in ps;
        }
      }
      SumForAbsent(init, k);
      assert ps[|ps| - 1] in ps;
    }
  }

  /** Adding one pair to the input adds its value to the sum over any duplicate-free key list holding its key. */
  lemma {:induction false} SumOverKeysAppend<K>(ks: seq<K>, ps: seq<(K, int)>, p: (K, int))
    requires forall i, j :: 0 <= i < j < |ks| ==> ks[i] != ks[j]
    ensures SumOverKeys(ks, ps + [p]) == SumOverKeys(ks, ps) + (if p.0 in ks then p.1 else 0)
  {
    if ks != [] {
      SumForAppend(ps, p, ks[0]);
      SumOverKeysAppend(ks[1..], ps, p);
      assert p.0 in ks <==> p.0 == ks[0] || p.0 in ks[1..];
      if p.0 == ks[0] {
        assert p.0 !in ks[1..];
      }
    }
  }

  /**
   * Conservation: summing the groups over ANY duplicate-free listing of the
   * keys that covers the input (a HashMap's key set, in whatever order it
   * iterates) gives the sum of all values.
   */
  lemma {:induction false} SumOverKeysConserves<K>(ks: seq<K>, ps: seq<(K, int)>)
    requires forall i, j :: 0 <= i < j < |ks| ==> ks[i] != ks[j]
    requires forall p :: p in ps ==> p.0 in ks
    ensures SumOverKeys(ks, ps) == Total(ps)
  {
    if ps == [] {
      SumOverKeysZero(ks, ps);
    } else {
      var init := ps[..|ps| - 1];
      assert ps == init + [ps[|ps| - 1]];
      SumOverKeysConserves(ks, init);
      SumOverKeysAppend(ks, init, ps[|ps| - 1]);
    }
  }

  lemma {:induction false} SumOverKeysZero<K>(ks: seq<K>, ps: seq<(K, int)>)
    requires ps == []
    ensures SumOverKeys(ks, ps) == 0
  {
    if ks != [] {
      SumOverKeysZero(ks[1..], ps);
    }
  }

  /** The total of a concatenation. */
  lemma {:induction false} TotalAppend<K>(ps: seq<(K, int)>, qs: seq<(K, int)>)
    ensures Total(ps + qs) == Total(ps) + Total(qs)
    decreases |qs|
  {
    if qs != [] {
      var init := qs[..|qs| - 1];
      assert (ps + qs)[..|ps + qs| - 1] == ps + init;
      assert (ps + qs)[|ps + qs| - 1] == qs[|qs| - 1];
      TotalAppend(ps, init);
    } else {
      assert ps + qs == ps;
    }
  }

  lemma {:induction false} SumForConcat<K>(ps: seq<(K, int)>, qs: seq<(K, int)>, k: K)
    ensures SumFor(ps + qs, k) == SumFor(ps, k) + SumFor(qs, k)
    decreases |qs|
  {
    if qs != [] {
      var init := qs[..|qs| - 1];
      assert (ps + qs)[..|ps + qs| - 1] == ps + init;
      assert (ps + qs)[|ps + qs| - 1] == qs[|qs| - 1];
      SumForConcat(ps, init, k);
    } else {
      assert ps + qs == ps;
    }
  }

  /** Removing one occurrence of the same element from two permutations leaves permutations. */
  lemma {:induction false} PermutationRemove<T>(init: seq<T>, last: T, qs: seq<T>, j: int)
    requires multiset(init + [last]) == multiset(qs)
    requires 0 <= j < |qs| && qs[j] == last
    ensures multiset(init) == multiset(qs[..j] + qs[j + 1..])
  {
    var rest := qs[..j] + qs[j + 1..];
    assert qs == qs[..j] + [last] + qs[j + 1..];
    assert multiset(qs) == multiset(rest) + multiset{last};
    assert multiset(init + [last]) == multiset(init) + multiset{last};
    forall x ensures multiset(init)[x] == multiset(rest)[x] {
      assert multiset(init + [last])[x] == multiset(qs)[x];
    }
  }

  /** The per-key sums do not depend on the order of the input rows. */
  lemma {:induction false} SumForPermutation<K>(ps: seq<(K, int)>, qs: seq<(K, int)>, k: K)
    requires multiset(ps) == multiset(qs)
    ensures SumFor(ps, k) == SumFor(qs, k)
    decreases |ps|
  {
    if ps == [] {
      assert |qs| == |multiset(qs)| == 0;
    } else {
      var last := ps[|ps| - 1];
      var init := ps[..|ps| - 1];
      assert ps == init + [last];
      assert last in multiset(qs);
      var j :| 0 <= j < |qs| && qs[j] == last;
      var rest := qs[..j] + qs[j + 1..];
      PermutationRemove(init, last, qs, j);
      SumForPermutation(init, rest, k);
      assert qs == qs[..j] + ([last] + qs[j + 1..]);
      SumForConcat(qs[..j], [last] + qs[j + 1..], k);
      SumForConcat([last], qs[j + 1..], k);
      SumForConcat(qs[..j], qs[j + 1..], k);
      assert SumFor([last], k) == if last.0 == k then last.1 else 0 by {
        assert [last][..0] == [];
      }
    }
  }

  lemma {:induction false} KeysPermutation<K>(ps: seq<(K, int)>, qs: seq<(K, int)>)
    requires multiset(ps) == multiset(qs)
    ensures Keys(ps) == Keys(qs)
  {
    forall x | x in Keys(ps) ensures x in Keys(qs) {
      var p :| p in ps && p.0 == x;
      assert p in multiset(qs);
    }
    forall x | x in Keys(qs) ensures x in Keys(ps) {
      var p :| p in qs && p.0 == x;
      assert p in multiset(ps);
    }
  }

  /** Strictly ascending buckets are determined by their keys and totals. */
  lemma {:induction false} AscendingUnique<K(!new)>(a: seq<Bucket<K>>, b: seq<Bucket<K>>, rank: K -> int)
    requires Injective(rank) && StrictlyAscending(a, rank) && StrictlyAscending(b, rank)
    requires BucketKeys(a) == BucketKeys(b)
    requires forall k :: Lookup(a, k) == Lookup(b, k)
    ensures a == b
    decreases |a|
  {
    if a == [] {
      FirstKeyPresent(b);
    } else {
      assert a[0] in a;
      assert a[0].key in BucketKeys(b);
      assert b != [];
      assert b[0] in b;
      RankAtLeastFirst(a, b[0].key, rank);
      RankAtLeastFirst(b, a[0].key, rank);
      var h := a[0].key;
      assert b[0].key == h;
      DropFirst(a, rank);
      DropFirst(b, rank);
      AscendingUnique(a[1..], b[1..], rank);
      assert a == [a[0]] + a[1..] && b == [b[0]] + b[1..];
    }
  }

  lemma {:induction false} FirstKeyPresent<K>(bs: seq<Bucket<K>>)
    ensures bs != [] ==> bs[0].key in BucketKeys(bs)
    ensures bs == [] <==> BucketKeys(bs) == {}
  {
    if bs != [] {
      assert bs[0] in bs;
    }
  }

  /** What remains of ascending buckets once the first is dropped. */
  lemma {:induction false} DropFirst<K>(bs: seq<Bucket<K>>, rank: K -> int)
    requires StrictlyAscending(bs, rank) && bs != []
    ensures StrictlyAscending(bs[1..], rank)
    ensures BucketKeys(bs[1..]) == BucketKeys(bs) - {bs[0].key}
    ensures Lookup(bs, bs[0].key) == bs[0].total
    ensures forall k :: Lookup(bs[1..], k) == if k == bs[0].key then 0 else Lookup(bs, k)
  {
    assert bs == [bs[0]] + bs[1..];
    KeysCons(bs[0], bs[1..]);
    LookupAbsent(bs[1..], bs[0].key, rank);
  }

  /** Every key of ascending buckets ranks at or above the first one. */
  lemma {:induction false} RankAtLeastFirst<K>(bs: seq<Bucket<K>>, k: K, rank: K -> int)
    requires StrictlyAscending(bs, rank) && k in BucketKeys(bs)
    ensures rank(bs[0].key) <= rank(k)
  {
    var b :| b in bs && b.key == k;
    var i :| 0 <= i < |bs| && bs[i] == b;
  }

  /**
   * GROUP BY ... ORDER BY depends only on the multiset of rows, not on the
   * order in which they are stored.
   */
  lemma {:induction false} GroupOrderIndependent<K(!new)>(ps: seq<(K, int)>, qs: seq<(K, int)>, rank: K -> int)
    requires Injective(rank) && multiset(ps) == multiset(qs)
    ensures Group(ps, rank) == Group(qs, rank)
  {
    GroupSpec(ps, rank);
    GroupSpec(qs, rank);
    KeysPermutation(ps, qs);
    forall k ensures Lookup(Group(ps, rank), k) == Lookup(Group(qs, rank), k) {
      SumForPermutation(ps, qs, k);
    }
    AscendingUnique(Group(ps, rank), Group(qs, rank), rank);
  }

  /** The sum of a list of values, first to last. */
  function SumValues(xs: seq<int>): int
  {
    if xs == [] then 0 else xs[0] + SumValues(xs[1..])
  }

  /** Amounts copied one by one from the buckets add up to the buckets' total. */
  lemma {:induction false} ValuesOfBuckets<K>(values: seq<int>, data: seq<Bucket<K>>)
    requires |values| == |data|
    requires forall i :: 0 <= i < |data| ==> values[i] == data[i].total
    ensures SumValues(values) == BucketTotal(data)
  {
    if values != [] {
      ValuesOfBuckets(values[1..], data[1..]);
    }
  }
}
