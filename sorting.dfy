/**
 * The results of the two JDK sorts the admin pages use: a stable sort by a
 * comparator on an integer key in descending order (List.sort), and the
 * ascending order of a set of distinct numbers (Collections.sort over a
 * HashSet's contents).
 */
module Sorting {

  predicate NonIncreasing<T>(s: seq<T>, key: T -> int)
  {
    forall i, j :: 0 <= i < j < |s| ==> key(s[i]) >= key(s[j])
  }

  predicate StrictlyIncreasing(s: seq<int>)
  {
    forall i, j :: 0 <= i < j < |s| ==> s[i] < s[j]
  }

  /** Sum of the keys. */
  function SumKey<T>(s: seq<T>, key: T -> int): int
  {
    if s == [] then 0 else key(s[0]) + SumKey(s[1..], key)
  }

  /** Places x before the first element whose key is not above x's. */
  function InsertDescending<T>(x: T, s: seq<T>, key: T -> int): seq<T>
  {
    if s == [] || key(s[0]) <= key(x) then [x] + s else [s[0]] + InsertDescending(x, s[1..], key)
  }

  /** Sorts by key, largest first; equal keys keep their input order. */
  function SortDescending<T>(s: seq<T>, key: T -> int): seq<T>
  {
    if s == [] then [] else InsertDescending(s[0], SortDescending(s[1..], key), key)
  }

  /** The first element after inserting x is x or the old first element. */
  lemma InsertDescendingFirst<T>(x: T, s: seq<T>, key: T -> int)
    ensures InsertDescending(x, s, key) != []
    ensures var r := InsertDescending(x, s, key);
            key(r[0]) == key(x) || (s != [] && key(r[0]) == key(s[0]))
  {
  }

  lemma {:induction false} InsertDescendingOrdered<T>(x: T, s: seq<T>, key: T -> int)
    requires NonIncreasing(s, key)
    ensures NonIncreasing(InsertDescending(x, s, key), key)
  {
    if s != [] && key(s[0]) > key(x) {
      var t := InsertDescending(x, s[1..], key);
      InsertDescendingOrdered(x, s[1..], key);
      InsertDescendingFirst(x, s[1..], key);
      var r := [s[0]] + t;
      assert InsertDescending(x, s, key) == r;
      assert key(s[0]) >= key(t[0]) by {
        if s[1..] != [] {
          assert s[1..][0] == s[1];
        }
      }
      forall i, j | 0 <= i < j < |r| ensures key(r[i]) >= key(r[j]) {
        assert r[j] == t[j - 1];
        if i > 0 {
          assert r[i] == t[i - 1];
        } else if j > 1 {
          assert key(t[0]) >= key(t[j - 1]);
        }
      }
    }
  }

  lemma {:induction false} InsertDescendingElements<T>(x: T, s: seq<T>, key: T -> int)
    ensures multiset(InsertDescending(x, s, key)) == multiset(s) + multiset{x}
  {
    var r := InsertDescending(x, s, key);
    if s == [] || key(s[0]) <= key(x) {
      assert r == [x] + s;
    } else {
      InsertDescendingElements(x, s[1..], key);
      assert r == [s[0]] + InsertDescending(x, s[1..], key);
      assert s == [s[0]] + s[1..];
    }
  }

  lemma {:induction false} InsertDescendingSum<T>(x: T, s: seq<T>, key: T -> int)
    ensures SumKey(InsertDescending(x, s, key), key) == key(x) + SumKey(s, key)
  {
    var r := InsertDescending(x, s, key);
    if s == [] || key(s[0]) <= key(x) {
      assert r[1..] == s;
    } else {
      InsertDescendingSum(x, s[1..], key);
      assert r[1..] == InsertDescending(x, s[1..], key);
    }
  }

  /** The descending sort is ordered by key. */
  lemma {:induction false} SortDescendingOrdered<T>(s: seq<T>, key: T -> int)
    ensures NonIncreasing(SortDescending(s, key), key)
  {
    if s != [] {
      SortDescendingOrdered(s[1..], key);
      InsertDescendingOrdered(s[0], SortDescending(s[1..], key), key);
    }
  }

  /** The descending sort holds the same elements as its input, each as often. */
  lemma {:induction false} SortDescendingElements<T>(s: seq<T>, key: T -> int)
    ensures multiset(SortDescending(s, key)) == multiset(s)
  {
    if s != [] {
      SortDescendingElements(s[1..], key);
      InsertDescendingElements(s[0], SortDescending(s[1..], key), key);
      assert s == [s[0]] + s[1..];
    }
  }

  /** The descending sort keeps the sum of the keys. */
  lemma {:induction false} SortDescendingSum<T>(s: seq<T>, key: T -> int)
    ensures SumKey(SortDescending(s, key), key) == SumKey(s, key)
  {
    if s != [] {
      SortDescendingSum(s[1..], key);
      InsertDescendingSum(s[0], SortDescending(s[1..], key), key);
    }
  }

  /**
   * The descending sort is ordered by key, holds the same elements as its
   * input, each as often, and so the same sum of keys.
   */
  lemma SortDescendingSpec<T>(s: seq<T>, key: T -> int)
    ensures var r := SortDescending(s, key);
            && NonIncreasing(r, key)
            && multiset(r) == multiset(s)
            && SumKey(r, key) == SumKey(s, key)
  {
    SortDescendingOrdered(s, key);
    SortDescendingElements(s, key);
    SortDescendingSum(s, key);
  }

  /** Adds x to a strictly increasing list, unless it is already there. */
  function InsertUnique(x: int, s: seq<int>): seq<int>
  {
    if s == [] || x < s[0] then [x] + s
    else if x == s[0] then s
    else [s[0]] + InsertUnique(x, s[1..])
  }

  /** The distinct values of s in ascending order. */
  function SortedDistinct(s: seq<int>): seq<int>
  {
    if s == [] then [] else InsertUnique(s[0], SortedDistinct(s[1..]))
  }

  /** The first element after adding x is x or the old first element. */
  lemma InsertUniqueFirst(x: int, s: seq<int>)
    ensures InsertUnique(x, s) != []
    ensures var r := InsertUnique(x, s);
            r[0] == x || (s != [] && r[0] == s[0])
  {
  }

  lemma {:induction false} InsertUniqueOrdered(x: int, s: seq<int>)
    requires StrictlyIncreasing(s)
    ensures StrictlyIncreasing(InsertUnique(x, s))
  {
    if s != [] && x > s[0] {
      var t := InsertUnique(x, s[1..]);
      InsertUniqueOrdered(x, s[1..]);
      InsertUniqueFirst(x, s[1..]);
      var r := [s[0]] + t;
      assert InsertUnique(x, s) == r;
      assert s[0] < t[0] by {
        if s[1..] != [] {
          assert s[1..][0] == s[1];
        }
      }
      forall i, j | 0 <= i < j < |r| ensures r[i] < r[j] {
        assert r[j] == t[j - 1];
        if i > 0 {
          assert r[i] == t[i - 1];
        } else if j > 1 {
          assert t[0] < t[j - 1];
        }
      }
    }
  }

  lemma {:induction false} InsertUniqueElements(x: int, s: seq<int>)
    ensures (set y | y in InsertUnique(x, s)) == (set y | y in s) + {x}
  {
    var r := InsertUnique(x, s);
    if s == [] || x < s[0] {
      assert r == [x] + s;
    } else if x == s[0] {
    } else {
      var t := InsertUnique(x, s[1..]);
      InsertUniqueElements(x, s[1..]);
      assert r == [s[0]] + t;
      assert (set y | y in r) == {s[0]} + (set y | y in t);
      assert s == [s[0]] + s[1..];
      assert (set y | y in s) == {s[0]} + (set y | y in s[1..]);
    }
  }

  /** A strictly increasing list has no repeats: its length is the number of its distinct values. */
  lemma {:induction false} StrictlyIncreasingCard(s: seq<int>)
    requires StrictlyIncreasing(s)
    ensures |set y | y in s| == |s|
  {
    if s != [] {
      StrictlyIncreasingCard(s[1..]);
      assert (set y | y in s) == {s[0]} + (set y | y in s[1..]);
      assert s[0] !in (set y | y in s[1..]);
    }
  }

  /** The distinct values are ascending without repeats. */
  lemma {:induction false} SortedDistinctOrdered(s: seq<int>)
    ensures StrictlyIncreasing(SortedDistinct(s))
  {
    if s != [] {
      SortedDistinctOrdered(s[1..]);
      InsertUniqueOrdered(s[0], SortedDistinct(s[1..]));
    }
  }

  /** The distinct values are exactly the values of the input. */
  lemma {:induction false} SortedDistinctElements(s: seq<int>)
    ensures (set y | y in SortedDistinct(s)) == (set y | y in s)
  {
    if s != [] {
      SortedDistinctElements(s[1..]);
      InsertUniqueElements(s[0], SortedDistinct(s[1..]));
      assert (set y | y in s) == {s[0]} + (set y | y in s[1..]);
    }
  }

  /**
   * The distinct values are ascending without repeats, are exactly the
   * values of the input, and are as many as the input has distinct values.
   */
  lemma SortedDistinctSpec(s: seq<int>)
    ensures var r := SortedDistinct(s);
            && StrictlyIncreasing(r)
            && (set y | y in r) == (set y | y in s)
            && |r| == |set y | y in s|
  {
    SortedDistinctOrdered(s);
    SortedDistinctElements(s);
    StrictlyIncreasingCard(SortedDistinct(s));
  }
}
