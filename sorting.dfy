/**
 * `Array.prototype.sort` with a descending numeric comparator
 * (`(a, b) => key(b) - key(a)`), which the engine performs as a stable sort:
 * elements with equal keys keep their relative order. Modelled as insertion
 * sort, with the three facts callers rely on proved about it: the result is
 * ordered, it is a permutation of the input, and it is stable.
 */
module Sorting {
  import opened Seqs

  predicate NonIncreasing<T>(s: seq<T>, key: T -> int) {
    forall i, j :: 0 <= i < j < |s| ==> key(s[i]) >= key(s[j])
  }

  /** Puts `x` in front of the first element whose key is not larger. */
  function Insert<T>(x: T, s: seq<T>, key: T -> int): seq<T> {
    if |s| == 0 || key(s[0]) <= key(x) then [x] + s
    else [s[0]] + Insert(x, s[1..], key)
  }

  function SortDesc<T>(s: seq<T>, key: T -> int): seq<T> {
    if |s| == 0 then [] else Insert(s[0], SortDesc(s[1..], key), key)
  }

  function KeyIs<T>(key: T -> int, k: int): T -> bool {
    x => key(x) == k
  }

  /** The elements of `s` whose key is `k`, in order. */
  function WithKey<T>(s: seq<T>, key: T -> int, k: int): seq<T> {
    Filter(s, KeyIs(key, k))
  }

  lemma {:induction false} InsertFacts<T>(x: T, s: seq<T>, key: T -> int)
    ensures |Insert(x, s, key)| == |s| + 1
    ensures multiset(Insert(x, s, key)) == multiset(s) + multiset{x}
    ensures forall y :: y in Insert(x, s, key) ==> y == x || y in s
    ensures NonIncreasing(s, key) ==> NonIncreasing(Insert(x, s, key), key)
  {
    InsertPermutes(x, s, key);
    if NonIncreasing(s, key) {
      InsertSorted(x, s, key);
    }
  }

  lemma {:induction false} InsertPermutes<T>(x: T, s: seq<T>, key: T -> int)
    ensures |Insert(x, s, key)| == |s| + 1
    ensures multiset(Insert(x, s, key)) == multiset(s) + multiset{x}
    ensures forall y :: y in Insert(x, s, key) ==> y == x || y in s
  {
    if |s| > 0 && key(s[0]) > key(x) {
      InsertPermutes(x, s[1..], key);
      assert s == [s[0]] + s[1..];
    }
  }

  lemma {:induction false} InsertSorted<T>(x: T, s: seq<T>, key: T -> int)
    requires NonIncreasing(s, key)
    ensures NonIncreasing(Insert(x, s, key), key)
  {
    if |s| > 0 && key(s[0]) > key(x) {
      var t := s[1..];
      assert NonIncreasing(t, key);
      InsertSorted(x, t, key);
      InsertPermutes(x, t, key);
      var r := Insert(x, s, key);
      assert r == [s[0]] + Insert(x, t, key);
      forall j | 0 < j < |r| ensures key(r[0]) >= key(r[j]) {
        assert r[j] in Insert(x, t, key);
      }
    }
  }

  lemma {:induction false} SortDescFacts<T>(s: seq<T>, key: T -> int)
    ensures |SortDesc(s, key)| == |s|
    ensures multiset(SortDesc(s, key)) == multiset(s)
    ensures NonIncreasing(SortDesc(s, key), key)
  {
    if |s| > 0 {
      SortDescFacts(s[1..], key);
      InsertFacts(s[0], SortDesc(s[1..], key), key);
      assert s == [s[0]] + s[1..];
    }
  }

  lemma {:induction false} SortDescMembers<T>(s: seq<T>, key: T -> int, x: T)
    ensures x in SortDesc(s, key) <==> x in s
  {
    SortDescFacts(s, key);
    assert x in SortDesc(s, key) <==> x in multiset(SortDesc(s, key));
    assert x in s <==> x in multiset(s);
  }

  lemma {:induction false} WithKeyInsert<T>(x: T, s: seq<T>, key: T -> int, k: int)
    ensures WithKey(Insert(x, s, key), key, k) ==
            (if key(x) == k then [x] else []) + WithKey(s, key, k)
  {
    var p := KeyIs(key, k);
    if |s| == 0 || key(s[0]) <= key(x) {
      FilterAppend([x], s, p);
    } else {
      var t := s[1..];
      assert s == [s[0]] + t;
      WithKeyInsert(x, t, key, k);
      FilterPassOver(s[0], x, Insert(x, t, key), t, p);
    }
  }

  /** Moving `x` in front of `y` does not change what a filter keeps when
      the filter keeps at most one of them. */
  lemma {:induction false} FilterPassOver<T>(y: T, x: T, u: seq<T>, t: seq<T>, p: T -> bool)
    requires !(p(x) && p(y))
    requires Filter(u, p) == Filter([x], p) + Filter(t, p)
    ensures Filter([y] + u, p) == Filter([x], p) + Filter([y] + t, p)
  {
    FilterAppend([y], u, p);
    FilterAppend([y], t, p);
    FilterSingleton(x, p);
    FilterSingleton(y, p);
  }

  /** Stability: for every key, the elements with that key appear in the
      sorted sequence in the same order as in the input. */
  lemma {:induction false} SortDescStable<T>(s: seq<T>, key: T -> int, k: int)
    ensures WithKey(SortDesc(s, key), key, k) == WithKey(s, key, k)
  {
    if |s| > 0 {
      var t := s[1..];
      assert s == [s[0]] + t;
      SortDescStable(t, key, k);
      WithKeyInsert(s[0], SortDesc(t, key), key, k);
      FilterAppend([s[0]], t, KeyIs(key, k));
      FilterSingleton(s[0], KeyIs(key, k));
    }
  }

  /** The elements with key `k` in a prefix are a prefix of those in the whole. */
  lemma {:induction false} WithKeyPrefix<T>(s: seq<T>, n: nat, key: T -> int, k: int)
    requires n <= |s|
    ensures |WithKey(s[..n], key, k)| <= |WithKey(s, key, k)|
    ensures WithKey(s[..n], key, k) == WithKey(s, key, k)[..|WithKey(s[..n], key, k)|]
  {
    assert s == s[..n] + s[n..];
    FilterAppend(s[..n], s[n..], KeyIs(key, k));
  }
}
