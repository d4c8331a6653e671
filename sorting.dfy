/**
 * A stable sort by a numeric key, highest key first. It stands for the
 * JavaScript engine's `Array.prototype.sort` with a comparator of the form
 * `(a, b) => key(b) - key(a)`, which is stable, and for the datastore's
 * `order(..., { ascending: false })`. An ascending order is the same sort on
 * the negated key.
 */
module Sorting {
  import opened Seqs

  /** Keys never increase from left to right. */
  ghost predicate NonIncreasing<T>(s: seq<T>, key: T -> real)
  {
    forall i, j :: 0 <= i < j < |s| ==> key(s[i]) >= key(s[j])
  }

  /** The elements whose key is exactly `k`. */
  function KeyIs<T>(key: T -> real, k: real): T -> bool
  {
    (x: T) => key(x) == k
  }

  /**
   * Inserts `x` in front of the first element whose key is not larger, that is,
   * before every element of equal key: an element inserted later came earlier
   * in the input.
   */
  function InsertDesc<T>(x: T, t: seq<T>, key: T -> real): (r: seq<T>)
    ensures |r| == |t| + 1
    ensures multiset(r) == multiset(t) + multiset{x}
    decreases |t|
  {
    if |t| == 0 then [x]
    else if key(x) >= key(t[0]) then [x] + t
    else
      assert t == [t[0]] + t[1..];
      [t[0]] + InsertDesc(x, t[1..], key)
  }

  lemma {:induction false} InsertDescSorted<T>(x: T, t: seq<T>, key: T -> real)
    requires NonIncreasing(t, key)
    ensures NonIncreasing(InsertDesc(x, t, key), key)
    decreases |t|
  {
    if |t| > 0 && key(x) < key(t[0]) {
      var rest := InsertDesc(x, t[1..], key);
      InsertDescSorted(x, t[1..], key);
      forall j | 0 <= j < |rest| ensures key(t[0]) >= key(rest[j]) {
        assert rest[j] in multiset(rest);
        assert rest[j] in multiset(t[1..]) + multiset{x};
        if rest[j] != x {
          assert rest[j] in t[1..];
        }
      }
    }
  }

  lemma MultisetHeadTail<T>(s: seq<T>)
    requires |s| > 0
    ensures multiset(s) == multiset(s[1..]) + multiset{s[0]}
  {
    assert s == [s[0]] + s[1..];
  }

  /** Stable sort, highest key first. */
  function SortDesc<T>(s: seq<T>, key: T -> real): (r: seq<T>)
    ensures |r| == |s|
    ensures multiset(r) == multiset(s)
    ensures NonIncreasing(r, key)
    decreases |s|
  {
    if |s| == 0 then []
    else
      var rest := SortDesc(s[1..], key);
      var r := InsertDesc(s[0], rest, key);
      InsertDescSorted(s[0], rest, key);
      MultisetHeadTail(s);
      r
  }

  /** Sorting neither adds nor drops a value. */
  lemma SortDescMembers<T>(s: seq<T>, key: T -> real)
    ensures forall x :: x in SortDesc(s, key) <==> x in s
  {
    var r := SortDesc(s, key);
    forall x ensures x in r <==> x in s {
      assert x in r <==> x in multiset(r);
      assert x in s <==> x in multiset(s);
    }
  }

  /** Inserting `x` puts it first among the elements of its own key and leaves the others' order. */
  lemma {:induction false} InsertDescStable<T(!new)>(x: T, t: seq<T>, key: T -> real, k: real)
    requires NonIncreasing(t, key)
    ensures Filter(InsertDesc(x, t, key), KeyIs(key, k))
         == (if key(x) == k then [x] else []) + Filter(t, KeyIs(key, k))
    decreases |t|
  {
    var p := KeyIs(key, k);
    if |t| == 0 {
    } else if key(x) >= key(t[0]) {
      assert InsertDesc(x, t, key) == [x] + t;
      assert ([x] + t)[1..] == t;
    } else {
      InsertDescStable(x, t[1..], key, k);
      var r := InsertDesc(x, t, key);
      assert r[0] == t[0] && r[1..] == InsertDesc(x, t[1..], key);
      assert key(x) == k ==> !p(t[0]);
    }
  }

  /**
   * Stability: for every key value, the elements having that key appear in the
   * sorted sequence in exactly the order they had in the input.
   */
  lemma {:induction false} SortDescStable<T(!new)>(s: seq<T>, key: T -> real, k: real)
    ensures Filter(SortDesc(s, key), KeyIs(key, k)) == Filter(s, KeyIs(key, k))
    decreases |s|
  {
    if |s| > 0 {
      SortDescStable(s[1..], key, k);
      InsertDescStable(s[0], SortDesc(s[1..], key), key, k);
    }
  }

  /** In a sequence whose keys never increase, the head has the largest key. */
  lemma HeadIsMax<T(!new)>(t: seq<T>, key: T -> real)
    requires NonIncreasing(t, key) && |t| > 0
    ensures forall y :: y in t ==> key(t[0]) >= key(y)
  {
    forall y | y in t ensures key(t[0]) >= key(y) {
      var j :| 0 <= j < |t| && t[j] == y;
      if j > 0 {
        assert key(t[0]) >= key(t[j]);
      }
    }
  }

  /**
   * Cutting a sequence whose keys never increase keeps the largest keys: every
   * element kept has a key at least that of every element cut off.
   */
  lemma TakeKeepsLargest<T>(sorted: seq<T>, n: nat, key: T -> real)
    requires NonIncreasing(sorted, key)
    ensures forall x, y :: x in sorted && x !in Take(sorted, n) && y in Take(sorted, n) ==> key(y) >= key(x)
  {
    var r := Take(sorted, n);
    forall x, y | x in sorted && x !in r && y in r ensures key(y) >= key(x) {
      var j :| 0 <= j < |sorted| && sorted[j] == x;
      var i :| 0 <= i < |r| && r[i] == y;
      assert j >= |r|;
      assert sorted[i] == y;
    }
  }

  /** Filtering an insertion: `x` is inserted into the filtered sequence, or dropped. */
  lemma {:induction false} FilterInsertDesc<T(!new)>(x: T, t: seq<T>, key: T -> real, p: T -> bool)
    requires NonIncreasing(t, key)
    ensures Filter(InsertDesc(x, t, key), p)
         == if p(x) then InsertDesc(x, Filter(t, p), key) else Filter(t, p)
    decreases |t|
  {
    if |t| == 0 {
    } else if key(x) >= key(t[0]) {
      assert InsertDesc(x, t, key) == [x] + t;
      assert ([x] + t)[1..] == t;
      var ft := Filter(t, p);
      if p(x) && |ft| > 0 {
        HeadIsMax(t, key);
        assert ft[0] in t;
      }
    } else {
      FilterInsertDesc(x, t[1..], key, p);
      var r := InsertDesc(x, t, key);
      assert r[0] == t[0] && r[1..] == InsertDesc(x, t[1..], key);
      if p(x) && p(t[0]) {
        var ft := Filter(t, p);
        assert ft[0] == t[0] && ft[1..] == Filter(t[1..], p);
      }
    }
  }

  /**
   * Sorting then filtering gives the same sequence as filtering then sorting:
   * a filter applied after a stable sort keeps the ranking the sort would
   * have given the kept elements alone.
   */
  lemma {:induction false} FilterSortCommute<T(!new)>(s: seq<T>, key: T -> real, p: T -> bool)
    ensures Filter(SortDesc(s, key), p) == SortDesc(Filter(s, p), key)
    decreases |s|
  {
    if |s| > 0 {
      FilterSortCommute(s[1..], key, p);
      FilterInsertDesc(s[0], SortDesc(s[1..], key), key, p);
    }
  }

  /** A subsequence of a sequence whose keys never increase has the same property. */
  lemma {:induction false} SubsequenceNonIncreasing<T>(a: seq<T>, b: seq<T>, key: T -> real)
    requires IsSubsequence(a, b) && NonIncreasing(b, key)
    ensures NonIncreasing(a, key)
    decreases |b|
  {
    if |a| == 0 {
    } else if a[0] == b[0] && IsSubsequence(a[1..], b[1..]) {
      SubsequenceNonIncreasing(a[1..], b[1..], key);
      SubsequenceMembers(a[1..], b[1..]);
      forall i, j | 0 <= i < j < |a| ensures key(a[i]) >= key(a[j]) {
        if i == 0 {
          assert a[j] == a[1..][j - 1];
          assert a[j] in b[1..];
          var m :| 0 <= m < |b[1..]| && b[1..][m] == a[j];
          assert b[m + 1] == a[j];
        } else {
          assert a[i] == a[1..][i - 1] && a[j] == a[1..][j - 1];
        }
      }
    } else {
      SubsequenceNonIncreasing(a, b[1..], key);
    }
  }
}
