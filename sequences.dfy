/**
 * The array operations the storage queries are built from: `filter`,
 * a stable `sort` with a numeric comparator, and `findIndex`.
 */
module Sequences {
  import opened Wrappers

  /** The set of the elements of `s`. */
  ghost function Elements<T>(s: seq<T>): set<T> {
    set x | x in s
  }

  ghost predicate Distinct<T>(s: seq<T>) {
    forall i, j :: 0 <= i < j < |s| ==> s[i] != s[j]
  }

  lemma DistinctTail<T>(s: seq<T>)
    requires s != []
    ensures Distinct(s) ==> Distinct(s[1..]) && s[0] !in s[1..]
  {
    if Distinct(s) {
      forall j | 0 <= j < |s[1..]| ensures s[1..][j] != s[0] {
        assert s[1..][j] == s[j + 1];
      }
    }
  }

  /**
   * `s.filter(keep)`: the elements that pass. `FilterCount` shows that each is kept as
   * often as it occurs, and `FilterAppend` that the kept elements stay in their order.
   */
  function Filter<T(!new)>(s: seq<T>, keep: T -> bool): (r: seq<T>)
    ensures |r| <= |s|
    ensures forall x :: x in r <==> x in s && keep(x)
    ensures Distinct(s) ==> Distinct(r)
    decreases |s|
  {
    if s == [] then []
    else
      assert s == [s[0]] + s[1..];
      var rest := Filter(s[1..], keep);
      DistinctTail(s);
      if keep(s[0]) then [s[0]] + rest
      else rest
  }

  /** An element that passes is kept as often as it occurs in `s`; any other is dropped. */
  lemma {:induction false} FilterCount<T(!new)>(s: seq<T>, keep: T -> bool)
    ensures forall x :: multiset(Filter(s, keep))[x] == if keep(x) then multiset(s)[x] else 0
    decreases |s|
  {
    if s != [] {
      assert s == [s[0]] + s[1..];
      FilterCount(s[1..], keep);
    }
  }

  /** A filter never adds an element, nor more copies of one than its input has. */
  lemma FilterSubMultiset<T(!new)>(s: seq<T>, keep: T -> bool)
    ensures multiset(Filter(s, keep)) <= multiset(s)
  {
    FilterCount(s, keep);
  }

  /** Filtering a concatenation filters each part in place: the kept elements keep their order. */
  lemma {:induction false} FilterAppend<T(!new)>(a: seq<T>, b: seq<T>, keep: T -> bool)
    ensures Filter(a + b, keep) == Filter(a, keep) + Filter(b, keep)
    decreases |a|
  {
    if a == [] {
      assert a + b == b;
    } else {
      assert (a + b)[0] == a[0] && (a + b)[1..] == a[1..] + b;
      FilterAppend(a[1..], b, keep);
      if keep(a[0]) {
        assert Filter(a + b, keep) == [a[0]] + (Filter(a[1..], keep) + Filter(b, keep));
      } else {
        assert Filter(a + b, keep) == Filter(a[1..], keep) + Filter(b, keep);
      }
    }
  }

  /** Two tests that agree on every element of `s` filter it alike. */
  lemma {:induction false} FilterCongruent<T(!new)>(s: seq<T>, p: T -> bool, q: T -> bool)
    requires forall x :: x in s ==> p(x) == q(x)
    ensures Filter(s, p) == Filter(s, q)
    decreases |s|
  {
    if s != [] {
      assert s == [s[0]] + s[1..];
      FilterCongruent(s[1..], p, q);
    }
  }

  /** A filter that every element passes returns its input. */
  lemma {:induction false} FilterKeepsAll<T(!new)>(s: seq<T>, keep: T -> bool)
    requires forall x :: x in s ==> keep(x)
    ensures Filter(s, keep) == s
    decreases |s|
  {
    if s != [] {
      assert s == [s[0]] + s[1..];
      FilterKeepsAll(s[1..], keep);
    }
  }

  /** `a` is `b` with some of its elements left out and the others in their order. */
  ghost predicate IsSubsequence<T>(a: seq<T>, b: seq<T>)
    decreases |b|
  {
    if b == [] then a == []
    else (a != [] && a[0] == b[0] && IsSubsequence(a[1..], b[1..])) || IsSubsequence(a, b[1..])
  }

  /** What a filter keeps, it keeps in the order of its input. */
  lemma {:induction false} FilterIsSubsequence<T(!new)>(s: seq<T>, keep: T -> bool)
    ensures IsSubsequence(Filter(s, keep), s)
    decreases |s|
  {
    if s != [] {
      FilterIsSubsequence(s[1..], keep);
      FilterCons(s[0], s[1..], keep);
      assert [s[0]] + s[1..] == s;
    }
  }

  /** Ascending by `key`: the order a comparator `(a, b) => key(a) - key(b)` asks for. */
  ghost predicate SortedBy<T>(s: seq<T>, key: T -> int) {
    forall i, j :: 0 <= i < j < |s| ==> key(s[i]) <= key(s[j])
  }

  /**
   * Puts `x` in front of the first element whose key is not smaller, so that it stays
   * ahead of the elements with an equal key (the sort is stable).
   */
  function InsertBy<T(!new)>(x: T, s: seq<T>, key: T -> int): (r: seq<T>)
    requires SortedBy(s, key)
    ensures SortedBy(r, key)
    ensures multiset(r) == multiset(s) + multiset{x}
    ensures forall y :: y in r ==> y == x || y in s
    decreases |s|
  {
    if s == [] || key(x) <= key(s[0]) then [x] + s
    else
      var rest := InsertBy(x, s[1..], key);
      assert s == [s[0]] + s[1..];
      PrependSorted(s[0], rest, key, x, s[1..]);
      [s[0]] + rest
  }

  /** Putting `h` in front keeps a sorted `t` sorted when `h` is no larger than anything in `t`. */
  lemma PrependSorted<T>(h: T, t: seq<T>, key: T -> int, x: T, tail: seq<T>)
    requires SortedBy(t, key) && SortedBy([h] + tail, key) && key(h) < key(x)
    requires forall y :: y in t ==> y == x || y in tail
    ensures SortedBy([h] + t, key)
  {
    var r := [h] + t;
    forall i, j | 0 <= i < j < |r| ensures key(r[i]) <= key(r[j]) {
      if i == 0 {
        assert r[0] == h && r[j] == t[j - 1];
        assert r[j] in t;
        if r[j] != x {
          var k :| 0 <= k < |tail| && tail[k] == r[j];
          assert ([h] + tail)[0] == h && ([h] + tail)[k + 1] == r[j];
          assert key(([h] + tail)[0]) <= key(([h] + tail)[k + 1]);
        }
      } else {
        assert r[i] == t[i - 1] && r[j] == t[j - 1];
      }
    }
  }

  /** The elements whose key is `k`. */
  function KeyIs<T>(key: T -> int, k: int): T -> bool {
    x => key(x) == k
  }

  /** Filtering an element in front of `t`. */
  lemma FilterCons<T(!new)>(x: T, t: seq<T>, keep: T -> bool)
    ensures Filter([x] + t, keep) == (if keep(x) then [x] else []) + Filter(t, keep)
  {
    assert ([x] + t)[0] == x && ([x] + t)[1..] == t;
  }

  /** The tie order of `x` put in front of `s`. */
  lemma TiesInFront<T(!new)>(x: T, s: seq<T>, key: T -> int, k: int)
    ensures Filter([x] + s, KeyIs(key, k)) == (if key(x) == k then [x] else []) + Filter(s, KeyIs(key, k))
  {
    FilterCons(x, s, KeyIs(key, k));
  }

  /** A head with a smaller key than `x` is not among the ties of `x`. */
  lemma TieBehindHead<T(!new)>(x: T, h: T, t: seq<T>, rest: seq<T>, key: T -> int)
    requires key(h) < key(x)
    requires Filter(rest, KeyIs(key, key(x))) == [x] + Filter(t, KeyIs(key, key(x)))
    ensures Filter([h] + rest, KeyIs(key, key(x))) == [x] + Filter([h] + t, KeyIs(key, key(x)))
  {
    var p := KeyIs(key, key(x));
    assert !p(h);
    TiesInFront(h, rest, key, key(x));
    TiesInFront(h, t, key, key(x));
    assert Filter([h] + t, p) == Filter(t, p);
  }

  /** For a key other than that of `x`, inserting `x` into the tail does not change the ties. */
  lemma OtherTiesBehindHead<T(!new)>(h: T, t: seq<T>, rest: seq<T>, key: T -> int, k: int)
    requires Filter(rest, KeyIs(key, k)) == Filter(t, KeyIs(key, k))
    ensures Filter([h] + rest, KeyIs(key, k)) == Filter([h] + t, KeyIs(key, k))
  {
    TiesInFront(h, rest, key, k);
    TiesInFront(h, t, key, k);
  }

  lemma SortedTail<T>(s: seq<T>, key: T -> int)
    requires s != [] && SortedBy(s, key)
    ensures SortedBy(s[1..], key)
  {
    forall i, j | 0 <= i < j < |s[1..]| ensures key(s[1..][i]) <= key(s[1..][j]) {
      assert s[1..][i] == s[i + 1] && s[1..][j] == s[j + 1];
    }
  }

  /** One step of the insertion past a head `h` with a smaller key, given the ties of the insertion into the tail. */
  lemma TiesPastHead<T(!new)>(x: T, h: T, t: seq<T>, rest: seq<T>, key: T -> int, k: int)
    requires key(h) < key(x)
    requires Filter(rest, KeyIs(key, k)) == (if key(x) == k then [x] else []) + Filter(t, KeyIs(key, k))
    ensures Filter([h] + rest, KeyIs(key, k)) == (if key(x) == k then [x] else []) + Filter([h] + t, KeyIs(key, k))
  {
    if key(x) == k {
      TieBehindHead(x, h, t, rest, key);
    } else {
      assert Filter(rest, KeyIs(key, k)) == [] + Filter(t, KeyIs(key, k)) == Filter(t, KeyIs(key, k));
      OtherTiesBehindHead(h, t, rest, key, k);
    }
  }

  /**
   * Inserting `x` puts it ahead of every element with the same key and leaves the
   * other elements with that key in their order.
   */
  lemma {:induction false} InsertByTies<T(!new)>(x: T, s: seq<T>, key: T -> int, k: int)
    requires SortedBy(s, key)
    ensures Filter(InsertBy(x, s, key), KeyIs(key, k)) == (if key(x) == k then [x] else []) + Filter(s, KeyIs(key, k))
    decreases |s|
  {
    if s == [] || key(x) <= key(s[0]) {
      assert InsertBy(x, s, key) == [x] + s;
      TiesInFront(x, s, key, k);
    } else {
      SortedTail(s, key);
      InsertByTies(x, s[1..], key, k);
      assert InsertBy(x, s, key) == [s[0]] + InsertBy(x, s[1..], key);
      TiesPastHead(x, s[0], s[1..], InsertBy(x, s[1..], key), key, k);
      assert s == [s[0]] + s[1..];
    }
  }

  /**
   * `s.sort((a, b) => key(a) - key(b))`: a stable insertion sort. The result is sorted,
   * a permutation of `s`, and the elements sharing a key come in the order they had in `s`.
   */
  function SortBy<T(!new)>(s: seq<T>, key: T -> int): (r: seq<T>)
    ensures SortedBy(r, key)
    ensures multiset(r) == multiset(s)
    ensures forall k :: Filter(r, KeyIs(key, k)) == Filter(s, KeyIs(key, k))
    decreases |s|
  {
    if s == [] then []
    else
      assert s == [s[0]] + s[1..];
      var rest := SortBy(s[1..], key);
      assert forall k :: Filter(InsertBy(s[0], rest, key), KeyIs(key, k)) == Filter(s, KeyIs(key, k)) by {
        forall k ensures Filter(InsertBy(s[0], rest, key), KeyIs(key, k)) == Filter(s, KeyIs(key, k)) {
          InsertByTies(s[0], rest, key, k);
        }
      }
      InsertBy(s[0], rest, key)
  }

  /** `s.findIndex(p)`: the first index whose element passes, or `None` (JavaScript's -1). */
  function FindIndex<T>(s: seq<T>, p: T -> bool): (r: Option<nat>)
    ensures r.Some? ==> r.value < |s| && p(s[r.value])
    ensures r.Some? ==> forall j :: 0 <= j < r.value ==> !p(s[j])
    ensures r.None? ==> forall j :: 0 <= j < |s| ==> !p(s[j])
    decreases |s|
  {
    if s == [] then None
    else if p(s[0]) then Some(0)
    else match FindIndex(s[1..], p)
      case None => None
      case Some(i) => Some(i + 1)
  }
}
