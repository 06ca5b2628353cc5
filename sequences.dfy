/**
 * Sequence operations behind the stores' queries: filtering, a stable sort on
 * an integer key (the `CreatedAt` timestamp), and MongoDB's `Skip` and `Limit`.
 */
module Sequences {

  /** The elements of `s` that satisfy `p`, in their original order. */
  function Filter<T(!new)>(s: seq<T>, p: T -> bool): (r: seq<T>)
    ensures |r| <= |s|
    ensures forall x :: x in r <==> x in s && p(x)
    ensures forall k :: 0 <= k < |r| ==> p(r[k])
  {
    if s == [] then []
    else if p(s[0]) then [s[0]] + Filter(s[1..], p)
    else Filter(s[1..], p)
  }

  /** Filtering two sequences whose elements agree on `p` position by position keeps as many elements. */
  lemma {:induction false} FilterLengthPointwise<T(!new)>(s: seq<T>, t: seq<T>, p: T -> bool)
    requires |s| == |t|
    requires forall i :: 0 <= i < |s| ==> p(s[i]) == p(t[i])
    ensures |Filter(s, p)| == |Filter(t, p)|
  {
    if s != [] {
      assert p(s[0]) == p(t[0]);
      FilterLengthPointwise(s[1..], t[1..], p);
    }
  }

  /** Filtering distributes over appending one element. */
  lemma {:induction false} FilterAppend<T(!new)>(s: seq<T>, x: T, p: T -> bool)
    ensures Filter(s + [x], p) == Filter(s, p) + (if p(x) then [x] else [])
  {
    if s != [] {
      assert (s + [x])[1..] == s[1..] + [x];
      FilterAppend(s[1..], x, p);
    } else {
      assert Filter([x][1..], p) == [];
    }
  }

  /** Filtering with a predicate no element satisfies gives the empty sequence. */
  lemma {:induction false} FilterNone<T(!new)>(s: seq<T>, p: T -> bool)
    requires forall i :: 0 <= i < |s| ==> !p(s[i])
    ensures Filter(s, p) == []
  {
    if s != [] {
      FilterNone(s[1..], p);
    }
  }

  ghost predicate SortedBy<T(!new)>(s: seq<T>, key: T -> int) {
    forall i, j :: 0 <= i < j < |s| ==> key(s[i]) <= key(s[j])
  }

  /** Inserts `x` before the first element whose key is not smaller than its own. */
  function InsertBy<T(!new)>(x: T, s: seq<T>, key: T -> int): (r: seq<T>)
    requires SortedBy(s, key)
    ensures SortedBy(r, key)
    ensures multiset(r) == multiset(s) + multiset{x}
  {
    if s == [] then [x]
    else if key(x) <= key(s[0]) then [x] + s
    else
      var rest := InsertBy(x, s[1..], key);
      HeadBelowInserted(x, s, key, rest);
      [s[0]] + rest
  }

  /** The head of a sorted `s` is not above anything in `rest`, which holds `x` (a larger key) and the tail of `s`. */
  lemma HeadBelowInserted<T(!new)>(x: T, s: seq<T>, key: T -> int, rest: seq<T>)
    requires s != [] && SortedBy(s, key) && key(s[0]) < key(x)
    requires SortedBy(rest, key) && multiset(rest) == multiset(s[1..]) + multiset{x}
    ensures SortedBy([s[0]] + rest, key)
    ensures multiset([s[0]] + rest) == multiset(s) + multiset{x}
  {
    forall k | 0 <= k < |rest| ensures key(s[0]) <= key(rest[k]) {
      assert rest[k] in multiset(rest);
      if rest[k] != x {
        assert rest[k] in multiset(s[1..]);
        assert rest[k] in s[1..];
      }
    }
    var r := [s[0]] + rest;
    forall i, j | 0 <= i < j < |r| ensures key(r[i]) <= key(r[j]) {
      if i > 0 {
        assert r[i] == rest[i - 1] && r[j] == rest[j - 1];
      }
    }
    assert s == [s[0]] + s[1..];
  }

  /** Insertion sort on `key`, ascending. Elements with equal keys keep their order. */
  function SortBy<T(!new)>(s: seq<T>, key: T -> int): (r: seq<T>)
    ensures SortedBy(r, key)
    ensures multiset(r) == multiset(s)
    ensures |r| == |s|
  {
    if s == [] then []
    else
      assert s == [s[0]] + s[1..];
      InsertBy(s[0], SortBy(s[1..], key), key)
  }

  /** MongoDB's `Limit(n)`: 0 means no limit, a negative `n` acts as its absolute value. */
  function Limit<T(!new)>(s: seq<T>, n: int): (r: seq<T>)
    ensures n == 0 ==> r == s
    ensures n != 0 ==> |r| == if |s| <= Abs(n) then |s| else Abs(n)
    ensures r == s[..|r|]
  {
    if n == 0 || |s| <= Abs(n) then s else s[..Abs(n)]
  }

  function Abs(n: int): nat {
    if n < 0 then -n else n
  }

  /** MongoDB's `Skip(k)`: drops the first `k` elements, or all of them. */
  function Skip<T(!new)>(s: seq<T>, k: nat): (r: seq<T>)
    ensures |r| == if k <= |s| then |s| - k else 0
    ensures forall i :: 0 <= i < |r| ==> r[i] == s[k + i]
  {
    if k <= |s| then s[k..] else []
  }

  /** The first `n` elements of `s`, or all of them when there are fewer. */
  function Take<T(!new)>(s: seq<T>, n: nat): (r: seq<T>)
    ensures |r| == if n <= |s| then n else |s|
    ensures r == s[..|r|]
  {
    if n <= |s| then s[..n] else s
  }

  function Reverse<T(!new)>(s: seq<T>): (r: seq<T>)
    ensures |r| == |s|
    ensures forall i :: 0 <= i < |s| ==> r[i] == s[|s| - 1 - i]
  {
    if s == [] then [] else Reverse(s[1..]) + [s[0]]
  }

  lemma {:induction false} ReverseMultiset<T(!new)>(s: seq<T>)
    ensures multiset(Reverse(s)) == multiset(s)
  {
    if s != [] {
      ReverseMultiset(s[1..]);
      assert s == [s[0]] + s[1..];
    }
  }

  /** Sequences with the same multiset hold the same elements. */
  lemma SameElements<T(!new)>(s: seq<T>, t: seq<T>, x: T)
    requires multiset(s) == multiset(t) && x in t
    ensures x in s
  {
    assert x in multiset(t);
  }

  /** A page (`Skip`, then `Limit`) holds nothing the sequence does not, each element at most as often. */
  lemma PageFromInput<T(!new)>(s: seq<T>, skip: nat, take: int)
    ensures multiset(Limit(Skip(s, skip), take)) <= multiset(s)
  {
    var page := Skip(s, skip);
    var res := Limit(page, take);
    if skip <= |s| {
      assert s == s[..skip] + page;
      assert page == res + page[|res|..];
    }
  }

  /**
   * Paging a sequence ordered by descending `key`: every element was skipped,
   * is on the page, or has a key no larger than that of anything on it.
   */
  lemma PageLeavesOut<T(!new)>(s: seq<T>, key: T -> int, skip: nat, take: int, x: T, y: T)
    requires forall i, j :: 0 <= i < j < |s| ==> key(s[i]) >= key(s[j])
    requires x in s && y in Limit(Skip(s, skip), take)
    ensures x in Take(s, skip) || x in Limit(Skip(s, skip), take) || key(x) <= key(y)
  {
    var page := Skip(s, skip);
    var res := Limit(page, take);
    var p :| 0 <= p < |s| && s[p] == x;
    var i :| 0 <= i < |res| && res[i] == y;
    assert y == s[skip + i];
    if p < skip {
      assert Take(s, skip)[p] == x;
    } else if p < skip + |res| {
      assert res[p - skip] == x;
    } else {
      assert key(s[skip + i]) >= key(s[p]);
    }
  }

  ghost predicate NoRepeats<T>(s: seq<T>) {
    forall i, j :: 0 <= i < j < |s| ==> s[i] != s[j]
  }

  /** An element occurs at most once in a sequence without repeats. */
  lemma {:induction false} CountAtMostOne<T(!new)>(s: seq<T>, x: T)
    requires NoRepeats(s)
    ensures multiset(s)[x] <= 1
  {
    if s != [] {
      assert s == [s[0]] + s[1..];
      assert NoRepeats(s[1..]) by {
        forall i, j | 0 <= i < j < |s| - 1 ensures s[1..][i] != s[1..][j] {
          assert s[1..][i] == s[i + 1] && s[1..][j] == s[j + 1];
        }
      }
      if x == s[0] {
        assert forall k :: 0 <= k < |s| - 1 ==> s[1..][k] == s[k + 1] && s[k + 1] != s[0];
        assert x !in s[1..];
      } else {
        CountAtMostOne(s[1..], x);
      }
    }
  }

  /** A permutation of a sequence without repeats has none either. */
  lemma NoRepeatsPermutation<T(!new)>(s: seq<T>, t: seq<T>)
    requires multiset(s) == multiset(t) && NoRepeats(t)
    ensures NoRepeats(s)
  {
    forall i, j | 0 <= i < j < |s| ensures s[i] != s[j] {
      CountAtMostOne(t, s[i]);
      assert s == s[..j] + s[j..];
      assert s[..j][i] == s[i];
      assert s[j..][0] == s[j];
    }
  }

  /**
   * Paging a sequence ordered by descending `key`: an element of the skipped
   * prefix has a key no smaller than anything on the page, and when no
   * element repeats it is not on the page.
   */
  lemma PageSkipsPrefix<T(!new)>(s: seq<T>, key: T -> int, skip: nat, take: int, x: T)
    requires forall i, j :: 0 <= i < j < |s| ==> key(s[i]) >= key(s[j])
    requires x in Take(s, skip)
    ensures forall y :: y in Limit(Skip(s, skip), take) ==> key(y) <= key(x)
    ensures NoRepeats(s) ==> x !in Limit(Skip(s, skip), take)
  {
    var res := Limit(Skip(s, skip), take);
    var p :| 0 <= p < |Take(s, skip)| && Take(s, skip)[p] == x;
    assert p < skip && s[p] == x;
    forall k | 0 <= k < |res| ensures key(res[k]) <= key(x) && (NoRepeats(s) ==> res[k] != x) {
      assert res[k] == s[skip + k];
    }
  }

  /**
   * FIFO selection: the first `n` elements of the sorted sequence are the ones
   * with the smallest keys; nothing left out has a smaller key than anything taken.
   */
  lemma {:induction false} LimitOfSortedTakesSmallest<T(!new)>(s: seq<T>, key: T -> int, n: int, x: T, y: T)
    requires x in s && x !in Limit(SortBy(s, key), n)
    requires y in Limit(SortBy(s, key), n)
    ensures key(y) <= key(x)
  {
    var sorted := SortBy(s, key);
    var taken := Limit(sorted, n);
    assert x in multiset(s);
    assert x in sorted;
    var j :| 0 <= j < |sorted| && sorted[j] == x;
    var i :| 0 <= i < |taken| && taken[i] == y;
    assert taken == sorted[..|taken|];
    assert sorted[i] == y;
  }

  /** Every element the sorted, limited sequence holds comes from the input. */
  lemma LimitOfSortedFromInput<T(!new)>(s: seq<T>, key: T -> int, n: int)
    ensures forall y :: y in Limit(SortBy(s, key), n) ==> y in s
  {
    var sorted := SortBy(s, key);
    forall y | y in Limit(sorted, n) ensures y in s {
      assert y in sorted;
      assert y in multiset(sorted);
    }
  }
}
