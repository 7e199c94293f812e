/** Generic sequence operations that stand for the MongoDB cursor operations
    the server uses: `sort` on a key, a `find` filter, `limit` and `distinct`. */
module Seqs {

  /** The keys ascend (non-strictly) along s. */
  predicate SortedBy<T>(s: seq<T>, key: T -> int) {
    forall i, j :: 0 <= i < j < |s| ==> key(s[i]) <= key(s[j])
  }

  /** Inserts x before the first element whose key is not smaller. */
  function Insert<T>(x: T, s: seq<T>, key: T -> int): (r: seq<T>)
    requires SortedBy(s, key)
    ensures SortedBy(r, key)
    ensures multiset(r) == multiset(s) + multiset{x}
  {
    if s == [] then [x]
    else if key(x) <= key(s[0]) then [x] + s
    else
      var tail := Insert(x, s[1..], key);
      assert s == [s[0]] + s[1..];
      ConsSorted(s[0], x, s[1..], tail, key);
      [s[0]] + tail
  }

  /** A head no larger than anything in a sorted permutation of rest + [x]
      keeps the sequence sorted. */
  lemma ConsSorted<T>(h: T, x: T, rest: seq<T>, tail: seq<T>, key: T -> int)
    requires SortedBy([h] + rest, key) && key(h) <= key(x)
    requires SortedBy(tail, key) && multiset(tail) == multiset(rest) + multiset{x}
    ensures SortedBy([h] + tail, key)
  {
    forall k | 0 <= k < |tail|
      ensures key(h) <= key(tail[k])
    {
      assert tail[k] in multiset(tail);
      if tail[k] != x {
        assert tail[k] in multiset(rest);
        var j :| 0 <= j < |rest| && rest[j] == tail[k];
        assert ([h] + rest)[0] == h && ([h] + rest)[j + 1] == rest[j];
      }
    }
    var r := [h] + tail;
    forall i, j | 0 <= i < j < |r|
      ensures key(r[i]) <= key(r[j])
    {
      if i > 0 {
        assert r[i] == tail[i - 1] && r[j] == tail[j - 1];
      } else {
        assert r[j] == tail[j - 1];
      }
    }
  }

  /** A stable insertion sort: the result is sorted by key and is a
      permutation of s. */
  function Sort<T>(s: seq<T>, key: T -> int): (r: seq<T>)
    ensures SortedBy(r, key)
    ensures multiset(r) == multiset(s)
    ensures |r| == |s|
  {
    if s == [] then []
    else
      assert s == [s[0]] + s[1..];
      Insert(s[0], Sort(s[1..], key), key)
  }

  /** The elements of s that satisfy p, in their order in s. */
  function Filter<T(!new)>(s: seq<T>, p: T -> bool): (r: seq<T>)
    ensures forall x :: multiset(r)[x] == if p(x) then multiset(s)[x] else 0
    ensures forall k :: 0 <= k < |r| ==> p(r[k])
  {
    if s == [] then []
    else
      assert s == [s[0]] + s[1..];
      var rest := Filter(s[1..], p);
      if p(s[0]) then [s[0]] + rest else rest
  }

  /** MongoDB's `limit(n)`: zero means no limit, a negative n returns at most
      |n| documents (in a single batch). */
  function Limit<T>(s: seq<T>, n: int): (r: seq<T>)
    ensures |r| == if n == 0 || |s| <= Abs(n) then |s| else Abs(n)
    ensures r == s[..|r|]
  {
    if n == 0 || |s| <= Abs(n) then s else s[..Abs(n)]
  }

  function Abs(n: int): nat {
    if n < 0 then -n else n
  }

  /** Each element of s once, in order of first occurrence. */
  function Distinct<T(==,!new)>(s: seq<T>): (r: seq<T>)
    ensures forall i, j :: 0 <= i < j < |r| ==> r[i] != r[j]
    ensures forall x :: x in r <==> x in s
  {
    if s == [] then []
    else
      var rest := Distinct(s[..|s| - 1]);
      assert s == s[..|s| - 1] + [s[|s| - 1]];
      if s[|s| - 1] in rest then rest else rest + [s[|s| - 1]]
  }

  /** A sequence without repeats is its own `Distinct`. */
  lemma {:induction false} DistinctOfDistinct<T(!new)>(s: seq<T>)
    requires forall i, j :: 0 <= i < j < |s| ==> s[i] != s[j]
    ensures Distinct(s) == s
  {
    if s != [] {
      var p := s[..|s| - 1];
      DistinctOfDistinct(p);
      assert s[|s| - 1] !in p by {
        forall k | 0 <= k < |p|
          ensures p[k] != s[|s| - 1]
        {
          assert p[k] == s[k];
        }
      }
      assert s == p + [s[|s| - 1]];
    }
  }

  /** A sorted sequence is left as it is: the sort is stable. */
  lemma {:induction false} SortOfSorted<T>(s: seq<T>, key: T -> int)
    requires SortedBy(s, key)
    ensures Sort(s, key) == s
  {
    if s != [] {
      assert SortedBy(s[1..], key);
      SortOfSorted(s[1..], key);
      if |s| == 1 {
        assert Sort(s, key) == Insert(s[0], [], key) == [s[0]];
      } else {
        assert key(s[0]) <= key(s[1]);
        assert Sort(s, key) == Insert(s[0], s[1..], key) == [s[0]] + s[1..];
      }
      assert [s[0]] + s[1..] == s;
    }
  }

  /** Filtering keeps a sorted sequence sorted. */
  lemma {:induction false} FilterOfSorted<T(!new)>(s: seq<T>, p: T -> bool, key: T -> int)
    requires SortedBy(s, key)
    ensures SortedBy(Filter(s, p), key)
  {
    if s != [] {
      FilterOfSorted(s[1..], p, key);
      var rest := Filter(s[1..], p);
      assert forall k :: 0 <= k < |rest| ==> rest[k] in multiset(s[1..]);
    }
  }

  /** The query-then-sort of a `find(...).sort(...)`: sorted, exactly the
      matching elements, each as often as in s. */
  lemma FilterThenSort<T(!new)>(s: seq<T>, p: T -> bool, key: T -> int)
    ensures SortedBy(Sort(Filter(s, p), key), key)
    ensures forall x :: multiset(Sort(Filter(s, p), key))[x] == if p(x) then multiset(s)[x] else 0
    ensures forall x :: x in Sort(Filter(s, p), key) <==> x in s && p(x)
  {
    var r := Sort(Filter(s, p), key);
    forall x
      ensures x in r <==> x in s && p(x)
    {
      assert x in r <==> x in multiset(r);
      assert x in s <==> x in multiset(s);
    }
  }

  /** A prefix of a sequence is a sub-multiset of it, and every element left
      over comes later in the sequence. */
  lemma PrefixSplit<T>(s: seq<T>, n: nat)
    requires n <= |s|
    ensures multiset(s) == multiset(s[..n]) + multiset(s[n..])
  {
    assert s == s[..n] + s[n..];
  }

  /** In a sorted sequence, nothing after position m has a key below one
      before it. */
  lemma SuffixNoEarlier<T>(s: seq<T>, m: nat, key: T -> int)
    requires SortedBy(s, key) && m <= |s|
    ensures forall x, k :: x in s[m..] && 0 <= k < m ==> key(s[k]) <= key(x)
  {
    forall x, k | x in s[m..] && 0 <= k < m
      ensures key(s[k]) <= key(x)
    {
      var j :| 0 <= j < |s| - m && s[m..][j] == x;
      assert s[m + j] == x;
    }
  }

  /** Limiting a sorted sequence keeps it sorted, takes a sub-multiset, and
      leaves out only elements whose keys are at least those kept. */
  lemma LimitOfSorted<T>(s: seq<T>, n: int, key: T -> int)
    requires SortedBy(s, key)
    ensures SortedBy(Limit(s, n), key)
    ensures multiset(Limit(s, n)) <= multiset(s)
    ensures forall x, k :: x in multiset(s) - multiset(Limit(s, n)) && 0 <= k < |Limit(s, n)| ==>
      key(Limit(s, n)[k]) <= key(x)
  {
    var r := Limit(s, n);
    var m := |r|;
    PrefixSplit(s, m);
    SuffixNoEarlier(s, m, key);
    assert multiset(s) - multiset(r) == multiset(s[m..]);
    forall x, k | x in multiset(s) - multiset(r) && 0 <= k < m
      ensures key(r[k]) <= key(x)
    {
      assert x in s[m..];
      assert r[k] == s[k];
    }
  }
}
