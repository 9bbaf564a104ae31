/** The query operators the store's callers use: a filter that keeps storage
    order, an ascending sort by an integer key (descending sorts negate the key),
    and a result limit. */
module Sorting {

  /** `find(filter)`: the elements satisfying `keep`, in storage order. */
  function Filter<T>(s: seq<T>, keep: T -> bool): (r: seq<T>)
    ensures |r| <= |s|
    ensures forall i :: 0 <= i < |r| ==> keep(r[i])
    ensures multiset(r) <= multiset(s)
    decreases |s|
  {
    if |s| == 0 then []
    else
      assert s == [s[0]] + s[1..];
      (if keep(s[0]) then [s[0]] else []) + Filter(s[1..], keep)
  }

  /** An element is kept exactly when it is in the input and satisfies `keep`. */
  lemma {:induction false} FilterMembership<T>(s: seq<T>, keep: T -> bool, x: T)
    ensures x in Filter(s, keep) <==> x in s && keep(x)
    decreases |s|
  {
    if |s| > 0 {
      FilterMembership(s[1..], keep, x);
      assert s == [s[0]] + s[1..];
    }
  }

  /** Filtering distributes over concatenation, so storage order is kept. */
  lemma {:induction false} FilterAppend<T>(a: seq<T>, b: seq<T>, keep: T -> bool)
    ensures Filter(a + b, keep) == Filter(a, keep) + Filter(b, keep)
    decreases |a|
  {
    if |a| == 0 {
      assert a + b == b;
    } else {
      assert (a + b)[1..] == a[1..] + b;
      FilterAppend(a[1..], b, keep);
    }
  }

  /** Elements that all satisfy `keep` are all kept. */
  lemma {:induction false} FilterAll<T>(s: seq<T>, keep: T -> bool)
    requires forall i :: 0 <= i < |s| ==> keep(s[i])
    ensures Filter(s, keep) == s
    decreases |s|
  {
    if |s| > 0 {
      FilterAll(s[1..], keep);
    }
  }

  /** Elements none of which satisfies `keep` are all dropped. */
  lemma {:induction false} FilterNone<T>(s: seq<T>, keep: T -> bool)
    requires forall i :: 0 <= i < |s| ==> !keep(s[i])
    ensures Filter(s, keep) == []
    decreases |s|
  {
    if |s| > 0 {
      FilterNone(s[1..], keep);
    }
  }

  ghost predicate SortedBy<T>(s: seq<T>, key: T -> int) {
    forall i, j :: 0 <= i < j < |s| ==> key(s[i]) <= key(s[j])
  }

  /** Inserts `x` before the first element whose key is not smaller. */
  function Insert<T>(x: T, s: seq<T>, key: T -> int): (r: seq<T>)
    requires SortedBy(s, key)
    ensures SortedBy(r, key)
    ensures multiset(r) == multiset(s) + multiset{x}
    decreases |s|
  {
    if |s| == 0 then [x]
    else if key(x) <= key(s[0]) then [x] + s
    else
      var rest := Insert(x, s[1..], key);
      assert multiset(s) == multiset{s[0]} + multiset(s[1..]) by {
        assert s == [s[0]] + s[1..];
      }
      assert forall k :: 0 <= k < |rest| ==> key(s[0]) <= key(rest[k]) by {
        forall k | 0 <= k < |rest| ensures key(s[0]) <= key(rest[k]) {
          assert rest[k] in multiset(rest);
          assert rest[k] == x || rest[k] in multiset(s[1..]);
        }
      }
      [s[0]] + rest
  }

  /** `sort({key: 1})`: a permutation of the input in ascending key order.
      Elements with equal keys keep their storage order. */
  function SortBy<T>(s: seq<T>, key: T -> int): (r: seq<T>)
    ensures SortedBy(r, key)
    ensures multiset(r) == multiset(s)
    decreases |s|
  {
    if |s| == 0 then []
    else
      assert s == [s[0]] + s[1..];
      Insert(s[0], SortBy(s[1..], key), key)
  }

  /** Filtering keeps relative order: when the kept elements are already in
      key order in `s`, the result is sorted. */
  lemma {:induction false} FilterKeepsOrder<T>(s: seq<T>, keep: T -> bool, key: T -> int)
    requires forall i, j :: 0 <= i < j < |s| && keep(s[i]) && keep(s[j]) ==> key(s[i]) <= key(s[j])
    ensures SortedBy(Filter(s, keep), key)
    decreases |s|
  {
    if |s| > 0 {
      var tail := s[1..];
      FilterKeepsOrder(tail, keep, key);
      if keep(s[0]) {
        assert forall j :: 0 <= j < |tail| && keep(tail[j]) ==> key(s[0]) <= key(tail[j]) by {
          forall j | 0 <= j < |tail| && keep(tail[j]) ensures key(s[0]) <= key(tail[j]) {
            assert tail[j] == s[j + 1];
          }
        }
        FilterAbove(tail, keep, key, s[0]);
        assert Filter(s, keep) == [s[0]] + Filter(tail, keep);
      }
    }
  }

  /** A bound below every kept element of `s` is below every element of the
      result. */
  lemma FilterAbove<T>(s: seq<T>, keep: T -> bool, key: T -> int, x: T)
    requires forall j :: 0 <= j < |s| && keep(s[j]) ==> key(x) <= key(s[j])
    ensures forall k :: 0 <= k < |Filter(s, keep)| ==> key(x) <= key(Filter(s, keep)[k])
  {
    var r := Filter(s, keep);
    forall k | 0 <= k < |r| ensures key(x) <= key(r[k]) {
      FilterMembership(s, keep, r[k]);
    }
  }

  /** Sorting an already sorted sequence leaves it as it is. */
  lemma {:induction false} SortSortedIsIdentity<T>(s: seq<T>, key: T -> int)
    requires SortedBy(s, key)
    ensures SortBy(s, key) == s
    decreases |s|
  {
    if |s| > 0 {
      SortSortedIsIdentity(s[1..], key);
      assert s == [s[0]] + s[1..];
    }
  }

  /** An element of a sorted sequence that `limit(n)` drops comes after a
      full prefix of `n`, and its key is no smaller than the last one kept. */
  lemma LimitDropsOnlyLater<T>(s: seq<T>, key: T -> int, n: nat, x: T)
    requires SortedBy(s, key) && x in s && x !in Limit(s, n)
    ensures |Limit(s, n)| == n
    ensures n > 0 ==> key(Limit(s, n)[n - 1]) <= key(x)
  {
    var j :| 0 <= j < |s| && s[j] == x;
    var r := Limit(s, n);
    assert n <= j;
    if n > 0 {
      assert r[n - 1] == s[n - 1];
    }
  }

  /** Of the kept elements sorted by key, `limit(n)` keeps min(n, kept) and
      drops only elements whose key is no smaller than the last one kept. */
  lemma LimitOfSortedFilter<T>(s: seq<T>, keep: T -> bool, key: T -> int, n: nat)
    ensures var kept := Filter(s, keep);
            var r := Limit(SortBy(kept, key), n);
            |r| == (if |kept| <= n then |kept| else n) &&
            forall i :: 0 <= i < |s| && keep(s[i]) && s[i] !in r ==> |r| == n && (n > 0 ==> key(r[n - 1]) <= key(s[i]))
  {
    var kept := Filter(s, keep);
    var sorted := SortBy(kept, key);
    assert |sorted| == |kept| by {
      assert |multiset(sorted)| == |multiset(kept)|;
    }
    forall i | 0 <= i < |s| && keep(s[i]) && s[i] !in Limit(sorted, n)
      ensures |Limit(sorted, n)| == n && (n > 0 ==> key(Limit(sorted, n)[n - 1]) <= key(s[i]))
    {
      FilterMembership(s, keep, s[i]);
      assert s[i] in multiset(sorted);
      LimitDropsOnlyLater(sorted, key, n, s[i]);
    }
  }

  /** `limit(n)`: the first `n` elements, or all of them if there are fewer. */
  function Limit<T>(s: seq<T>, n: nat): (r: seq<T>)
    ensures |r| == if |s| <= n then |s| else n
    ensures r <= s
  {
    if |s| <= n then s else s[..n]
  }
}
