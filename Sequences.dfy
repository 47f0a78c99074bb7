/**
 * The query operators the stores are read with (Where, OrderBy, Take, FirstOrDefault),
 * written once over sequences and specified by what they select and in which order.
 */
module Sequences {
  import opened Wrappers

  /** `le` is a total preorder: what OrderBy needs of its key comparison. */
  ghost predicate TotalPreorder<T(!new)>(le: (T, T) -> bool) {
    && (forall a, b :: le(a, b) || le(b, a))
    && (forall a, b, c :: le(a, b) && le(b, c) ==> le(a, c))
  }

  /** Every element is ordered before every later element. */
  ghost predicate SortedBy<T>(s: seq<T>, le: (T, T) -> bool) {
    forall i, j :: 0 <= i < j < |s| ==> le(s[i], s[j])
  }

  /** In a sorted sequence, an element that may not precede another comes after it. */
  lemma SortedAfter<T>(s: seq<T>, le: (T, T) -> bool, a: nat, b: nat)
    requires SortedBy(s, le) && a < |s| && b < |s| && a != b && !le(s[b], s[a])
    ensures a < b
  {
  }

  /** Where: the elements satisfying `p`, in their original order. */
  function Filter<T(!new)>(s: seq<T>, p: T -> bool): (r: seq<T>)
    ensures |r| <= |s|
    ensures forall x :: x in r <==> x in s && p(x)
    ensures multiset(r) <= multiset(s)
    ensures forall i :: 0 <= i < |r| ==> p(r[i])
  {
    if s == [] then []
    else
      var rest := Filter(s[1..], p);
      assert s == [s[0]] + s[1..];
      if p(s[0]) then [s[0]] + rest else rest
  }

  /** Each element paired with its position, so a query result can name the rows it read. */
  function Indexed<T>(s: seq<T>): (r: seq<(nat, T)>)
    ensures |r| == |s|
    ensures forall i :: 0 <= i < |s| ==> r[i] == (i, s[i])
  {
    seq(|s|, i requires 0 <= i < |s| => (i, s[i]))
  }

  /** FirstOrDefault: the position of the first element satisfying `p`, if any. */
  function FirstIndex<T>(s: seq<T>, p: T -> bool): (r: Option<nat>)
    ensures r.Some? ==> r.value < |s| && p(s[r.value])
    ensures r.Some? ==> forall j :: 0 <= j < r.value ==> !p(s[j])
    ensures r.None? <==> forall j :: 0 <= j < |s| ==> !p(s[j])
  {
    if s == [] then None
    else if p(s[0]) then Some(0)
    else
      match FirstIndex(s[1..], p)
      case None => None
      case Some(k) => Some(k + 1)
  }

  /** Take: at most `n` leading elements; a negative count takes none. */
  function Take<T>(s: seq<T>, n: int): (r: seq<T>)
    ensures |r| == if n <= 0 then 0 else if n < |s| then n else |s|
    ensures r == s[..|r|]
  {
    if n <= 0 then [] else if n < |s| then s[..n] else s
  }

  function Insert<T(!new)>(x: T, s: seq<T>, le: (T, T) -> bool): (r: seq<T>)
    requires TotalPreorder(le) && SortedBy(s, le)
    ensures multiset(r) == multiset(s) + multiset{x}
    ensures |r| == |s| + 1
    ensures SortedBy(r, le)
  {
    if s == [] then [x]
    else if le(x, s[0]) then
      assert forall j :: 0 <= j < |s| ==> le(x, s[j]) by {
        forall j | 0 <= j < |s| ensures le(x, s[j]) {
          if j > 0 { assert le(s[0], s[j]); }
        }
      }
      [x] + s
    else
      assert s == [s[0]] + s[1..];
      var tail := Insert(x, s[1..], le);
      assert forall k :: 0 <= k < |tail| ==> le(s[0], tail[k]) by {
        forall k | 0 <= k < |tail| ensures le(s[0], tail[k]) {
          assert tail[k] in multiset(tail);
          if tail[k] != x {
            assert tail[k] in multiset(s[1..]);
            var m :| 0 <= m < |s[1..]| && s[1..][m] == tail[k];
            assert le(s[0], s[m + 1]);
          }
        }
      }
      var r := [s[0]] + tail;
      assert multiset(r) == multiset(s) + multiset{x} by {
        assert multiset(s) == multiset{s[0]} + multiset(s[1..]);
      }
      assert SortedBy(r, le) by {
        forall i, j | 0 <= i < j < |r| ensures le(r[i], r[j]) {
          assert r[j] == tail[j - 1];
          if i > 0 {
            assert r[i] == tail[i - 1];
          }
        }
      }
      r
  }

  /** OrderBy: a sorted permutation of `s` (insertion sort, so ties keep their order). */
  function SortBy<T(!new)>(s: seq<T>, le: (T, T) -> bool): (r: seq<T>)
    requires TotalPreorder(le)
    ensures multiset(r) == multiset(s)
    ensures |r| == |s|
    ensures SortedBy(r, le)
  {
    if s == [] then []
    else
      assert s == [s[0]] + s[1..];
      Insert(s[0], SortBy(s[1..], le), le)
  }

  /**
   * OrderBy then Take: the taken elements come from the input, are in order, and
   * none of the elements left behind is ordered strictly before any taken one.
   */
  lemma {:induction false} TakeOfSorted<T(!new)>(s: seq<T>, le: (T, T) -> bool, n: int)
    requires TotalPreorder(le)
    ensures var sorted := SortBy(s, le);
            var taken := Take(sorted, n);
            && multiset(taken) <= multiset(s)
            && SortedBy(taken, le)
            && (forall i, j :: 0 <= i < |taken| <= j < |sorted| ==> le(taken[i], sorted[j]))
  {
    var sorted := SortBy(s, le);
    var taken := Take(sorted, n);
    var rest := sorted[|taken|..];
    assert sorted == taken + rest;
    assert multiset(taken) <= multiset(s) by {
      assert multiset(sorted) == multiset(taken) + multiset(rest);
    }
    assert SortedBy(taken, le) by {
      forall i, j | 0 <= i < j < |taken| ensures le(taken[i], taken[j]) {
        assert taken[i] == sorted[i] && taken[j] == sorted[j];
      }
    }
    forall i, j | 0 <= i < |taken| <= j < |sorted| ensures le(taken[i], sorted[j]) {
      assert taken[i] == sorted[i];
    }
  }

  /**
   * Where, OrderBy, Take: the rows satisfying `p`, sorted by `le`, at most `n` of them.
   * Every row returned qualifies, and a qualifying row left out is ordered after every
   * row returned; when at most `n` rows qualify, all of them are returned.
   */
  function Query<T(!new)>(s: seq<T>, p: T -> bool, le: (T, T) -> bool, n: nat): (r: seq<T>)
    requires TotalPreorder(le)
    ensures |r| == if |Filter(s, p)| <= n then |Filter(s, p)| else n
    ensures |r| <= |s|
    ensures forall i :: 0 <= i < |r| ==> r[i] in s && p(r[i])
    ensures SortedBy(r, le)
    ensures multiset(r) <= multiset(Filter(s, p))
    ensures |Filter(s, p)| <= n ==> multiset(r) == multiset(Filter(s, p))
    ensures forall x :: x in s && p(x) && x !in r ==> forall i :: 0 <= i < |r| ==> le(r[i], x)
  {
    var candidates := Filter(s, p);
    var sorted := SortBy(candidates, le);
    var r := Take(sorted, n);
    TakeOfSorted(candidates, le, n);
    TakenQualify(s, p, candidates, r);
    LeftOutAfter(s, p, le, sorted, r);
    r
  }

  /** Elements drawn from the rows Where keeps are rows of `s` that satisfy `p`. */
  lemma TakenQualify<T(!new)>(s: seq<T>, p: T -> bool, candidates: seq<T>, r: seq<T>)
    requires candidates == Filter(s, p) && multiset(r) <= multiset(candidates)
    ensures forall i :: 0 <= i < |r| ==> r[i] in s && p(r[i])
  {
    forall i | 0 <= i < |r| ensures r[i] in s && p(r[i]) {
      assert r[i] in multiset(candidates);
      assert r[i] in candidates;
    }
  }

  /** A qualifying row missing from a sorted prefix sits after that prefix in the order. */
  lemma LeftOutAfter<T(!new)>(s: seq<T>, p: T -> bool, le: (T, T) -> bool, sorted: seq<T>, r: seq<T>)
    requires multiset(sorted) == multiset(Filter(s, p)) && |r| <= |sorted| && r == sorted[..|r|]
    requires forall i, j :: 0 <= i < |r| <= j < |sorted| ==> le(r[i], sorted[j])
    ensures forall x :: x in s && p(x) && x !in r ==> forall i :: 0 <= i < |r| ==> le(r[i], x)
  {
    forall x | x in s && p(x) && x !in r ensures forall i :: 0 <= i < |r| ==> le(r[i], x) {
      assert x in multiset(Filter(s, p));
      var j :| 0 <= j < |sorted| && sorted[j] == x;
      assert |r| <= j;
    }
  }

  /** When at most `n` elements qualify, the query returns every one of them. */
  lemma QueryKeepsAll<T(!new)>(s: seq<T>, p: T -> bool, le: (T, T) -> bool, n: nat)
    requires TotalPreorder(le) && |Filter(s, p)| <= n
    ensures forall x :: x in s && p(x) ==> x in Query(s, p, le, n)
  {
    var r := Query(s, p, le, n);
    forall x | x in s && p(x) ensures x in r {
      assert x in multiset(Filter(s, p));
    }
  }

  /** The rows Where keeps of an indexed sequence name their own positions, and are those satisfying `p`. */
  lemma IndexedFilter<T(!new)>(s: seq<T>, p: ((nat, T)) -> bool)
    ensures var r := Filter(Indexed(s), p);
            && (forall k :: 0 <= k < |r| ==> r[k].0 < |s| && s[r[k].0] == r[k].1)
            && (forall i :: 0 <= i < |s| ==> ((i, s[i]) in r <==> p((i, s[i]))))
  {
    var rows := Indexed(s);
    var r := Filter(rows, p);
    forall k | 0 <= k < |r| ensures r[k].0 < |s| && s[r[k].0] == r[k].1 {
      assert r[k] in rows;
    }
    forall i | 0 <= i < |s| ensures (i, s[i]) in r <==> p((i, s[i])) {
      assert rows[i] == (i, s[i]);
    }
  }
}
