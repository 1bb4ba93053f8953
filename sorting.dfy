/**
 * Stable sorting, filtering and prefix-taking over sequences.
 *
 * Python's `list.sort`/`sorted` (also with `reverse=True`) and the
 * database's ORDER BY are stable sorts by a key; the model sorts by a total
 * preorder `le` ("may come before"), with insertion sort as the reference
 * definition, and proves it sorted, a permutation and stable.
 */
module Sorting {

  /**
   * `le` is total and transitive, so it orders any sequence.
   */
  ghost predicate TotalPreorder<T(!new)>(le: (T, T) -> bool) {
    (forall a, b :: le(a, b) || le(b, a)) &&
    (forall a, b, c :: le(a, b) && le(b, c) ==> le(a, c))
  }

  ghost predicate SortedBy<T>(s: seq<T>, le: (T, T) -> bool) {
    forall i, j :: 0 <= i < j < |s| ==> le(s[i], s[j])
  }

  /** Inserts `x` into `t` after every element that may come before it. */
  function Insert<T>(x: T, t: seq<T>, le: (T, T) -> bool): (r: seq<T>)
    ensures |r| == |t| + 1
    ensures multiset(r) == multiset(t) + multiset{x}
  {
    if t == [] then [x]
    else if le(t[0], x) then
      assert t == [t[0]] + t[1..];
      [t[0]] + Insert(x, t[1..], le)
    else [x] + t
  }

  /** Stable insertion sort: each element is inserted after its equals. */
  function SortBy<T>(s: seq<T>, le: (T, T) -> bool): (r: seq<T>)
    ensures |r| == |s|
    ensures multiset(r) == multiset(s)
  {
    if s == [] then []
    else
      assert s == s[..|s| - 1] + [s[|s| - 1]];
      Insert(s[|s| - 1], SortBy(s[..|s| - 1], le), le)
  }

  lemma {:induction false} InsertSorted<T(!new)>(x: T, t: seq<T>, le: (T, T) -> bool)
    requires TotalPreorder(le) && SortedBy(t, le)
    ensures SortedBy(Insert(x, t, le), le)
  {
    if t != [] {
      if le(t[0], x) {
        var rest := Insert(x, t[1..], le);
        InsertSorted(x, t[1..], le);
        forall y | y in rest ensures le(t[0], y) {
          assert y in multiset(rest);
          assert y == x || y in multiset(t[1..]);
        }
        var r := [t[0]] + rest;
        forall i, j | 0 <= i < j < |r| ensures le(r[i], r[j]) {
          if i == 0 {
            assert r[j] in rest;
          } else {
            assert r[i] == rest[i - 1] && r[j] == rest[j - 1];
          }
        }
      } else {
        assert le(x, t[0]);
      }
    }
  }

  /** The insertion sort orders its input by `le`. */
  lemma {:induction false} SortBySorted<T(!new)>(s: seq<T>, le: (T, T) -> bool)
    requires TotalPreorder(le)
    ensures SortedBy(SortBy(s, le), le)
  {
    if s != [] {
      SortBySorted(s[..|s| - 1], le);
      InsertSorted(s[|s| - 1], SortBy(s[..|s| - 1], le), le);
    }
  }

  /** The elements of `s` that satisfy `p`, in their order in `s`. */
  function Filter<T>(s: seq<T>, p: T -> bool): (r: seq<T>)
    ensures |r| <= |s|
    ensures forall i :: 0 <= i < |r| ==> p(r[i])
  {
    if s == [] then []
    else
      (if p(s[0]) then [s[0]] else []) + Filter(s[1..], p)
  }

  lemma FilterCons<T>(a: T, s: seq<T>, p: T -> bool)
    ensures Filter([a] + s, p) == (if p(a) then [a] else []) + Filter(s, p)
  {
    assert ([a] + s)[1..] == s;
  }

  lemma {:induction false} FilterAppend<T>(a: seq<T>, b: seq<T>, p: T -> bool)
    ensures Filter(a + b, p) == Filter(a, p) + Filter(b, p)
  {
    if a != [] {
      var h := if p(a[0]) then [a[0]] else [];
      calc {
        Filter(a + b, p);
        { assert a + b == [a[0]] + (a[1..] + b); }
        Filter([a[0]] + (a[1..] + b), p);
        { FilterCons(a[0], a[1..] + b, p); }
        h + Filter(a[1..] + b, p);
        { FilterAppend(a[1..], b, p); }
        h + (Filter(a[1..], p) + Filter(b, p));
        (h + Filter(a[1..], p)) + Filter(b, p);
        { FilterCons(a[0], a[1..], p); assert [a[0]] + a[1..] == a; }
        Filter(a, p) + Filter(b, p);
      }
    } else {
      assert a + b == b;
    }
  }

  lemma {:induction false} FilterNone<T>(s: seq<T>, p: T -> bool)
    requires forall k :: 0 <= k < |s| ==> !p(s[k])
    ensures Filter(s, p) == []
  {
    if s != [] {
      FilterNone(s[1..], p);
    }
  }

  /** Python's `any(p(x) for x in s)`, scanning from the front. */
  function Any<T>(s: seq<T>, p: T -> bool): (b: bool)
    ensures b <==> exists i :: 0 <= i < |s| && p(s[i])
  {
    if s == [] then false
    else
      assert forall i :: 1 <= i < |s| ==> s[i] == s[1..][i - 1];
      p(s[0]) || Any(s[1..], p)
  }

  /** An element the condition rejects makes the filtered sequence shorter. */
  lemma {:induction false} FilterShorter<T>(s: seq<T>, p: T -> bool, x: T)
    requires x in s && !p(x)
    ensures |Filter(s, p)| < |s|
  {
    if s[0] != x {
      assert x in s[1..];
      FilterShorter(s[1..], p, x);
    }
  }

  /** Every element of `s` satisfying `p` survives the filter. */
  lemma {:induction false} FilterKeeps<T>(s: seq<T>, p: T -> bool, x: T)
    requires x in s && p(x)
    ensures x in Filter(s, p)
  {
    if s[0] != x {
      assert x in s[1..];
      FilterKeeps(s[1..], p, x);
    }
  }

  /** A filtered element comes from the input and satisfies the condition. */
  lemma {:induction false} FilterMember<T>(s: seq<T>, p: T -> bool, x: T)
    requires x in Filter(s, p)
    ensures x in s && p(x)
  {
    if s != [] && !(p(s[0]) && x == s[0]) {
      FilterMember(s[1..], p, x);
    }
  }

  /** The head of a sorted sequence may precede every element of it. */
  lemma SortedHeadFirst<T(!new)>(t: seq<T>, le: (T, T) -> bool, k: nat)
    requires TotalPreorder(le) && SortedBy(t, le) && k < |t|
    ensures le(t[0], t[k])
  {
  }

  /** In a sorted `t` whose head may not precede `x`, nothing equivalent to `x` occurs. */
  lemma NoEquivalentAfter<T(!new)>(x: T, t: seq<T>, le: (T, T) -> bool, p: T -> bool)
    requires TotalPreorder(le) && SortedBy(t, le)
    requires forall a, b :: p(a) && p(b) ==> le(a, b)
    requires t != [] && !le(t[0], x) && p(x)
    ensures forall k :: 0 <= k < |t| ==> !p(t[k])
  {
    forall k | 0 <= k < |t| ensures !p(t[k]) {
      SortedHeadFirst(t, le, k);
    }
  }

  lemma {:induction false} InsertStable<T(!new)>(x: T, t: seq<T>, le: (T, T) -> bool, p: T -> bool)
    requires TotalPreorder(le) && SortedBy(t, le)
    requires forall a, b :: p(a) && p(b) ==> le(a, b)
    ensures Filter(Insert(x, t, le), p) == Filter(t, p) + (if p(x) then [x] else [])
  {
    var tail: seq<T> := if p(x) then [x] else [];
    if t == [] {
      FilterCons(x, [], p);
      assert [x] == [x] + [];
    } else if le(t[0], x) {
      var h: seq<T> := if p(t[0]) then [t[0]] else [];
      assert SortedBy(t[1..], le);
      calc {
        Filter(Insert(x, t, le), p);
        Filter([t[0]] + Insert(x, t[1..], le), p);
        { FilterCons(t[0], Insert(x, t[1..], le), p); }
        h + Filter(Insert(x, t[1..], le), p);
        { InsertStable(x, t[1..], le, p); }
        h + (Filter(t[1..], p) + tail);
        (h + Filter(t[1..], p)) + tail;
        { FilterCons(t[0], t[1..], p); assert [t[0]] + t[1..] == t; }
        Filter(t, p) + tail;
      }
    } else {
      InsertFirstStable(x, t, le, p);
    }
  }

  lemma InsertFirstStable<T(!new)>(x: T, t: seq<T>, le: (T, T) -> bool, p: T -> bool)
    requires TotalPreorder(le) && SortedBy(t, le)
    requires forall a, b :: p(a) && p(b) ==> le(a, b)
    requires t != [] && !le(t[0], x)
    ensures Filter([x] + t, p) == Filter(t, p) + (if p(x) then [x] else [])
  {
    FilterCons(x, t, p);
    if p(x) {
      NoEquivalentAfter(x, t, le, p);
      FilterNone(t, p);
    } else {
      assert [] + Filter(t, p) == Filter(t, p) + [];
    }
  }

  /**
   * Stability: the elements of one class of mutually equivalent elements
   * appear in the sorted output in the order they had in the input.
   */
  lemma {:induction false} SortByStable<T(!new)>(s: seq<T>, le: (T, T) -> bool, p: T -> bool)
    requires TotalPreorder(le)
    requires forall a, b :: p(a) && p(b) ==> le(a, b)
    ensures Filter(SortBy(s, le), p) == Filter(s, p)
  {
    if s != [] {
      var init, last := s[..|s| - 1], s[|s| - 1];
      var tail: seq<T> := if p(last) then [last] else [];
      calc {
        Filter(SortBy(s, le), p);
        Filter(Insert(last, SortBy(init, le), le), p);
        { SortBySorted(init, le); InsertStable(last, SortBy(init, le), le, p); }
        Filter(SortBy(init, le), p) + tail;
        { SortByStable(init, le, p); }
        Filter(init, p) + tail;
        { FilterCons(last, [], p); assert [last] + [] == [last]; }
        Filter(init, p) + Filter([last], p);
        { FilterAppend(init, [last], p); }
        Filter(init + [last], p);
        { assert init + [last] == s; }
        Filter(s, p);
      }
    }
  }

  /** An element of a reordering is an element of the original. */
  lemma Found<T>(a: seq<T>, b: seq<T>, g: nat) returns (k: nat)
    requires multiset(a) == multiset(b) && g < |b|
    ensures k < |a| && a[k] == b[g]
  {
    assert b[g] in multiset(a);
    k :| 0 <= k < |a| && a[k] == b[g];
  }

  /** No two elements share a key. */
  ghost predicate DistinctBy<T, K>(s: seq<T>, key: T -> K) {
    forall i, j :: 0 <= i < j < |s| ==> key(s[i]) != key(s[j])
  }

  lemma {:induction false} InsertDistinct<T, K>(x: T, t: seq<T>, le: (T, T) -> bool, key: T -> K)
    requires DistinctBy(t, key)
    requires forall k :: 0 <= k < |t| ==> key(t[k]) != key(x)
    ensures DistinctBy(Insert(x, t, le), key)
  {
    if t != [] && le(t[0], x) {
      var rest := Insert(x, t[1..], le);
      InsertDistinct(x, t[1..], le, key);
      forall k | 0 <= k < |rest| ensures key(rest[k]) != key(t[0]) {
        assert rest[k] in multiset(rest);
        if rest[k] != x {
          assert rest[k] in t[1..];
          var j :| 0 <= j < |t[1..]| && t[1..][j] == rest[k];
          assert t[j + 1] == rest[k];
        }
      }
      var r := [t[0]] + rest;
      forall g, h | 0 <= g < h < |r| ensures key(r[g]) != key(r[h]) {
        assert r[h] == rest[h - 1];
        if g > 0 {
          assert r[g] == rest[g - 1];
        }
      }
    } else if t != [] {
      var r := [x] + t;
      forall g, h | 0 <= g < h < |r| ensures key(r[g]) != key(r[h]) {
        assert r[h] == t[h - 1];
        if g > 0 {
          assert r[g] == t[g - 1];
        }
      }
    }
  }

  /** Sorting keeps keys distinct: it only reorders. */
  lemma {:induction false} SortByDistinct<T, K>(s: seq<T>, le: (T, T) -> bool, key: T -> K)
    requires DistinctBy(s, key)
    ensures DistinctBy(SortBy(s, le), key)
  {
    if s != [] {
      var init, last := s[..|s| - 1], s[|s| - 1];
      var sorted := SortBy(init, le);
      SortByDistinct(init, le, key);
      forall k | 0 <= k < |sorted| ensures key(sorted[k]) != key(last) {
        assert sorted[k] in multiset(sorted);
        var j :| 0 <= j < |init| && init[j] == sorted[k];
        assert s[j] == sorted[k];
      }
      InsertDistinct(last, sorted, le, key);
    }
  }

  /** Python's `s[:n]` for a non-negative `n`: at most the first `n` elements. */
  function Take<T>(s: seq<T>, n: nat): (r: seq<T>)
    ensures |r| <= n && r <= s
    ensures |r| == if n < |s| then n else |s|
  {
    if n < |s| then s[..n] else s
  }
}
