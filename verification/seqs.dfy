/**
 * Sequence operations the front end takes from `Array.prototype`:
 * `filter`, `slice` (with JavaScript's negative-index rules) and the stable
 * `sort` that ECMAScript 2019 requires, here an insertion sort driven by a
 * "less than or equal" relation derived from the comparator.
 */
module Seqs {

  /** `s.filter(p)` */
  function Filter<T>(s: seq<T>, p: T -> bool): (r: seq<T>)
    ensures |r| <= |s|
    ensures forall i :: 0 <= i < |r| ==> p(r[i])
    decreases |s|
  {
    if |s| == 0 then []
    else if p(s[0]) then [s[0]] + Filter(s[1..], p)
    else Filter(s[1..], p)
  }

  lemma {:induction false} FilterConcat<T>(a: seq<T>, b: seq<T>, p: T -> bool)
    ensures Filter(a + b, p) == Filter(a, p) + Filter(b, p)
    decreases |a|
  {
    if |a| > 0 {
      FilterConcat(a[1..], b, p);
      assert (a + b)[1..] == a[1..] + b;
    } else {
      assert a + b == b;
    }
  }

  /** An element survives the filter exactly when it is in the input and passes. */
  /** Filtering twice is filtering once by both tests; `pq` is their conjunction. */
  lemma {:induction false} FilterFilter<T>(s: seq<T>, p: T -> bool, q: T -> bool, pq: T -> bool)
    requires forall x :: pq(x) == (p(x) && q(x))
    ensures Filter(Filter(s, p), q) == Filter(s, pq)
    decreases |s|
  {
    if |s| > 0 {
      FilterFilter(s[1..], p, q, pq);
      if p(s[0]) {
        assert ([s[0]] + Filter(s[1..], p))[1..] == Filter(s[1..], p);
      }
    }
  }

  lemma {:induction false} FilterMember<T>(s: seq<T>, p: T -> bool, x: T)
    ensures x in Filter(s, p) <==> x in s && p(x)
    decreases |s|
  {
    if |s| > 0 {
      FilterMember(s[1..], p, x);
      assert x in s <==> x == s[0] || x in s[1..];
    }
  }

  lemma FilterMembers<T>(s: seq<T>, p: T -> bool)
    ensures forall x :: x in Filter(s, p) <==> x in s && p(x)
  {
    forall x ensures x in Filter(s, p) <==> x in s && p(x) {
      FilterMember(s, p, x);
    }
  }

  /** Filtering a non-empty sequence: the filtered front, then the last element if it passes. */
  lemma FilterLast<T>(s: seq<T>, p: T -> bool)
    requires |s| > 0
    ensures Filter(s, p) == Filter(s[..|s| - 1], p) + (if p(s[|s| - 1]) then [s[|s| - 1]] else [])
  {
    var x := s[|s| - 1];
    assert s == s[..|s| - 1] + [x];
    FilterConcat(s[..|s| - 1], [x], p);
    assert [x][1..] == [];
  }

  /** Filtering out the one element that fails, between two runs that pass. */
  lemma FilterDropsOne<T>(a: seq<T>, x: T, b: seq<T>, p: T -> bool)
    requires Filter(a, p) == a && Filter(b, p) == b && !p(x)
    ensures Filter(a + [x] + b, p) == a + b
  {
    FilterConcat(a + [x], b, p);
    FilterLast(a + [x], p);
    assert (a + [x])[..|a|] == a;
  }

  /** Filtering keeps everything exactly when every element passes. */
  lemma {:induction false} FilterAll<T>(s: seq<T>, p: T -> bool)
    ensures Filter(s, p) == s <==> forall i :: 0 <= i < |s| ==> p(s[i])
    decreases |s|
  {
    if |s| > 0 {
      FilterAll(s[1..], p);
      if p(s[0]) {
        assert s == [s[0]] + s[1..];
        if Filter(s, p) == s {
          assert Filter(s[1..], p) == s[1..];
        }
        assert (forall i :: 0 <= i < |s| ==> p(s[i])) <==> (forall i :: 0 <= i < |s[1..]| ==> p(s[1..][i]));
      } else {
        assert |Filter(s[1..], p)| <= |s[1..]| < |s|;
      }
    }
  }

  /** The number of elements satisfying `p`. */
  function Count<T>(s: seq<T>, p: T -> bool): (n: nat)
    ensures n == |Filter(s, p)|
    decreases |s|
  {
    if |s| == 0 then 0 else (if p(s[0]) then 1 else 0) + Count(s[1..], p)
  }

  lemma CountConcat<T>(a: seq<T>, b: seq<T>, p: T -> bool)
    ensures Count(a + b, p) == Count(a, p) + Count(b, p)
  {
    FilterConcat(a, b, p);
  }

  /** Permuted sequences have equally many elements satisfying `p`. */
  lemma {:induction false} CountPermutes<T>(a: seq<T>, b: seq<T>, p: T -> bool)
    requires multiset(a) == multiset(b)
    ensures Count(a, p) == Count(b, p)
    decreases |a|
  {
    if |a| == 0 {
      assert |b| == |multiset(b)| == 0;
    } else {
      assert a[0] in multiset(b);
      var j :| 0 <= j < |b| && b[j] == a[0];
      PermRemove(a, b, j);
      CountPermutes(a[1..], b[..j] + b[j + 1..], p);
      assert b == b[..j] + ([b[j]] + b[j + 1..]);
      CountConcat(b[..j], [b[j]] + b[j + 1..], p);
      CountConcat([b[j]], b[j + 1..], p);
      CountConcat(b[..j], b[j + 1..], p);
      assert a == [a[0]] + a[1..];
      CountConcat([a[0]], a[1..], p);
    }
  }

  /** JavaScript's reading of one `slice` bound against a length. */
  function SliceBound(i: int, len: nat): (r: nat)
    ensures r <= len
    ensures 0 <= i <= len ==> r == i
  {
    if i < 0 then (if len + i < 0 then 0 else len + i) else if i > len then len else i
  }

  /** `s.slice(start, end)` */
  function Slice<T>(s: seq<T>, start: int, end: int): (r: seq<T>)
    ensures |r| <= |s|
    ensures 0 <= start <= end <= |s| ==> r == s[start..end]
    ensures 0 <= start && 0 <= end ==> |r| <= if end <= start then 0 else end - start
    ensures forall i :: 0 <= i < |r| ==> r[i] in s
  {
    var a := SliceBound(start, |s|);
    var b := SliceBound(end, |s|);
    if a >= b then [] else s[a..b]
  }

  /** `s.slice(0, n)` for a non-negative count. */
  function Take<T>(s: seq<T>, n: nat): (r: seq<T>)
    ensures |r| == if n < |s| then n else |s|
    ensures r <= s
  {
    if n < |s| then s[..n] else s
  }

  /** Removing matching elements from two permutations leaves permutations. */
  lemma PermRemove<T>(a: seq<T>, b: seq<T>, j: int)
    requires |a| > 0 && 0 <= j < |b| && b[j] == a[0]
    requires multiset(a) == multiset(b)
    ensures multiset(a[1..]) == multiset(b[..j] + b[j + 1..])
  {
    assert a == [a[0]] + a[1..];
    assert b == b[..j] + [b[j]] + b[j + 1..];
    calc {
      multiset(a[1..]);
      multiset(a) - multiset{a[0]};
      multiset(b) - multiset{b[j]};
      multiset(b[..j]) + multiset(b[j + 1..]);
      multiset(b[..j] + b[j + 1..]);
    }
  }

  /** The relation is total and transitive: `x <= y` for a well-behaved comparator. */
  ghost predicate TotalPreorder<T(!new)>(le: (T, T) -> bool) {
    && (forall a, b :: le(a, b) || le(b, a))
    && (forall a, b, c :: le(a, b) && le(b, c) ==> le(a, c))
  }

  ghost predicate Sorted<T>(s: seq<T>, le: (T, T) -> bool) {
    forall i, j :: 0 <= i < j < |s| ==> le(s[i], s[j])
  }

  /** Places `x` after every leading element that is `le` it. */
  function Insert<T>(x: T, s: seq<T>, le: (T, T) -> bool): (r: seq<T>)
    ensures |r| == |s| + 1
    decreases |s|
  {
    if |s| == 0 then [x]
    else if le(s[0], x) then [s[0]] + Insert(x, s[1..], le)
    else [x] + s
  }

  lemma {:induction false} InsertPermutes<T>(x: T, s: seq<T>, le: (T, T) -> bool)
    ensures multiset(Insert(x, s, le)) == multiset(s) + multiset{x}
    decreases |s|
  {
    if |s| > 0 && le(s[0], x) {
      InsertPermutes(x, s[1..], le);
      assert s == [s[0]] + s[1..];
    }
  }

  /** Stable sort: each element is inserted after the equal ones already placed. */
  function SortBy<T>(s: seq<T>, le: (T, T) -> bool): (r: seq<T>)
    ensures |r| == |s|
    decreases |s|
  {
    if |s| == 0 then [] else Insert(s[|s| - 1], SortBy(s[..|s| - 1], le), le)
  }

  /** Sorting returns a permutation of its input. */
  lemma {:induction false} SortByPermutes<T>(s: seq<T>, le: (T, T) -> bool)
    ensures multiset(SortBy(s, le)) == multiset(s)
    decreases |s|
  {
    if |s| > 0 {
      var init := s[..|s| - 1];
      assert s == init + [s[|s| - 1]];
      SortByPermutes(init, le);
      InsertPermutes(s[|s| - 1], SortBy(init, le), le);
    }
  }

  /** Every element of `Insert(x, s)` is above a bound that `x` and all of `s` are above. */
  lemma InsertAbove<T>(x: T, s: seq<T>, le: (T, T) -> bool, lo: T)
    requires le(lo, x)
    requires forall j :: 0 <= j < |s| ==> le(lo, s[j])
    ensures forall j :: 0 <= j < |Insert(x, s, le)| ==> le(lo, Insert(x, s, le)[j])
  {
    var r := Insert(x, s, le);
    InsertPermutes(x, s, le);
    forall j | 0 <= j < |r|
      ensures le(lo, r[j])
    {
      assert r[j] in multiset(r);
      if r[j] != x {
        assert r[j] in multiset(s);
        var k :| 0 <= k < |s| && s[k] == r[j];
      }
    }
  }

  lemma {:induction false} InsertSorted<T(!new)>(x: T, s: seq<T>, le: (T, T) -> bool)
    requires TotalPreorder(le)
    requires Sorted(s, le)
    ensures Sorted(Insert(x, s, le), le)
    decreases |s|
  {
    if |s| > 0 {
      if le(s[0], x) {
        var rest := Insert(x, s[1..], le);
        assert Insert(x, s, le) == [s[0]] + rest;
        InsertSorted(x, s[1..], le);
        InsertAbove(x, s[1..], le, s[0]);
      } else {
        forall j | 0 <= j < |s|
          ensures le(x, s[j])
        {
          assert le(s[0], s[j]) || j == 0;
        }
      }
    }
  }

  lemma {:induction false} SortBySorted<T(!new)>(s: seq<T>, le: (T, T) -> bool)
    requires TotalPreorder(le)
    ensures Sorted(SortBy(s, le), le)
    decreases |s|
  {
    if |s| > 0 {
      SortBySorted(s[..|s| - 1], le);
      InsertSorted(s[|s| - 1], SortBy(s[..|s| - 1], le), le);
    }
  }

  /** Neither element is ordered before the other. */
  predicate Equiv<T>(a: T, b: T, le: (T, T) -> bool) {
    le(a, b) && le(b, a)
  }

  /** The elements tied with `t`, in their order of appearance. */
  function Equivalents<T>(s: seq<T>, t: T, le: (T, T) -> bool): seq<T>
    decreases |s|
  {
    if |s| == 0 then []
    else (if Equiv(s[0], t, le) then [s[0]] else []) + Equivalents(s[1..], t, le)
  }

  lemma {:induction false} EquivalentsConcat<T>(a: seq<T>, b: seq<T>, t: T, le: (T, T) -> bool)
    ensures Equivalents(a + b, t, le) == Equivalents(a, t, le) + Equivalents(b, t, le)
    decreases |a|
  {
    if |a| > 0 {
      EquivalentsConcat(a[1..], b, t, le);
      assert (a + b)[1..] == a[1..] + b;
    } else {
      assert a + b == b;
    }
  }

  lemma {:induction false} EquivalentsNone<T>(s: seq<T>, t: T, le: (T, T) -> bool)
    requires forall i :: 0 <= i < |s| ==> !Equiv(s[i], t, le)
    ensures Equivalents(s, t, le) == []
    decreases |s|
  {
    if |s| > 0 {
      EquivalentsNone(s[1..], t, le);
    }
  }

  lemma EquivalentsSingle<T>(x: T, t: T, le: (T, T) -> bool)
    ensures Equivalents([x], t, le) == if Equiv(x, t, le) then [x] else []
  {
    assert [x][1..] == [];
  }

  /** A sorted sequence whose head is strictly after `x` holds nothing tied with a tie of `x`. */
  lemma NoTiesAfter<T(!new)>(x: T, s: seq<T>, t: T, le: (T, T) -> bool)
    requires TotalPreorder(le)
    requires Sorted(s, le)
    requires |s| > 0 && !le(s[0], x)
    requires Equiv(x, t, le)
    ensures forall i :: 0 <= i < |s| ==> !Equiv(s[i], t, le)
  {
    forall i | 0 <= i < |s|
      ensures !Equiv(s[i], t, le)
    {
      if i > 0 {
        assert le(s[0], s[i]);
      }
    }
  }

  lemma InsertEquivalentsFront<T(!new)>(x: T, s: seq<T>, t: T, le: (T, T) -> bool)
    requires |s| > 0 && !le(s[0], x)
    requires Equiv(x, t, le) ==> Equivalents(s, t, le) == []
    ensures Equivalents(Insert(x, s, le), t, le)
         == Equivalents(s, t, le) + (if Equiv(x, t, le) then [x] else [])
  {
    assert Insert(x, s, le) == [x] + s;
    EquivalentsConcat([x], s, t, le);
    EquivalentsSingle(x, t, le);
  }

  lemma InsertEquivalentsStep<T>(x: T, s: seq<T>, rest: seq<T>, t: T, le: (T, T) -> bool)
    requires |s| > 0
    requires Equivalents(rest, t, le)
          == Equivalents(s[1..], t, le) + (if Equiv(x, t, le) then [x] else [])
    ensures Equivalents([s[0]] + rest, t, le)
         == Equivalents(s, t, le) + (if Equiv(x, t, le) then [x] else [])
  {
    assert s == [s[0]] + s[1..];
    EquivalentsConcat([s[0]], rest, t, le);
    EquivalentsConcat([s[0]], s[1..], t, le);
  }

  lemma {:induction false} InsertEquivalents<T(!new)>(x: T, s: seq<T>, t: T, le: (T, T) -> bool)
    requires TotalPreorder(le)
    requires Sorted(s, le)
    ensures Equivalents(Insert(x, s, le), t, le)
         == Equivalents(s, t, le) + (if Equiv(x, t, le) then [x] else [])
    decreases |s|
  {
    if |s| == 0 {
      EquivalentsSingle(x, t, le);
    } else if le(s[0], x) {
      assert Sorted(s[1..], le);
      InsertEquivalents(x, s[1..], t, le);
      InsertEquivalentsStep(x, s, Insert(x, s[1..], le), t, le);
    } else {
      if Equiv(x, t, le) {
        NoTiesAfter(x, s, t, le);
        EquivalentsNone(s, t, le);
      }
      InsertEquivalentsFront(x, s, t, le);
    }
  }

  /**
   * Stability: for every element `t`, the elements tied with `t` appear in
   * the sorted output in the same order as in the input.
   */
  lemma {:induction false} SortByStable<T(!new)>(s: seq<T>, t: T, le: (T, T) -> bool)
    requires TotalPreorder(le)
    ensures Equivalents(SortBy(s, le), t, le) == Equivalents(s, t, le)
    decreases |s|
  {
    if |s| > 0 {
      var init := s[..|s| - 1];
      var x := s[|s| - 1];
      SortByStable(init, t, le);
      SortBySorted(init, le);
      InsertEquivalents(x, SortBy(init, le), t, le);
      StableStep(x, init, SortBy(init, le), Insert(x, SortBy(init, le), le), t, le);
      assert init + [x] == s;
    }
  }

  lemma StableStep<T>(x: T, init: seq<T>, sorted: seq<T>, ins: seq<T>, t: T, le: (T, T) -> bool)
    requires Equivalents(sorted, t, le) == Equivalents(init, t, le)
    requires Equivalents(ins, t, le)
          == Equivalents(sorted, t, le) + (if Equiv(x, t, le) then [x] else [])
    ensures Equivalents(ins, t, le) == Equivalents(init + [x], t, le)
  {
    EquivalentsConcat(init, [x], t, le);
    EquivalentsSingle(x, t, le);
  }

  /** A sequence that is already sorted is left unchanged. */
  lemma {:induction false} SortBySortedIdentity<T(!new)>(s: seq<T>, le: (T, T) -> bool)
    requires TotalPreorder(le)
    requires Sorted(s, le)
    ensures SortBy(s, le) == s
    decreases |s|
  {
    if |s| > 0 {
      var init := s[..|s| - 1];
      var x := s[|s| - 1];
      SortBySortedIdentity(init, le);
      InsertAtEnd(x, init, le);
      assert init + [x] == s;
    }
  }

  lemma {:induction false} InsertAtEnd<T>(x: T, s: seq<T>, le: (T, T) -> bool)
    requires forall i :: 0 <= i < |s| ==> le(s[i], x)
    ensures Insert(x, s, le) == s + [x]
    decreases |s|
  {
    if |s| > 0 {
      InsertAtEnd(x, s[1..], le);
      assert [s[0]] + (s[1..] + [x]) == s + [x];
    }
  }
}
