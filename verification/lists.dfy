/**
 * Sequence operations the front end takes from `Array.prototype`: `filter`, and `sort` with a
 * comparator. `sort` is stable (ECMAScript 2019), so for a comparator that is a total preorder
 * its result is the stable sorted permutation, which insertion sort computes.
 */
module Lists {

  /** A comparator `cmp` seen as "a may stay before b": `le(a, b) <==> cmp(a, b) <= 0`. */
  ghost predicate TotalPreorder<T(!new)>(le: (T, T) -> bool) {
    && (forall x, y :: le(x, y) || le(y, x))
    && (forall x, y, z :: le(x, y) && le(y, z) ==> le(x, z))
  }

  ghost predicate SortedBy<T>(le: (T, T) -> bool, s: seq<T>) {
    forall i, j :: 0 <= i < j < |s| ==> le(s[i], s[j])
  }

  /** `xs.filter(p)`. */
  function Filter<T(!new)>(xs: seq<T>, p: T -> bool): (r: seq<T>)
    ensures |r| <= |xs|
    ensures forall i :: 0 <= i < |r| ==> p(r[i])
    ensures forall x {:trigger multiset(r)[x]} :: multiset(r)[x] == if p(x) then multiset(xs)[x] else 0
  {
    if xs == [] then []
    else
      assert xs == [xs[0]] + xs[1..];
      (if p(xs[0]) then [xs[0]] else []) + Filter(xs[1..], p)
  }

  lemma {:induction false} FilterSubset<T(!new)>(xs: seq<T>, p: T -> bool, y: T)
    requires y in Filter(xs, p)
    ensures exists k :: 0 <= k < |xs| && xs[k] == y
  {
    assert multiset(Filter(xs, p))[y] > 0;
    assert y in multiset(xs);
  }

  /** Filtering a list extended by one element extends the filtered list by it, if it passes. */
  lemma {:induction false} FilterAppend<T(!new)>(xs: seq<T>, x: T, p: T -> bool)
    ensures Filter(xs + [x], p) == Filter(xs, p) + (if p(x) then [x] else [])
  {
    if xs == [] {
      assert xs + [x] == [x];
    } else {
      assert (xs + [x])[1..] == xs[1..] + [x];
      FilterAppend(xs[1..], x, p);
    }
  }

  /** Filtering a concatenation filters each part and keeps the parts in order. */
  lemma {:induction false} FilterConcat<T(!new)>(xs: seq<T>, ys: seq<T>, p: T -> bool)
    ensures Filter(xs + ys, p) == Filter(xs, p) + Filter(ys, p)
  {
    if xs == [] {
      assert xs + ys == ys;
    } else {
      assert (xs + ys)[1..] == xs[1..] + ys;
      FilterConcat(xs[1..], ys, p);
    }
  }

  /** Nothing passes, nothing is kept. */
  lemma FilterNone<T(!new)>(xs: seq<T>, p: T -> bool)
    requires forall i :: 0 <= i < |xs| ==> !p(xs[i])
    ensures Filter(xs, p) == []
  {
  }

  lemma PrependSorted<T>(le: (T, T) -> bool, x: T, rest: seq<T>)
    requires SortedBy(le, rest)
    requires forall i :: 0 <= i < |rest| ==> le(x, rest[i])
    ensures SortedBy(le, [x] + rest)
  {
    var r := [x] + rest;
    forall i, j | 0 <= i < j < |r| ensures le(r[i], r[j]) {
      assert r[j] == rest[j - 1];
      if i > 0 {
        assert r[i] == rest[i - 1];
      }
    }
  }

  /** Filtering keeps the relative order, so it keeps a sorted list sorted. */
  lemma {:induction false} FilterKeepsSorted<T(!new)>(xs: seq<T>, p: T -> bool, le: (T, T) -> bool)
    requires SortedBy(le, xs)
    ensures SortedBy(le, Filter(xs, p))
  {
    if xs != [] {
      var tail := xs[1..];
      var rest := Filter(tail, p);
      assert SortedBy(le, tail);
      FilterKeepsSorted(tail, p, le);
      forall i | 0 <= i < |rest| ensures le(xs[0], rest[i]) {
        FilterSubset(tail, p, rest[i]);
        var k :| 0 <= k < |tail| && tail[k] == rest[i];
        assert xs[k + 1] == rest[i];
      }
      if p(xs[0]) {
        PrependSorted(le, xs[0], rest);
      }
    }
  }

  /** Stable insertion: `x` goes after every element that may stay before it. */
  function Insert<T>(le: (T, T) -> bool, r: seq<T>, x: T): (out: seq<T>)
    ensures |out| == |r| + 1
  {
    if r == [] then [x]
    else if le(r[0], x) then
      assert r == [r[0]] + r[1..];
      [r[0]] + Insert(le, r[1..], x)
    else [x] + r
  }

  /** `[...s].sort(cmp)` with `le(a, b) <==> cmp(a, b) <= 0`: a permutation of `s`. */
  function Sort<T>(le: (T, T) -> bool, s: seq<T>): (r: seq<T>)
    ensures |r| == |s|
  {
    if s == [] then []
    else Insert(le, Sort(le, s[..|s| - 1]), s[|s| - 1])
  }

  /** Insertion adds exactly `x`. */
  lemma {:induction false} InsertPermutes<T>(le: (T, T) -> bool, r: seq<T>, x: T)
    ensures multiset(Insert(le, r, x)) == multiset(r) + multiset{x}
  {
    if r != [] && le(r[0], x) {
      InsertPermutes(le, r[1..], x);
      assert r == [r[0]] + r[1..];
    }
  }

  /** The sorted copy is a permutation of the input. */
  lemma {:induction false} SortPermutes<T>(le: (T, T) -> bool, s: seq<T>)
    ensures multiset(Sort(le, s)) == multiset(s)
  {
    if s != [] {
      SortPermutes(le, s[..|s| - 1]);
      InsertPermutes(le, Sort(le, s[..|s| - 1]), s[|s| - 1]);
      assert s == s[..|s| - 1] + [s[|s| - 1]];
    }
  }

  /** A property of every element of `r` and of `x` holds of every element of the insertion. */
  lemma {:induction false} InsertAll<T>(le: (T, T) -> bool, r: seq<T>, x: T, P: T -> bool)
    requires P(x) && forall i :: 0 <= i < |r| ==> P(r[i])
    ensures forall i :: 0 <= i < |Insert(le, r, x)| ==> P(Insert(le, r, x)[i])
  {
    if r != [] && le(r[0], x) {
      InsertAll(le, r[1..], x, P);
    }
  }

  /** A property of every element of `s` holds of every element of the sorted copy. */
  lemma {:induction false} SortAll<T>(le: (T, T) -> bool, s: seq<T>, P: T -> bool)
    requires forall i :: 0 <= i < |s| ==> P(s[i])
    ensures forall i :: 0 <= i < |Sort(le, s)| ==> P(Sort(le, s)[i])
  {
    if s != [] {
      SortAll(le, s[..|s| - 1], P);
      InsertAll(le, Sort(le, s[..|s| - 1]), s[|s| - 1], P);
    }
  }

  /** An element of the sorted copy is an element of the input. */
  lemma SortMember<T>(le: (T, T) -> bool, s: seq<T>, x: T)
    requires x in Sort(le, s)
    ensures x in s
  {
    SortPermutes(le, s);
    assert x in multiset(Sort(le, s));
  }

  lemma {:induction false} InsertSorted<T(!new)>(le: (T, T) -> bool, r: seq<T>, x: T)
    requires TotalPreorder(le) && SortedBy(le, r)
    ensures SortedBy(le, Insert(le, r, x))
  {
    if r == [] {
    } else if le(r[0], x) {
      var tail := r[1..];
      assert SortedBy(le, tail);
      InsertSorted(le, tail, x);
      InsertAll(le, tail, x, y => le(r[0], y));
      PrependSorted(le, r[0], Insert(le, tail, x));
    } else {
      assert le(x, r[0]);
      PrependSorted(le, x, r);
    }
  }

  /** `Insert` passes over a prefix whose elements may all stay before `x`. */
  lemma {:induction false} InsertSkips<T>(le: (T, T) -> bool, before: seq<T>, after: seq<T>, x: T)
    requires forall i :: 0 <= i < |before| ==> le(before[i], x)
    ensures Insert(le, before + after, x) == before + Insert(le, after, x)
  {
    if before == [] {
      assert before + after == after;
    } else {
      var r := before + after;
      assert r[0] == before[0] && r[1..] == before[1..] + after;
      InsertSkips(le, before[1..], after, x);
      assert Insert(le, r, x) == [before[0]] + Insert(le, before[1..] + after, x);
      assert before == [before[0]] + before[1..];
    }
  }

  /** Where `Insert` puts `x`: after the longest prefix that may stay before it. */
  lemma InsertAt<T>(le: (T, T) -> bool, before: seq<T>, after: seq<T>, x: T)
    requires forall i :: 0 <= i < |before| ==> le(before[i], x)
    requires after != [] ==> !le(after[0], x)
    ensures Insert(le, before + after, x) == before + [x] + after
  {
    InsertSkips(le, before, after, x);
  }

  /** A sequence is its two parts at any cut. */
  lemma SplitAt<T>(t: seq<T>, j: int)
    requires 0 <= j <= |t|
    ensures t == t[..j] + t[j..]
  {
  }

  /** `InsertAt` for the cut of `t` at slot `j`. */
  lemma InsertAtSlot<T>(le: (T, T) -> bool, t: seq<T>, j: int, x: T)
    requires 0 <= j <= |t|
    requires forall k :: 0 <= k < j ==> le(t[k], x)
    requires j < |t| ==> !le(t[j], x)
    ensures Insert(le, t, x) == t[..j] + [x] + t[j..]
  {
    SplitAt(t, j);
    InsertAt(le, t[..j], t[j..], x);
  }

  /** The sorted copy is ordered by the comparator. */
  lemma {:induction false} SortSorted<T(!new)>(le: (T, T) -> bool, s: seq<T>)
    requires TotalPreorder(le)
    ensures SortedBy(le, Sort(le, s))
  {
    if s != [] {
      SortSorted(le, s[..|s| - 1]);
      InsertSorted(le, Sort(le, s[..|s| - 1]), s[|s| - 1]);
    }
  }

  lemma {:induction false} InsertAtEnd<T>(le: (T, T) -> bool, r: seq<T>, x: T)
    requires forall i :: 0 <= i < |r| ==> le(r[i], x)
    ensures Insert(le, r, x) == r + [x]
  {
    if r != [] {
      InsertAtEnd(le, r[1..], x);
      assert r == [r[0]] + r[1..];
    }
  }

  /** A list that is already ordered comes back unchanged: sorting is stable. */
  lemma {:induction false} SortOfSorted<T>(le: (T, T) -> bool, s: seq<T>)
    requires SortedBy(le, s)
    ensures Sort(le, s) == s
  {
    if s != [] {
      var init := s[..|s| - 1];
      assert SortedBy(le, init);
      SortOfSorted(le, init);
      InsertAtEnd(le, init, s[|s| - 1]);
      assert init + [s[|s| - 1]] == s;
    }
  }

  /** Sorting twice by the same key is sorting once. */
  lemma SortIdempotent<T(!new)>(le: (T, T) -> bool, s: seq<T>)
    requires TotalPreorder(le)
    ensures Sort(le, Sort(le, s)) == Sort(le, s)
  {
    SortSorted(le, s);
    SortOfSorted(le, Sort(le, s));
  }
}
