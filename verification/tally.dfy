/**
 * Counting into a `Map` keyed by value, as the statistics view does with
 * `counts.set(k, (counts.get(k) || 0) + n)`, and reading it back with `Array.from(map.entries())`,
 * which lists the keys in the order they were first set.
 */
module Tally {
  import opened Lists

  /** One `{ key, count }` row. */
  datatype Stat<K> = Stat(key: K, count: int)

  function Keys<K(==,!new)>(s: seq<Stat<K>>): (r: seq<K>)
    ensures |r| == |s|
    ensures forall i :: 0 <= i < |s| ==> r[i] == s[i].key
  {
    seq(|s|, i requires 0 <= i < |s| => s[i].key)
  }

  /** The sum of the counts of the rows with key `k`. */
  function SumFor<K(==,!new)>(s: seq<Stat<K>>, k: K): int {
    if s == [] then 0 else (if s[0].key == k then s[0].count else 0) + SumFor(s[1..], k)
  }

  /** The sum of all counts. */
  function Total<K(==,!new)>(s: seq<Stat<K>>): int {
    if s == [] then 0 else s[0].count + Total(s[1..])
  }

  /** Each key at most once. */
  predicate UniqueKeys<K(==,!new)>(s: seq<Stat<K>>) {
    forall i, j :: 0 <= i < j < |s| ==> s[i].key != s[j].key
  }

  /** The values of `xs` without repeats, each where it first occurs. */
  function Dedup<K(==,!new)>(xs: seq<K>): (r: seq<K>)
    ensures forall x :: x in r <==> x in xs
  {
    if xs == [] then []
    else
      var d := Dedup(xs[..|xs| - 1]);
      assert xs == xs[..|xs| - 1] + [xs[|xs| - 1]];
      if xs[|xs| - 1] in d then d else d + [xs[|xs| - 1]]
  }

  lemma {:induction false} DedupDistinct<K(!new)>(xs: seq<K>)
    ensures forall i, j :: 0 <= i < j < |Dedup(xs)| ==> Dedup(xs)[i] != Dedup(xs)[j]
  {
    if xs != [] {
      DedupDistinct(xs[..|xs| - 1]);
    }
  }

  /** One `counts.set(e.key, (counts.get(e.key) || 0) + e.count)` on the map seen as its entry list. */
  function Bump<K(==,!new)>(s: seq<Stat<K>>, e: Stat<K>): (r: seq<Stat<K>>)
  {
    if s == [] then [e]
    else if s[0].key == e.key then [Stat(e.key, s[0].count + e.count)] + s[1..]
    else [s[0]] + Bump(s[1..], e)
  }

  /** The entries of the map after counting every row of `es` in order. */
  function Counts<K(==,!new)>(es: seq<Stat<K>>): seq<Stat<K>> {
    if es == [] then [] else Bump(Counts(es[..|es| - 1]), es[|es| - 1])
  }

  lemma {:induction false} SumForAppend<K(!new)>(s: seq<Stat<K>>, t: seq<Stat<K>>, k: K)
    ensures SumFor(s + t, k) == SumFor(s, k) + SumFor(t, k)
  {
    if s == [] {
      assert s + t == t;
    } else {
      assert (s + t)[1..] == s[1..] + t;
      SumForAppend(s[1..], t, k);
    }
  }

  lemma {:induction false} TotalAppend<K(!new)>(s: seq<Stat<K>>, t: seq<Stat<K>>)
    ensures Total(s + t) == Total(s) + Total(t)
  {
    if s == [] {
      assert s + t == t;
    } else {
      assert (s + t)[1..] == s[1..] + t;
      TotalAppend(s[1..], t);
    }
  }

  lemma {:induction false} SumForBump<K(!new)>(s: seq<Stat<K>>, e: Stat<K>, k: K)
    ensures SumFor(Bump(s, e), k) == SumFor(s, k) + (if e.key == k then e.count else 0)
  {
    if s != [] && s[0].key != e.key {
      SumForBump(s[1..], e, k);
    }
  }

  lemma {:induction false} TotalBump<K(!new)>(s: seq<Stat<K>>, e: Stat<K>)
    ensures Total(Bump(s, e)) == Total(s) + e.count
  {
    if s != [] && s[0].key != e.key {
      TotalBump(s[1..], e);
    }
  }

  lemma {:induction false} KeysBump<K(!new)>(s: seq<Stat<K>>, e: Stat<K>)
    ensures Keys(Bump(s, e)) == if e.key in Keys(s) then Keys(s) else Keys(s) + [e.key]
  {
    if s != [] {
      assert Keys(s) == [s[0].key] + Keys(s[1..]);
      if s[0].key != e.key {
        KeysBump(s[1..], e);
        assert Keys(Bump(s, e)) == [s[0].key] + Keys(Bump(s[1..], e));
      } else {
        assert Keys(Bump(s, e)) == [s[0].key] + Keys(s[1..]);
      }
    }
  }

  /** Every key's total is counted: the map holds, for each key, the sum of its rows' counts. */
  lemma {:induction false} CountsSumFor<K(!new)>(es: seq<Stat<K>>, k: K)
    ensures SumFor(Counts(es), k) == SumFor(es, k)
  {
    if es != [] {
      var init, last := es[..|es| - 1], es[|es| - 1];
      CountsSumFor(init, k);
      SumForBump(Counts(init), last, k);
      assert es == init + [last];
      SumForAppend(init, [last], k);
    }
  }

  /** Counting loses and invents nothing: the counts add up to the sum of the rows. */
  lemma {:induction false} CountsTotal<K(!new)>(es: seq<Stat<K>>)
    ensures Total(Counts(es)) == Total(es)
  {
    if es != [] {
      var init, last := es[..|es| - 1], es[|es| - 1];
      CountsTotal(init);
      TotalBump(Counts(init), last);
      assert es == init + [last];
      TotalAppend(init, [last]);
    }
  }

  /** The entries list each key once, in the order of first occurrence. */
  lemma {:induction false} CountsKeys<K(!new)>(es: seq<Stat<K>>)
    ensures Keys(Counts(es)) == Dedup(Keys(es))
  {
    if es != [] {
      var init, last := es[..|es| - 1], es[|es| - 1];
      CountsKeys(init);
      KeysBump(Counts(init), last);
      assert Keys(es)[..|es| - 1] == Keys(init);
    }
  }

  lemma CountsUnique<K(!new)>(es: seq<Stat<K>>)
    ensures UniqueKeys(Counts(es))
  {
    CountsKeys(es);
    DedupDistinct(Keys(es));
    var c := Counts(es);
    forall i, j | 0 <= i < j < |c| ensures c[i].key != c[j].key {
      assert Keys(c)[i] == c[i].key && Keys(c)[j] == c[j].key;
    }
  }

  /** The entries of a map that has exactly the keys `keys`, listed in that order. */
  function Entries<K(==,!new)>(keys: seq<K>, m: map<K, int>): seq<Stat<K>>
    requires forall k :: k in keys ==> k in m
  {
    if keys == [] then [] else [Stat(keys[0], m[keys[0]])] + Entries(keys[1..], m)
  }

  /** Entries of keys a map update does not touch do not change. */
  lemma {:induction false} EntriesUntouched<K(!new)>(keys: seq<K>, m: map<K, int>, k: K, v: int)
    requires forall x :: x in keys ==> x in m
    requires k !in keys
    ensures Entries(keys, m[k := v]) == Entries(keys, m)
  {
    if keys != [] {
      EntriesUntouched(keys[1..], m, k, v);
    }
  }

  /** One step of the counting loop on the map agrees with `Bump` on its entry list. */
  lemma EntriesBump<K(!new)>(keys: seq<K>, m: map<K, int>, e: Stat<K>)
    requires forall x :: x in keys <==> x in m
    requires forall i, j :: 0 <= i < j < |keys| ==> keys[i] != keys[j]
    ensures var v := (if e.key in m then m[e.key] else 0) + e.count;
      var keys' := if e.key in m then keys else keys + [e.key];
      Bump(Entries(keys, m), e) == Entries(keys', m[e.key := v])
  {
    if e.key in m {
      EntriesBumpPresent(keys, m, e);
    } else {
      EntriesBumpAbsent(keys, m, e);
      EntriesUntouched(keys, m, e.key, e.count);
      EntriesAppend(keys, m[e.key := e.count], e.key);
    }
  }

  /** Bumping a listed key changes its entry in place. */
  lemma {:induction false} EntriesBumpPresent<K(!new)>(keys: seq<K>, m: map<K, int>, e: Stat<K>)
    requires forall x :: x in keys ==> x in m
    requires forall i, j :: 0 <= i < j < |keys| ==> keys[i] != keys[j]
    requires e.key in keys
    ensures Bump(Entries(keys, m), e) == Entries(keys, m[e.key := m[e.key] + e.count])
  {
    var rest := keys[1..];
    if keys[0] == e.key {
      forall i | 0 <= i < |rest| ensures rest[i] != e.key {
        assert rest[i] == keys[i + 1];
      }
      EntriesUntouched(rest, m, e.key, m[e.key] + e.count);
    } else {
      assert e.key in rest;
      forall i, j | 0 <= i < j < |rest| ensures rest[i] != rest[j] {
        assert rest[i] == keys[i + 1] && rest[j] == keys[j + 1];
      }
      EntriesBumpPresent(rest, m, e);
    }
  }

  /** Bumping an unlisted key appends its row. */
  lemma {:induction false} EntriesBumpAbsent<K(!new)>(keys: seq<K>, m: map<K, int>, e: Stat<K>)
    requires forall x :: x in keys ==> x in m
    requires e.key !in keys
    ensures Bump(Entries(keys, m), e) == Entries(keys, m) + [e]
  {
    if keys != [] {
      EntriesBumpAbsent(keys[1..], m, e);
    }
  }

  /** A key listed last gives the last entry. */
  lemma {:induction false} EntriesAppend<K(!new)>(keys: seq<K>, m: map<K, int>, k: K)
    requires forall x :: x in keys ==> x in m
    requires k in m
    ensures Entries(keys + [k], m) == Entries(keys, m) + [Stat(k, m[k])]
  {
    if keys == [] {
      assert keys + [k] == [k];
    } else {
      assert (keys + [k])[1..] == keys[1..] + [k];
      EntriesAppend(keys[1..], m, k);
    }
  }

  /** `Entries` reads only the values of the listed keys. */
  lemma {:induction false} EntriesSameValues<K(!new)>(keys: seq<K>, m1: map<K, int>, m2: map<K, int>)
    requires forall x :: x in keys ==> x in m1 && x in m2 && m1[x] == m2[x]
    ensures Entries(keys, m1) == Entries(keys, m2)
  {
    if keys != [] {
      EntriesSameValues(keys[1..], m1, m2);
    }
  }

  /**
   * The counting loop: a `Map` filled row by row, then listed. Its result is `Counts(es)`, so
   * the lemmas above describe it.
   */
  method Accumulate<K(==,!new)>(es: seq<Stat<K>>) returns (r: seq<Stat<K>>)
    ensures r == Counts(es)
  {
    var keys: seq<K> := [];
    var counts: map<K, int> := map[];
    for i := 0 to |es|
      invariant Tracks(keys, counts, es[..i])
    {
      var e := es[i];
      TracksStep(keys, counts, es, i);
      var previous := if e.key in counts then counts[e.key] else 0;
      if e.key !in counts {
        keys := keys + [e.key];
      }
      counts := counts[e.key := previous + e.count];
    }
    assert es[..|es|] == es;
    r := Entries(keys, counts);
  }

  /** The loop state of `Accumulate`: the map, its keys in insertion order, and what they list. */
  ghost predicate Tracks<K(!new)>(keys: seq<K>, counts: map<K, int>, es: seq<Stat<K>>) {
    && (forall x :: x in keys <==> x in counts)
    && (forall a, b :: 0 <= a < b < |keys| ==> keys[a] != keys[b])
    && Entries(keys, counts) == Counts(es)
  }

  lemma TracksStep<K(!new)>(keys: seq<K>, counts: map<K, int>, es: seq<Stat<K>>, i: int)
    requires 0 <= i < |es| && Tracks(keys, counts, es[..i])
    ensures var e := es[i];
      var v := (if e.key in counts then counts[e.key] else 0) + e.count;
      Tracks(if e.key in counts then keys else keys + [e.key], counts[e.key := v], es[..i + 1])
  {
    var e := es[i];
    EntriesBump(keys, counts, e);
    assert es[..i + 1][..i] == es[..i];
    if e.key !in counts {
      var keys' := keys + [e.key];
      forall a, b | 0 <= a < b < |keys'| ensures keys'[a] != keys'[b] {
        if b == |keys| {
          assert keys'[a] == keys[a];
        } else {
          assert keys'[a] == keys[a] && keys'[b] == keys[b];
        }
      }
    }
  }

  /** One row of weight 1 per value. */
  function Ones<K(==,!new)>(xs: seq<K>): (r: seq<Stat<K>>)
    ensures |r| == |xs|
    ensures forall i :: 0 <= i < |xs| ==> r[i] == Stat(xs[i], 1)
  {
    seq(|xs|, i requires 0 <= i < |xs| => Stat(xs[i], 1))
  }

  /** Rows of weight 1 add up to the number of occurrences. */
  lemma {:induction false} OnesSumFor<K(!new)>(xs: seq<K>, k: K)
    ensures SumFor(Ones(xs), k) == multiset(xs)[k]
  {
    if xs != [] {
      assert Ones(xs)[1..] == Ones(xs[1..]);
      OnesSumFor(xs[1..], k);
      assert xs == [xs[0]] + xs[1..];
    }
  }

  lemma {:induction false} OnesTotal<K(!new)>(xs: seq<K>)
    ensures Total(Ones(xs)) == |xs|
  {
    if xs != [] {
      assert Ones(xs)[1..] == Ones(xs[1..]);
      OnesTotal(xs[1..]);
    }
  }
}
