/**
 * The platform catalogue page: every platform is put in one group by a precedence rule on its
 * generation and upper-cased type, the groups are listed by rank (highest first), and the
 * platforms of each group are sorted by name in a copy of the group's array.
 */
module PlatformList {
  import opened Wrappers
  import opened Strings
  import opened Lists
  import opened Models
  import Tally

  const GenerationPrefix := "Generación "
  const ComputersKey := "Ordenadores / Sistemas Operativos"
  const ArcadeKey := "Arcade"
  const PortableKey := "Consolas Portátiles"
  const OthersKey := "Otras Plataformas"

  /** The group a platform belongs to: its title and its rank. */
  datatype GroupClass = GroupClass(key: string, sortOrder: int)

  /** A group as the page shows it. */
  datatype PlatformGroup = PlatformGroup(key: string, platforms: seq<Platform>, sortOrder: int)

  /** A group while the platforms are being collected: its members so far and its rank. */
  datatype GroupEntry = GroupEntry(platforms: seq<Platform>, sortOrder: int)

  /** The platform type upper-cased, or `''` when it is absent or empty. */
  function TypeOf(p: Platform): string {
    if p.platformType.Some? then ToUpper(p.platformType.value) else ""
  }

  /** The precedence rule: a positive generation first, then the type, then the catch-all. */
  function Classify(p: Platform): GroupClass {
    var t := TypeOf(p);
    if p.generation.Some? && p.generation.value > 0 then
      GroupClass(GenerationPrefix + IntToString(p.generation.value), p.generation.value * 10)
    else if t == "COMPUTER" || t == "OPERATING_SYSTEM" then GroupClass(ComputersKey, 5)
    else if t == "ARCADE" then GroupClass(ArcadeKey, 4)
    else if t == "PORTABLE_CONSOLE" then GroupClass(PortableKey, 3)
    else GroupClass(OthersKey, 0)
  }

  /**
   * Generation groups outrank every type group, and the ranks of the type groups are exactly
   * 5, 4, 3 and 0.
   */
  lemma ClassifyRanks(p: Platform)
    ensures var c := Classify(p);
      && (p.generation.Some? && p.generation.value > 0 <==> c.sortOrder >= 10)
      && (c.sortOrder < 10 ==> c.sortOrder in {0, 3, 4, 5})
      && (c.sortOrder == 0 <==> c.key == OthersKey)
  {
    if p.generation.Some? && p.generation.value > 0 {
      GenerationTitle(p.generation.value);
    }
  }

  /** A platform with neither a positive generation nor a type is one of the others. */
  lemma ClassifyMissingType(p: Platform)
    requires p.platformType.None? || p.platformType == Some("")
    requires p.generation.None? || p.generation.value <= 0
    ensures Classify(p) == GroupClass(OthersKey, 0)
  {
  }

  /** The type is compared upper-cased, so its letter case does not matter. */
  lemma ClassifyIgnoresCase(p: Platform, t: string)
    ensures Classify(p.(platformType := Some(t))) == Classify(p.(platformType := Some(ToUpper(t))))
  {
    ToUpperIdempotent(t);
  }

  /** A generation title is none of the type titles. */
  lemma GenerationTitle(g: int)
    ensures var key := GenerationPrefix + IntToString(g);
      key != ComputersKey && key != ArcadeKey && key != PortableKey && key != OthersKey
  {
    assert (GenerationPrefix + IntToString(g))[0] == 'G';
  }

  /** The title of a group fixes its rank: two platforms with the same title have the same rank. */
  lemma KeyDeterminesRank(p: Platform, q: Platform)
    requires Classify(p).key == Classify(q).key
    ensures Classify(p).sortOrder == Classify(q).sortOrder
  {
    var gp := p.generation.Some? && p.generation.value > 0;
    var gq := q.generation.Some? && q.generation.value > 0;
    if gp {
      GenerationTitle(p.generation.value);
    }
    if gq {
      GenerationTitle(q.generation.value);
    }
    if gp && gq {
      var a, b := IntToString(p.generation.value), IntToString(q.generation.value);
      assert (GenerationPrefix + a)[|GenerationPrefix|..] == a;
      assert (GenerationPrefix + b)[|GenerationPrefix|..] == b;
      ParseIntToString(p.generation.value);
      ParseIntToString(q.generation.value);
    }
  }

  /** Membership of the group titled `k`. */
  function InGroup(k: string): Platform -> bool {
    p => Classify(p).key == k
  }

  /** The group titles of the platforms, one per platform, in order. */
  function KeyList(ps: seq<Platform>): (r: seq<string>)
    ensures |r| == |ps|
    ensures forall i :: 0 <= i < |ps| ==> r[i] == Classify(ps[i]).key
  {
    seq(|ps|, i requires 0 <= i < |ps| => Classify(ps[i]).key)
  }

  lemma KeyListAppend(ps: seq<Platform>, p: Platform)
    ensures KeyList(ps + [p]) == KeyList(ps) + [Classify(p).key]
  {
  }

  /** A title none of the platforms has: its group is empty. */
  lemma FilterNewKey(ps: seq<Platform>, k: string)
    requires forall q :: q in ps ==> Classify(q).key != k
    ensures Filter(ps, InGroup(k)) == []
  {
    FilterNone(ps, InGroup(k));
  }

  /** The rank stored for a group: that of its first member. */
  function RankOf(members: seq<Platform>): int {
    if members == [] then 0 else Classify(members[0]).sortOrder
  }

  /** `keys` and `groups` are the map built from the platforms `ps`. */
  ghost predicate Collected(ps: seq<Platform>, keys: seq<string>, groups: map<string, GroupEntry>) {
    && keys == Tally.Dedup(KeyList(ps))
    && (forall k :: k in groups <==> k in keys)
    && (forall k :: k in groups ==>
      var members := Filter(ps, InGroup(k));
      members != [] && groups[k] == GroupEntry(members, RankOf(members)))
  }

  /**
   * The `forEach` over the platforms: a `Map` from group title to its members, created with the
   * first member's rank the first time the title comes up; `keys` is the map's insertion order.
   */
  method CollectGroups(ps: seq<Platform>) returns (keys: seq<string>, groups: map<string, GroupEntry>)
    ensures Collected(ps, keys, groups)
  {
    keys, groups := [], map[];
    for i := 0 to |ps|
      invariant Collected(ps[..i], keys, groups)
    {
      var p := ps[i];
      var c := Classify(p);
      ghost var keys0, groups0 := keys, groups;
      if c.key !in groups {
        groups := groups[c.key := GroupEntry([], c.sortOrder)];
        keys := keys + [c.key];
      }
      groups := groups[c.key := groups[c.key].(platforms := groups[c.key].platforms + [p])];
      CollectStep(ps[..i], p, keys0, groups0);
      assert ps[..i + 1] == ps[..i] + [p];
    }
    assert ps[..|ps|] == ps;
  }

  /** One pass of the `forEach` keeps `Collected`. */
  lemma CollectStep(ps: seq<Platform>, p: Platform, keys: seq<string>, groups: map<string, GroupEntry>)
    requires Collected(ps, keys, groups)
    ensures var c := Classify(p);
      var entry := if c.key in groups then groups[c.key] else GroupEntry([], c.sortOrder);
      Collected(ps + [p],
        if c.key in groups then keys else keys + [c.key],
        groups[c.key := entry.(platforms := entry.platforms + [p])])
  {
    var c := Classify(p);
    var entry := if c.key in groups then groups[c.key] else GroupEntry([], c.sortOrder);
    var groups' := groups[c.key := entry.(platforms := entry.platforms + [p])];
    CollectKeysStep(ps, p, keys);
    forall k | k in groups'
      ensures var members := Filter(ps + [p], InGroup(k));
        members != [] && groups'[k] == GroupEntry(members, RankOf(members))
    {
      CollectGroupStep(ps, p, keys, groups, k);
    }
  }

  /** The insertion order gains the title of `p` if it is new. */
  lemma CollectKeysStep(ps: seq<Platform>, p: Platform, keys: seq<string>)
    requires keys == Tally.Dedup(KeyList(ps))
    ensures var key := Classify(p).key;
      Tally.Dedup(KeyList(ps + [p])) == if key in keys then keys else keys + [key]
  {
    KeyListAppend(ps, p);
    assert KeyList(ps + [p])[..|ps|] == KeyList(ps);
  }

  /** The group of `k` after one pass holds the platforms so far with title `k`. */
  lemma CollectGroupStep(ps: seq<Platform>, p: Platform, keys: seq<string>, groups: map<string, GroupEntry>, k: string)
    requires Collected(ps, keys, groups)
    requires k in groups || k == Classify(p).key
    ensures var c := Classify(p);
      var entry := if c.key in groups then groups[c.key] else GroupEntry([], c.sortOrder);
      var groups' := groups[c.key := entry.(platforms := entry.platforms + [p])];
      var members := Filter(ps + [p], InGroup(k));
      members != [] && groups'[k] == GroupEntry(members, RankOf(members))
  {
    var c := Classify(p);
    FilterAppend(ps, p, InGroup(k));
    if k == c.key && c.key !in groups {
      forall q | q in ps ensures Classify(q).key != k {
        var j :| 0 <= j < |ps| && ps[j] == q;
        assert KeyList(ps)[j] in KeyList(ps);
      }
      FilterNewKey(ps, c.key);
    }
  }

  /** The comparator `sortPlatforms` uses for `order`, or `None` for an order it leaves alone. */
  function NameOrder(order: string): Option<(Platform, Platform) -> bool> {
    if order == "name-asc" then Some((a: Platform, b: Platform) => StrLe(a.name, b.name))
    else if order == "name-desc" then Some((a: Platform, b: Platform) => StrLe(b.name, a.name))
    else None
  }

  lemma NameOrderIsTotalPreorder(order: string)
    requires NameOrder(order).Some?
    ensures TotalPreorder(NameOrder(order).value)
  {
    var le := NameOrder(order).value;
    forall a: Platform, b: Platform ensures le(a, b) || le(b, a) {
      StrLeTotal(a.name, b.name);
    }
    forall a: Platform, b: Platform, c: Platform | le(a, b) && le(b, c) ensures le(a, c) {
      if order == "name-asc" {
        StrLeTransitive(a.name, b.name, c.name);
      } else {
        StrLeTransitive(c.name, b.name, a.name);
      }
    }
  }

  /** What `sortPlatforms` leaves in its argument. */
  function SortedPlatforms(ps: seq<Platform>, order: string): (r: seq<Platform>)
    ensures |r| == |ps|
    ensures NameOrder(order).None? ==> r == ps
  {
    match NameOrder(order)
    case None => ps
    case Some(le) => Sort(le, ps)
  }

  /** `sortPlatforms` only reorders. */
  lemma SortedPlatformsPermutes(ps: seq<Platform>, order: string)
    ensures multiset(SortedPlatforms(ps, order)) == multiset(ps)
  {
    if NameOrder(order).Some? {
      SortPermutes(NameOrder(order).value, ps);
    }
  }

  /** Ascending names for `name-asc`, descending for `name-desc`. */
  lemma SortedPlatformsOrdered(ps: seq<Platform>, order: string)
    ensures var r := SortedPlatforms(ps, order);
      forall i, j :: 0 <= i < j < |r| ==>
        && (order == "name-asc" ==> StrLe(r[i].name, r[j].name))
        && (order == "name-desc" ==> StrLe(r[j].name, r[i].name))
  {
    if NameOrder(order).Some? {
      NameOrderIsTotalPreorder(order);
      SortSorted(NameOrder(order).value, ps);
    }
  }

  /** The first position of `a[..i]` whose element may not stay before `x`, or `i`. */
  method FindSlot(a: array<Platform>, i: int, x: Platform, le: (Platform, Platform) -> bool) returns (j: int)
    requires 0 <= i <= a.Length
    ensures 0 <= j <= i
    ensures forall k :: 0 <= k < j ==> le(a[k], x)
    ensures j < i ==> !le(a[j], x)
  {
    j := 0;
    while j < i && le(a[j], x)
      invariant 0 <= j <= i
      invariant forall k :: 0 <= k < j ==> le(a[k], x)
    {
      j := j + 1;
    }
  }

  /** Moves `a[j..i]` one place right and writes `x` at `j`, over the old `a[i]`. */
  method PlaceAt(a: array<Platform>, j: int, i: int, x: Platform)
    requires 0 <= j <= i < a.Length
    modifies a
    ensures forall m :: 0 <= m < j ==> a[m] == old(a[m])
    ensures a[j] == x
    ensures forall m :: j < m <= i ==> a[m] == old(a[m - 1])
    ensures forall m :: i < m < a.Length ==> a[m] == old(a[m])
  {
    var k := i;
    while k > j
      invariant j <= k <= i
      invariant forall m :: 0 <= m <= k ==> a[m] == old(a[m])
      invariant forall m :: k < m <= i ==> a[m] == old(a[m - 1])
      invariant forall m :: i < m < a.Length ==> a[m] == old(a[m])
    {
      a[k] := a[k - 1];
      k := k - 1;
    }
    a[j] := x;
  }

  /** The contents after `PlaceAt`, as sequences. */
  lemma Shifted<T>(b: seq<T>, o: seq<T>, j: int, i: int, x: T)
    requires 0 <= j <= i < |o| == |b|
    requires forall m :: 0 <= m < j ==> b[m] == o[m]
    requires b[j] == x
    requires forall m :: j < m <= i ==> b[m] == o[m - 1]
    requires forall m :: i < m < |o| ==> b[m] == o[m]
    ensures b[..i + 1] == o[..i][..j] + [x] + o[..i][j..]
    ensures b[i + 1..] == o[i + 1..]
  {
  }

  /** Moves `a[i]` into its place in the sorted prefix `a[..i]`. */
  method InsertInPlace(a: array<Platform>, i: int, le: (Platform, Platform) -> bool)
    requires 0 <= i < a.Length
    modifies a
    ensures a[..i + 1] == Insert(le, old(a[..i]), old(a[i]))
    ensures a[i + 1..] == old(a[i + 1..])
  {
    ghost var o := a[..];
    var x := a[i];
    var j := FindSlot(a, i, x, le);
    InsertAtSlot(le, o[..i], j, x);
    PlaceAt(a, j, i, x);
    Shifted(a[..], o, j, i, x);
  }

  /** Array insertion sort with `le`: the same stable order as `Sort`. */
  method SortInPlace(a: array<Platform>, le: (Platform, Platform) -> bool)
    modifies a
    ensures a[..] == Sort(le, old(a[..]))
  {
    ghost var s := a[..];
    for i := 0 to a.Length
      invariant a[..i] == Sort(le, s[..i])
      invariant a[i..] == s[i..]
    {
      ghost var before := a[..];
      InsertInPlace(a, i, le);
      SortPrefixStep(le, s, i, before, a[..]);
    }
    assert a[..] == a[..a.Length] && s == s[..a.Length];
  }

  /** One pass of the insertion sort extends the sorted prefix by one element. */
  lemma SortPrefixStep<T>(le: (T, T) -> bool, s: seq<T>, i: int, before: seq<T>, after: seq<T>)
    requires 0 <= i < |s| == |before| == |after|
    requires before[..i] == Sort(le, s[..i]) && before[i..] == s[i..]
    requires after[..i + 1] == Insert(le, before[..i], before[i]) && after[i + 1..] == before[i + 1..]
    ensures after[..i + 1] == Sort(le, s[..i + 1]) && after[i + 1..] == s[i + 1..]
  {
    assert s[..i + 1][..i] == s[..i];
    assert before[i] == before[i..][0] == s[i];
    assert before[i + 1..] == before[i..][1..] == s[i..][1..] == s[i + 1..];
  }

  /** `sortPlatforms`: sorts its argument in place by name, or leaves it for another order. */
  method SortPlatforms(a: array<Platform>, order: string)
    modifies a
    ensures a[..] == SortedPlatforms(old(a[..]), order)
  {
    match NameOrder(order) {
      case None =>
      case Some(le) => SortInPlace(a, le);
    }
  }

  /** `(a, b) => b.sortOrder - a.sortOrder`: higher rank first. */
  function ByRankDesc(): (PlatformGroup, PlatformGroup) -> bool {
    (a: PlatformGroup, b: PlatformGroup) => a.sortOrder >= b.sortOrder
  }

  lemma ByRankDescTotalPreorder()
    ensures TotalPreorder(ByRankDesc())
  {
  }

  /** One listed group, its members sorted by `order`. */
  function GroupFor(ps: seq<Platform>, k: string, order: string): PlatformGroup {
    var members := Filter(ps, InGroup(k));
    PlatformGroup(k, SortedPlatforms(members, order), RankOf(members))
  }

  /** The groups in the map's insertion order, before the sort by rank. */
  function Listing(ps: seq<Platform>, order: string): (r: seq<PlatformGroup>)
    ensures |r| == |Tally.Dedup(KeyList(ps))|
  {
    var keys := Tally.Dedup(KeyList(ps));
    seq(|keys|, j requires 0 <= j < |keys| => GroupFor(ps, keys[j], order))
  }

  /** What the page shows for `platforms` and the selected order. */
  function Grouped(ps: seq<Platform>, order: string): seq<PlatformGroup> {
    Sort(ByRankDesc(), Listing(ps, order))
  }

  /** The `map` callback of `ngOnInit`: groups listed, each sorted in a copy, then ranked. */
  method GroupPlatforms(ps: seq<Platform>, order: string) returns (r: seq<PlatformGroup>)
    ensures r == Grouped(ps, order)
  {
    var keys, groups := CollectGroups(ps);
    var listed := ListGroups(ps, keys, groups, order);
    ListingOfIs(ps, order, keys);
    r := Sort(ByRankDesc(), listed);
  }

  /** `Array.from(groups.entries()).map(...)`: one listed group per title, in insertion order. */
  method ListGroups(ps: seq<Platform>, keys: seq<string>, groups: map<string, GroupEntry>, order: string)
    returns (listed: seq<PlatformGroup>)
    requires Collected(ps, keys, groups)
    ensures listed == ListingOf(ps, keys, order)
  {
    listed := [];
    for j := 0 to |keys|
      invariant listed == ListingOf(ps, keys[..j], order)
    {
      var g := ListGroup(ps, keys, groups, keys[j], order);
      ListingOfStep(ps, keys, j, order);
      listed := listed + [g];
    }
    assert keys[..|keys|] == keys;
  }

  /** The groups of `keys` in order, one appended per pass of the listing loop. */
  function ListingOf(ps: seq<Platform>, keys: seq<string>, order: string): seq<PlatformGroup> {
    if keys == [] then [] else ListingOf(ps, keys[..|keys| - 1], order) + [GroupFor(ps, keys[|keys| - 1], order)]
  }

  lemma ListingOfStep(ps: seq<Platform>, keys: seq<string>, j: int, order: string)
    requires 0 <= j < |keys|
    ensures ListingOf(ps, keys[..j + 1], order) == ListingOf(ps, keys[..j], order) + [GroupFor(ps, keys[j], order)]
  {
    assert keys[..j + 1][..j] == keys[..j];
  }

  lemma {:induction false} ListingOfIs(ps: seq<Platform>, order: string, keys: seq<string>)
    ensures ListingOf(ps, keys, order) == seq(|keys|, m requires 0 <= m < |keys| => GroupFor(ps, keys[m], order))
  {
    if keys != [] {
      ListingOfIs(ps, order, keys[..|keys| - 1]);
    }
  }

  /** The `map` callback for one entry: the title, a sorted copy of the members, the rank. */
  method ListGroup(ps: seq<Platform>, keys: seq<string>, groups: map<string, GroupEntry>, k: string, order: string)
    returns (g: PlatformGroup)
    requires Collected(ps, keys, groups) && k in keys
    ensures g == GroupFor(ps, k, order)
  {
    var entry := groups[k];
    var sorted := SortedCopy(entry.platforms, order);
    g := PlatformGroup(k, sorted, entry.sortOrder);
  }

  /** `sortPlatforms([...members], order)`: a fresh array sorted in place and read back. */
  method SortedCopy(members: seq<Platform>, order: string) returns (r: seq<Platform>)
    ensures r == SortedPlatforms(members, order)
  {
    var copy := new Platform[|members|](m requires 0 <= m < |members| => members[m]);
    assert copy[..] == members;
    SortPlatforms(copy, order);
    r := copy[..];
  }

  /** The groups come by rank, highest first. */
  lemma GroupedRanked(ps: seq<Platform>, order: string)
    ensures var r := Grouped(ps, order);
      forall i, j :: 0 <= i < j < |r| ==> r[i].sortOrder >= r[j].sortOrder
  {
    ByRankDescTotalPreorder();
    SortSorted(ByRankDesc(), Listing(ps, order));
  }

  /** Facts about each group of the unsorted listing, which the sort by rank keeps. */
  ghost predicate GroupOk(ps: seq<Platform>, g: PlatformGroup) {
    && g.key in KeyList(ps)
    && g.platforms != []
    && multiset(g.platforms) == multiset(Filter(ps, InGroup(g.key)))
    && (forall p :: p in g.platforms ==> Classify(p) == GroupClass(g.key, g.sortOrder))
  }

  /** A shown group is the one built for its title, and that title is one of the platforms'. */
  lemma GroupedMember(ps: seq<Platform>, order: string, g: PlatformGroup)
    requires g in Grouped(ps, order)
    ensures g.key in Tally.Dedup(KeyList(ps)) && g == GroupFor(ps, g.key, order)
  {
    SortMember(ByRankDesc(), Listing(ps, order), g);
    ListingMember(ps, order, g);
  }

  lemma ListingMember(ps: seq<Platform>, order: string, g: PlatformGroup)
    requires g in Listing(ps, order)
    ensures g.key in Tally.Dedup(KeyList(ps)) && g == GroupFor(ps, g.key, order)
  {
    var keys := Tally.Dedup(KeyList(ps));
    var listed := Listing(ps, order);
    var j :| 0 <= j < |listed| && listed[j] == g;
    assert g == GroupFor(ps, keys[j], order);
  }

  lemma GroupForOk(ps: seq<Platform>, order: string, k: string)
    requires k in Tally.Dedup(KeyList(ps))
    ensures GroupOk(ps, GroupFor(ps, k, order))
  {
    var g := GroupFor(ps, k, order);
    var members := Filter(ps, InGroup(k));
    var i :| 0 <= i < |ps| && KeyList(ps)[i] == k;
    assert multiset(members)[ps[i]] > 0;
    SortedPlatformsPermutes(members, order);
    forall p | p in g.platforms ensures Classify(p) == GroupClass(k, g.sortOrder) {
      assert p in multiset(members);
      KeyDeterminesRank(p, members[0]);
    }
  }

  /**
   * Every platform is in exactly the group of its title: each group holds exactly the input
   * platforms with its title, every member has the group's title and rank, and every platform's
   * title has a group.
   */
  lemma GroupedPartition(ps: seq<Platform>, order: string)
    ensures var r := Grouped(ps, order);
      && (forall g :: g in r ==> GroupOk(ps, g))
      && (forall p :: p in ps ==> exists g :: g in r && g.key == Classify(p).key)
  {
    var listed := Listing(ps, order);
    var r := Grouped(ps, order);
    forall g | g in r ensures GroupOk(ps, g) {
      GroupedMember(ps, order, g);
      GroupForOk(ps, order, g.key);
    }
    forall p | p in ps ensures exists g :: g in r && g.key == Classify(p).key {
      var keys := Tally.Dedup(KeyList(ps));
      var i :| 0 <= i < |ps| && ps[i] == p;
      assert KeyList(ps)[i] in keys;
      var j :| 0 <= j < |keys| && keys[j] == Classify(p).key;
      SortPermutes(ByRankDesc(), listed);
      assert listed[j] in multiset(r);
    }
  }

  /** Distinct titles: no two groups share one. */
  ghost predicate DistinctKeys(s: seq<PlatformGroup>) {
    forall i, j :: 0 <= i < j < |s| ==> s[i].key != s[j].key
  }

  lemma {:induction false} InsertDistinct(le: (PlatformGroup, PlatformGroup) -> bool, s: seq<PlatformGroup>, x: PlatformGroup)
    requires DistinctKeys(s)
    requires forall i :: 0 <= i < |s| ==> s[i].key != x.key
    ensures DistinctKeys(Insert(le, s, x))
  {
    if s != [] && le(s[0], x) {
      var tail := s[1..];
      assert DistinctKeys(tail);
      InsertDistinct(le, tail, x);
      InsertAll(le, tail, x, (g: PlatformGroup) => g.key != s[0].key);
      PrependDistinct(s[0], Insert(le, tail, x));
    } else {
      PrependDistinct(x, s);
    }
  }

  lemma PrependDistinct(h: PlatformGroup, rest: seq<PlatformGroup>)
    requires DistinctKeys(rest)
    requires forall i :: 0 <= i < |rest| ==> rest[i].key != h.key
    ensures DistinctKeys([h] + rest)
  {
    forall i, j | 0 <= i < j < |rest| + 1 ensures ([h] + rest)[i].key != ([h] + rest)[j].key {
      assert ([h] + rest)[j] == rest[j - 1];
    }
  }

  lemma {:induction false} SortDistinct(le: (PlatformGroup, PlatformGroup) -> bool, s: seq<PlatformGroup>)
    requires DistinctKeys(s)
    ensures DistinctKeys(Sort(le, s))
  {
    if s != [] {
      var init, last := s[..|s| - 1], s[|s| - 1];
      assert DistinctKeys(init);
      SortDistinct(le, init);
      SortAll(le, init, (g: PlatformGroup) => g.key != last.key);
      InsertDistinct(le, Sort(le, init), last);
    }
  }

  /** Group titles are unique. */
  lemma GroupedDistinct(ps: seq<Platform>, order: string)
    ensures DistinctKeys(Grouped(ps, order))
  {
    var keys := Tally.Dedup(KeyList(ps));
    Tally.DedupDistinct(KeyList(ps));
    SortDistinct(ByRankDesc(), Listing(ps, order));
  }

  /** The sum of the group sizes. */
  function Size(gs: seq<PlatformGroup>): nat {
    if gs == [] then 0 else |gs[0].platforms| + Size(gs[1..])
  }

  lemma {:induction false} SizeAppend(s: seq<PlatformGroup>, t: seq<PlatformGroup>)
    ensures Size(s + t) == Size(s) + Size(t)
  {
    if s == [] {
      assert s + t == t;
    } else {
      assert (s + t)[1..] == s[1..] + t;
      SizeAppend(s[1..], t);
    }
  }

  lemma {:induction false} SizeInsert(le: (PlatformGroup, PlatformGroup) -> bool, s: seq<PlatformGroup>, x: PlatformGroup)
    ensures Size(Insert(le, s, x)) == Size(s) + |x.platforms|
  {
    if s != [] && le(s[0], x) {
      SizeInsert(le, s[1..], x);
    }
  }

  lemma {:induction false} SizeSort(le: (PlatformGroup, PlatformGroup) -> bool, s: seq<PlatformGroup>)
    ensures Size(Sort(le, s)) == Size(s)
  {
    if s != [] {
      var init := s[..|s| - 1];
      SizeSort(le, init);
      SizeInsert(le, Sort(le, init), s[|s| - 1]);
      SizeLast(s);
    }
  }

  lemma SizeLast(s: seq<PlatformGroup>)
    requires s != []
    ensures Size(s) == Size(s[..|s| - 1]) + |s[|s| - 1].platforms|
  {
    assert s == s[..|s| - 1] + [s[|s| - 1]];
    SizeAppend(s[..|s| - 1], [s[|s| - 1]]);
  }

  /** The sizes of the groups of `keys`, for platforms `ps`. */
  function KeySize(ps: seq<Platform>, keys: seq<string>): nat {
    if keys == [] then 0
    else KeySize(ps, keys[..|keys| - 1]) + |Filter(ps, InGroup(keys[|keys| - 1]))|
  }

  /** One more platform adds one to the size of its own group if that is listed, once. */
  lemma {:induction false} KeySizeAppendPlatform(ps: seq<Platform>, p: Platform, keys: seq<string>)
    requires forall i, j :: 0 <= i < j < |keys| ==> keys[i] != keys[j]
    ensures KeySize(ps + [p], keys) == KeySize(ps, keys) + if Classify(p).key in keys then 1 else 0
  {
    if keys != [] {
      var init, last := keys[..|keys| - 1], keys[|keys| - 1];
      DistinctInit(keys);
      KeySizeAppendPlatform(ps, p, init);
      KeySizeLast(ps, p, keys);
    }
  }

  /** Without its last title a list of distinct titles stays distinct and lacks that title. */
  lemma DistinctInit(keys: seq<string>)
    requires keys != []
    requires forall i, j :: 0 <= i < j < |keys| ==> keys[i] != keys[j]
    ensures var init, last := keys[..|keys| - 1], keys[|keys| - 1];
      && (forall i, j :: 0 <= i < j < |init| ==> init[i] != init[j])
      && last !in init
      && forall k :: k in keys <==> k in init || k == last
  {
    var init, last := keys[..|keys| - 1], keys[|keys| - 1];
    assert keys == init + [last];
    forall i | 0 <= i < |init| ensures init[i] != last {
      assert init[i] == keys[i];
    }
  }

  /** The last title's group gains `p` exactly when that title is `p`'s. */
  lemma KeySizeLast(ps: seq<Platform>, p: Platform, keys: seq<string>)
    requires keys != []
    ensures var init, last := keys[..|keys| - 1], keys[|keys| - 1];
      KeySize(ps + [p], keys) - KeySize(ps + [p], init)
      == KeySize(ps, keys) - KeySize(ps, init) + if Classify(p).key == last then 1 else 0
  {
    FilterAppend(ps, p, InGroup(keys[|keys| - 1]));
  }

  /** The group sizes over all titles add up to the number of platforms. */
  lemma {:induction false} KeySizeTotal(ps: seq<Platform>)
    ensures KeySize(ps, Tally.Dedup(KeyList(ps))) == |ps|
  {
    if ps != [] {
      var init, p := ps[..|ps| - 1], ps[|ps| - 1];
      var d := Tally.Dedup(KeyList(init));
      KeySizeTotal(init);
      assert ps == init + [p];
      CollectKeysStep(init, p, d);
      Tally.DedupDistinct(KeyList(init));
      forall q | q in init ensures Classify(q).key in d {
        var j :| 0 <= j < |init| && init[j] == q;
        assert KeyList(init)[j] in KeyList(init);
      }
      KeySizeStep(init, p, d);
    }
  }

  /** `KeySizeTotal` for one more platform, with `d` the titles so far. */
  lemma KeySizeStep(init: seq<Platform>, p: Platform, d: seq<string>)
    requires KeySize(init, d) == |init|
    requires forall i, j :: 0 <= i < j < |d| ==> d[i] != d[j]
    requires forall q :: q in init ==> Classify(q).key in d
    ensures var key := Classify(p).key;
      KeySize(init + [p], if key in d then d else d + [key]) == |init| + 1
  {
    var key := Classify(p).key;
    KeySizeAppendPlatform(init, p, d);
    if key !in d {
      FilterNewKey(init, key);
      FilterAppend(init, p, InGroup(key));
      KeySizeAppendKey(init + [p], d, key);
    }
  }

  lemma KeySizeAppendKey(ps: seq<Platform>, keys: seq<string>, k: string)
    ensures KeySize(ps, keys + [k]) == KeySize(ps, keys) + |Filter(ps, InGroup(k))|
  {
    assert (keys + [k])[..|keys|] == keys;
  }

  lemma {:induction false} ListingSize(ps: seq<Platform>, order: string, keys: seq<string>)
    ensures Size(ListingOf(ps, keys, order)) == KeySize(ps, keys)
  {
    if keys != [] {
      var init := keys[..|keys| - 1];
      ListingSize(ps, order, init);
      SizeAppend(ListingOf(ps, init, order), [GroupFor(ps, keys[|keys| - 1], order)]);
    }
  }

  /** The group sizes add up to the number of platforms. */
  lemma GroupedSize(ps: seq<Platform>, order: string)
    ensures Size(Grouped(ps, order)) == |ps|
  {
    var keys := Tally.Dedup(KeyList(ps));
    ListingSize(ps, order, keys);
    ListingOfIs(ps, order, keys);
    KeySizeTotal(ps);
    SizeSort(ByRankDesc(), Listing(ps, order));
  }

  /** Within a group the names ascend for `name-asc` and descend for `name-desc`. */
  lemma GroupedNamesOrdered(ps: seq<Platform>, order: string, g: PlatformGroup)
    requires g in Grouped(ps, order)
    ensures forall i, j :: 0 <= i < j < |g.platforms| ==>
      && (order == "name-asc" ==> StrLe(g.platforms[i].name, g.platforms[j].name))
      && (order == "name-desc" ==> StrLe(g.platforms[j].name, g.platforms[i].name))
  {
    GroupedMember(ps, order, g);
    SortedPlatformsOrdered(Filter(ps, InGroup(g.key)), order);
  }
}
