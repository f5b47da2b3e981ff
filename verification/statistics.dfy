/**
 * `StatisticsComponent`: genre, platform and release-year counts over the user's favourite games,
 * merged with the server's analytics by key and ordered by count, and the release-year range
 * filled with zeros for the chart.
 */
module Statistics {
  import opened Wrappers
  import opened Models
  import opened Strings
  import opened Lists
  import opened Tally

  const NoUserError: string := "No se ha podido obtener el ID de usuario."
  const LoadError: string := "Error al cargar las estadísticas."

  /** The part of the server's `UserStatistics` the view merges with its own counts. */
  datatype Analytics = Analytics(favoriteGenres: seq<Stat<string>>, favoritePlatforms: seq<Stat<string>>, favoriteReleaseYears: seq<Stat<int>>)

  /**
   * What the view shows. The average rating is kept as the sum of the ratings and the number of
   * rated games it is the quotient of.
   */
  datatype UserStatistics = UserStatistics(
    favoriteGenres: seq<Stat<string>>,
    favoritePlatforms: seq<Stat<string>>,
    favoriteReleaseYears: seq<Stat<int>>,
    totalGames: int,
    ratingSum: int,
    ratedCount: int)

  /** One bar of the release-year chart: the year as text and its count. */
  datatype YearPoint = YearPoint(name: string, value: int)

  /** `games.flatMap(g => g.genres || [])`. */
  function GenresOf(games: seq<Game>): seq<string> {
    if games == [] then [] else games[0].genres.GetOr([]) + GenresOf(games[1..])
  }

  /** `games.flatMap(g => g.platforms || [])`. */
  function PlatformsOf(games: seq<Game>): seq<string> {
    if games == [] then [] else games[0].platforms.GetOr([]) + PlatformsOf(games[1..])
  }

  /** The release years of the games that have a release date, in order. */
  function YearsOf(games: seq<Game>): seq<int> {
    if games == [] then []
    else (if games[0].releaseDate.Some? then [games[0].releaseDate.value.year] else []) + YearsOf(games[1..])
  }

  /** There is one year per dated game. */
  lemma {:induction false} YearsOfDated(games: seq<Game>)
    ensures |YearsOf(games)| == |Filter(games, (g: Game) => g.releaseDate.Some?)|
  {
    if games != [] {
      YearsOfDated(games[1..]);
    }
  }

  /**
   * Counting values one by one lists each distinct value once, in first-occurrence order, with the
   * number of times it occurs; the counts add up to the number of values.
   */
  lemma OccurrenceCounts<K(!new)>(xs: seq<K>)
    ensures UniqueKeys(Counts(Ones(xs)))
    ensures Keys(Counts(Ones(xs))) == Dedup(xs)
    ensures forall k :: SumFor(Counts(Ones(xs)), k) == multiset(xs)[k]
    ensures Total(Counts(Ones(xs))) == |xs|
  {
    CountsUnique(Ones(xs));
    CountsKeys(Ones(xs));
    assert Keys(Ones(xs)) == xs;
    forall k ensures SumFor(Counts(Ones(xs)), k) == multiset(xs)[k] {
      CountsSumFor(Ones(xs), k);
      OnesSumFor(xs, k);
    }
    CountsTotal(Ones(xs));
    OnesTotal(xs);
  }

  /** `calculateGenreStats`. */
  method GenreStats(games: seq<Game>) returns (r: seq<Stat<string>>)
    ensures r == Counts(Ones(GenresOf(games)))
  {
    r := Accumulate(Ones(GenresOf(games)));
  }

  /** `calculatePlatformStats`. */
  method PlatformStats(games: seq<Game>) returns (r: seq<Stat<string>>)
    ensures r == Counts(Ones(PlatformsOf(games)))
  {
    r := Accumulate(Ones(PlatformsOf(games)));
  }

  /** `calculateYearStats`: games without a release date are skipped. */
  method YearStats(games: seq<Game>) returns (r: seq<Stat<int>>)
    ensures r == Counts(Ones(YearsOf(games)))
  {
    r := Accumulate(Ones(YearsOf(games)));
  }

  /** The year counts add up to the number of dated games. */
  lemma YearStatsTotal(games: seq<Game>)
    ensures Total(Counts(Ones(YearsOf(games)))) == |Filter(games, (g: Game) => g.releaseDate.Some?)|
  {
    OccurrenceCounts(YearsOf(games));
    YearsOfDated(games);
  }

  /** `(a, b) => b.count - a.count` as "a may stay before b". */
  function ByCountDesc<K>(): (Stat<K>, Stat<K>) -> bool {
    (a: Stat<K>, b: Stat<K>) => b.count <= a.count
  }

  lemma ByCountDescTotalPreorder<K(!new)>()
    ensures TotalPreorder(ByCountDesc<K>())
  {
  }

  /** `combineStats`: both lists counted into one map, historical rows first, then sorted by count. */
  function Combined<K(==,!new)>(historical: seq<Stat<K>>, realtime: seq<Stat<K>>): seq<Stat<K>> {
    Sort(ByCountDesc(), Counts(historical + realtime))
  }

  /** `combineStats` as the loops and the sort of the source. */
  method CombineStats<K(==,!new)>(historical: seq<Stat<K>>, realtime: seq<Stat<K>>) returns (r: seq<Stat<K>>)
    ensures r == Combined(historical, realtime)
  {
    var counted := Accumulate(historical + realtime);
    r := Sort(ByCountDesc(), counted);
  }

  lemma {:induction false} SumForInsert<K(!new)>(le: (Stat<K>, Stat<K>) -> bool, s: seq<Stat<K>>, x: Stat<K>, k: K)
    ensures SumFor(Insert(le, s, x), k) == SumFor(s, k) + (if x.key == k then x.count else 0)
  {
    if s != [] && le(s[0], x) {
      SumForInsert(le, s[1..], x, k);
    }
  }

  lemma {:induction false} SumForSort<K(!new)>(le: (Stat<K>, Stat<K>) -> bool, s: seq<Stat<K>>, k: K)
    ensures SumFor(Sort(le, s), k) == SumFor(s, k)
  {
    if s != [] {
      var init, last := s[..|s| - 1], s[|s| - 1];
      SumForSort(le, init, k);
      SumForInsert(le, Sort(le, init), last, k);
      assert s == init + [last];
      SumForAppend(init, [last], k);
    }
  }

  lemma {:induction false} TotalInsert<K(!new)>(le: (Stat<K>, Stat<K>) -> bool, s: seq<Stat<K>>, x: Stat<K>)
    ensures Total(Insert(le, s, x)) == Total(s) + x.count
  {
    if s != [] && le(s[0], x) {
      TotalInsert(le, s[1..], x);
    }
  }

  lemma {:induction false} TotalSort<K(!new)>(le: (Stat<K>, Stat<K>) -> bool, s: seq<Stat<K>>)
    ensures Total(Sort(le, s)) == Total(s)
  {
    if s != [] {
      var init, last := s[..|s| - 1], s[|s| - 1];
      TotalSort(le, init);
      TotalInsert(le, Sort(le, init), last);
      assert s == init + [last];
      TotalAppend(init, [last]);
    }
  }

  /** The number of rows with key `k`. */
  function KeyCount<K(==)>(s: seq<Stat<K>>, k: K): nat {
    if s == [] then 0 else (if s[0].key == k then 1 else 0) + KeyCount(s[1..], k)
  }

  lemma {:induction false} KeyCountAppend<K(!new)>(s: seq<Stat<K>>, t: seq<Stat<K>>, k: K)
    ensures KeyCount(s + t, k) == KeyCount(s, k) + KeyCount(t, k)
  {
    if s == [] {
      assert s + t == t;
    } else {
      assert (s + t)[1..] == s[1..] + t;
      KeyCountAppend(s[1..], t, k);
    }
  }

  lemma {:induction false} KeyCountInsert<K(!new)>(le: (Stat<K>, Stat<K>) -> bool, s: seq<Stat<K>>, x: Stat<K>, k: K)
    ensures KeyCount(Insert(le, s, x), k) == KeyCount(s, k) + (if x.key == k then 1 else 0)
  {
    if s != [] && le(s[0], x) {
      KeyCountInsert(le, s[1..], x, k);
    }
  }

  lemma {:induction false} KeyCountSort<K(!new)>(le: (Stat<K>, Stat<K>) -> bool, s: seq<Stat<K>>, k: K)
    ensures KeyCount(Sort(le, s), k) == KeyCount(s, k)
  {
    if s != [] {
      var init, last := s[..|s| - 1], s[|s| - 1];
      KeyCountSort(le, init, k);
      KeyCountInsert(le, Sort(le, init), last, k);
      KeyCountLast(s, k);
    }
  }

  lemma KeyCountLast<K(!new)>(s: seq<Stat<K>>, k: K)
    requires s != []
    ensures KeyCount(s, k) == KeyCount(s[..|s| - 1], k) + if s[|s| - 1].key == k then 1 else 0
  {
    assert s == s[..|s| - 1] + [s[|s| - 1]];
    KeyCountAppend(s[..|s| - 1], [s[|s| - 1]], k);
  }

  /** In a list with distinct keys, a key has one row if it is listed and none otherwise. */
  lemma {:induction false} KeyCountUnique<K(!new)>(s: seq<Stat<K>>, k: K)
    requires UniqueKeys(s)
    ensures KeyCount(s, k) == if k in Keys(s) then 1 else 0
  {
    if s != [] {
      assert UniqueKeys(s[1..]) by {
        forall i, j | 0 <= i < j < |s[1..]| ensures s[1..][i].key != s[1..][j].key {
          assert s[1..][i] == s[i + 1] && s[1..][j] == s[j + 1];
        }
      }
      KeyCountUnique(s[1..], k);
      assert Keys(s) == [s[0].key] + Keys(s[1..]);
      if s[0].key == k {
        forall i | 0 <= i < |s[1..]| ensures Keys(s[1..])[i] != k {
          assert s[1..][i] == s[i + 1];
        }
      }
    }
  }

  /**
   * `combineStats` lists each key of either input once, with the sum of its counts in both
   * inputs, and the grand total is the sum of the two totals.
   */
  lemma CombinedCounts<K(!new)>(historical: seq<Stat<K>>, realtime: seq<Stat<K>>)
    ensures forall k :: SumFor(Combined(historical, realtime), k) == SumFor(historical, k) + SumFor(realtime, k)
    ensures forall k :: KeyCount(Combined(historical, realtime), k) == if k in Keys(historical + realtime) then 1 else 0
    ensures Total(Combined(historical, realtime)) == Total(historical) + Total(realtime)
  {
    var es := historical + realtime;
    var c := Counts(es);
    forall k ensures SumFor(Combined(historical, realtime), k) == SumFor(historical, k) + SumFor(realtime, k) {
      SumForSort(ByCountDesc(), c, k);
      CountsSumFor(es, k);
      SumForAppend(historical, realtime, k);
    }
    forall k ensures KeyCount(Combined(historical, realtime), k) == if k in Keys(es) then 1 else 0 {
      KeyCountSort(ByCountDesc(), c, k);
      CountsUnique(es);
      KeyCountUnique(c, k);
      CountsKeys(es);
    }
    TotalSort(ByCountDesc(), c);
    CountsTotal(es);
    TotalAppend(historical, realtime);
  }

  /** `combineStats` is ordered by count, largest first. */
  lemma CombinedOrdered<K(!new)>(historical: seq<Stat<K>>, realtime: seq<Stat<K>>)
    ensures var r := Combined(historical, realtime);
      forall i, j :: 0 <= i < j < |r| ==> r[i].count >= r[j].count
  {
    ByCountDescTotalPreorder<K>();
    SortSorted(ByCountDesc<K>(), Counts(historical + realtime));
  }

  /** `Math.min(...keys)`. */
  function MinKey(ys: seq<Stat<int>>): (m: int)
    requires ys != []
    ensures (exists i :: 0 <= i < |ys| && ys[i].key == m) && forall i :: 0 <= i < |ys| ==> m <= ys[i].key
  {
    if |ys| == 1 then ys[0].key
    else
      var rest := MinKey(ys[1..]);
      assert forall i :: 1 <= i < |ys| ==> ys[i] == ys[1..][i - 1];
      if ys[0].key <= rest then ys[0].key else rest
  }

  /** `Math.max(...keys)`. */
  function MaxKey(ys: seq<Stat<int>>): (m: int)
    requires ys != []
    ensures (exists i :: 0 <= i < |ys| && ys[i].key == m) && forall i :: 0 <= i < |ys| ==> ys[i].key <= m
  {
    if |ys| == 1 then ys[0].key
    else
      var rest := MaxKey(ys[1..]);
      assert forall i :: 1 <= i < |ys| ==> ys[i] == ys[1..][i - 1];
      if ys[0].key >= rest then ys[0].key else rest
  }

  /** What `fullYearRange.set` leaves for year `y` after the rows were applied in order: the last row's count, or 0. */
  function LastCount(ys: seq<Stat<int>>, y: int): int {
    if ys == [] then 0
    else if ys[|ys| - 1].key == y then ys[|ys| - 1].count
    else LastCount(ys[..|ys| - 1], y)
  }

  /** For distinct years the last row is the only row: `LastCount` is that year's count. */
  lemma {:induction false} LastCountUnique(ys: seq<Stat<int>>, y: int)
    requires UniqueKeys(ys)
    ensures LastCount(ys, y) == SumFor(ys, y)
  {
    if ys != [] {
      var init, last := ys[..|ys| - 1], ys[|ys| - 1];
      LastCountUnique(init, y);
      assert ys == init + [last];
      SumForAppend(init, [last], y);
      if last.key == y {
        SumForAbsent(init, y);
      }
    }
  }

  lemma {:induction false} SumForAbsent<K(!new)>(s: seq<Stat<K>>, k: K)
    requires forall i :: 0 <= i < |s| ==> s[i].key != k
    ensures SumFor(s, k) == 0
  {
    if s != [] {
      SumForAbsent(s[1..], k);
    }
  }

  /** `Number(p.name)`, for the names the view writes. */
  function NameNumber(p: YearPoint): int {
    ParseNumber(p.name).GetOr(0)
  }

  /** `(a, b) => Number(a.name) - Number(b.name)` as "a may stay before b". */
  function ByYearName(): (YearPoint, YearPoint) -> bool {
    (a: YearPoint, b: YearPoint) => NameNumber(a) <= NameNumber(b)
  }

  /** The chart data: every year from `lo` to `hi` once, ascending, with its count or 0. */
  function YearRange(lo: int, hi: int, ys: seq<Stat<int>>): (r: seq<YearPoint>)
    ensures |r| == if hi < lo then 0 else hi - lo + 1
  {
    if hi < lo then []
    else seq(hi - lo + 1, i requires 0 <= i < hi - lo + 1 => YearPoint(IntToString(lo + i), LastCount(ys, lo + i)))
  }

  /** The years of the chart read back in ascending order, one apart. */
  lemma YearRangeAscending(lo: int, hi: int, ys: seq<Stat<int>>)
    ensures var r := YearRange(lo, hi, ys);
      && (forall i :: 0 <= i < |r| ==> ParseNumber(r[i].name) == Some(lo + i))
      && SortedBy(ByYearName(), r)
  {
    var r := YearRange(lo, hi, ys);
    forall i | 0 <= i < |r| ensures ParseNumber(r[i].name) == Some(lo + i) {
      ParseIntToString(lo + i);
    }
  }

  /** Every year with a row is in the chart at its offset from the first year. */
  lemma YearRangeCovers(ys: seq<Stat<int>>, i: int)
    requires 0 <= i < |ys|
    ensures var lo, hi := MinKey(ys), MaxKey(ys);
      var r := YearRange(lo, hi, ys);
      0 <= ys[i].key - lo < |r| && r[ys[i].key - lo] == YearPoint(IntToString(ys[i].key), LastCount(ys, ys[i].key))
  {
    var lo, hi := MinKey(ys), MaxKey(ys);
    var k := ys[i].key - lo;
    assert lo <= ys[i].key <= hi;
    assert lo + k == ys[i].key;
  }

  /** The first loop of the fill: every year from `lo` to `hi`, in order, each mapped to 0. */
  method ZeroYears(lo: int, hi: int) returns (keys: seq<int>, range: map<int, int>)
    requires lo <= hi
    ensures |keys| == hi - lo + 1
    ensures forall j :: 0 <= j < |keys| ==> keys[j] == lo + j
    ensures forall y :: y in range <==> lo <= y <= hi
    ensures forall y :: y in range ==> range[y] == 0
  {
    keys, range := [], map[];
    for year := lo to hi + 1
      invariant |keys| == year - lo
      invariant forall j :: 0 <= j < |keys| ==> keys[j] == lo + j
      invariant forall y :: y in range <==> lo <= y < year
      invariant forall y :: y in range ==> range[y] == 0
    {
      keys := keys + [year];
      range := range[year := 0];
    }
  }

  /** The second loop of the fill: each row overwrites its year, so the last row of a year wins. */
  method OverlayCounts(ys: seq<Stat<int>>, lo: int, hi: int, zeros: map<int, int>) returns (range: map<int, int>)
    requires forall i :: 0 <= i < |ys| ==> lo <= ys[i].key <= hi
    requires forall y :: y in zeros <==> lo <= y <= hi
    requires forall y :: y in zeros ==> zeros[y] == 0
    ensures forall y :: y in range <==> lo <= y <= hi
    ensures forall y :: y in range ==> range[y] == LastCount(ys, y)
  {
    range := zeros;
    for i := 0 to |ys|
      invariant forall y :: y in range <==> lo <= y <= hi
      invariant forall y :: y in range ==> range[y] == LastCount(ys[..i], y)
    {
      LastCountStep(ys, i);
      range := range[ys[i].key := ys[i].count];
    }
    assert ys[..|ys|] == ys;
  }

  lemma LastCountStep(ys: seq<Stat<int>>, i: int)
    requires 0 <= i < |ys|
    ensures forall y :: LastCount(ys[..i + 1], y) == if ys[i].key == y then ys[i].count else LastCount(ys[..i], y)
  {
    var next := ys[..i + 1];
    assert next[..|next| - 1] == ys[..i] && next[|next| - 1] == ys[i];
    forall y ensures LastCount(next, y) == if ys[i].key == y then ys[i].count else LastCount(ys[..i], y) {
    }
  }

  /**
   * The year-range fill of `ngOnInit`: a map from every year between the smallest and the
   * largest to 0, overwritten by the rows, listed and sorted by year.
   */
  method FillYearRange(ys: seq<Stat<int>>) returns (points: seq<YearPoint>)
    requires ys != []
    ensures points == YearRange(MinKey(ys), MaxKey(ys), ys)
  {
    var lo, hi := MinKey(ys), MaxKey(ys);
    var keys, zeros := ZeroYears(lo, hi);
    var range := OverlayCounts(ys, lo, hi, zeros);
    var listed := seq(|keys|, j requires 0 <= j < |keys| => YearPoint(IntToString(keys[j]), range[keys[j]]));
    assert listed == YearRange(lo, hi, ys);
    YearRangeAscending(lo, hi, ys);
    SortOfSorted(ByYearName(), listed);
    points := Sort(ByYearName(), listed);
  }

  /** The library entries the historical counts are built from. */
  function FavoriteEntries(userGames: seq<UserGame>): seq<UserGame> {
    Filter(userGames, IsFavorite)
  }

  /** The batch request of the library stage: the favourites' game ids, or none at all. */
  function BatchIds(userGames: seq<UserGame>): (r: Option<seq<int>>)
    ensures r.None? <==> forall u :: u in userGames ==> !IsFavorite(u)
    ensures r.Some? ==> |r.value| == |FavoriteEntries(userGames)|
    ensures r.Some? ==> forall i :: 0 <= i < |r.value| ==> r.value[i] == FavoriteEntries(userGames)[i].gameId
  {
    var favorites := FavoriteEntries(userGames);
    if favorites == [] then
      assert forall u :: u in userGames ==> !IsFavorite(u) by {
        forall u | u in userGames ensures !IsFavorite(u) {
          assert multiset(favorites)[u] == if IsFavorite(u) then multiset(userGames)[u] else 0;
        }
      }
      None
    else
      assert favorites[0] in favorites;
      FilterSubset(userGames, IsFavorite, favorites[0]);
      Some(seq(|favorites|, i requires 0 <= i < |favorites| => favorites[i].gameId))
  }

  /**
   * The library stage of the statistics request: the favourite games and entries, empty without
   * favourites (no batch call); `None` when the library or the batch call fails.
   */
  function LibraryStage(library: HttpResult<seq<UserGame>>, batch: HttpResult<seq<Game>>): (r: Option<(seq<Game>, seq<UserGame>)>)
    ensures library.Success? && BatchIds(library.value).None? ==> r == Some(([], []))
    ensures r.Some? ==> library.Success? && r.value.1 == FavoriteEntries(library.value)
    ensures r.None? <==> library.Failure? || (BatchIds(library.value).Some? && batch.Failure?)
    ensures library.Success? && BatchIds(library.value).Some? && batch.Success? ==>
      r == Some((batch.value, FavoriteEntries(library.value)))
  {
    match library
    case Failure(_) => None
    case Success(userGames) =>
      if BatchIds(userGames).None? then Some(([], []))
      else match batch
        case Success(games) => Some((games, FavoriteEntries(userGames)))
        case Failure(_) => None
  }

  /** The sum of `rating || 0`. */
  function RatingSum(games: seq<Game>): int {
    if games == [] then 0 else games[0].rating.GetOr(0) + RatingSum(games[1..])
  }

  function Rated(games: seq<Game>): seq<Game> {
    Filter(games, (g: Game) => g.rating.Some?)
  }

  /** The statistics built from the fetched favourites and the server's analytics. */
  function Summary(games: seq<Game>, favorites: seq<UserGame>, analytics: Analytics): (s: UserStatistics)
    ensures s.totalGames == |favorites|
    ensures s.ratedCount <= |games|
  {
    UserStatistics(
      Combined(Counts(Ones(GenresOf(games))), analytics.favoriteGenres),
      Combined(Counts(Ones(PlatformsOf(games))), analytics.favoritePlatforms),
      Combined(Counts(Ones(YearsOf(games))), analytics.favoriteReleaseYears),
      |favorites|,
      RatingSum(Rated(games)),
      |Rated(games)|)
  }

  /**
   * Each genre of the summary is counted once per occurrence in the favourites' genre lists plus
   * the server's count for it.
   */
  lemma SummaryGenres(games: seq<Game>, favorites: seq<UserGame>, analytics: Analytics, genre: string)
    ensures SumFor(Summary(games, favorites, analytics).favoriteGenres, genre)
         == multiset(GenresOf(games))[genre] + SumFor(analytics.favoriteGenres, genre)
  {
    CombinedCounts(Counts(Ones(GenresOf(games))), analytics.favoriteGenres);
    OccurrenceCounts(GenresOf(games));
  }

  /** Without favourites, the summary holds only the server's counts and `totalGames` is 0. */
  lemma SummaryWithoutFavorites(analytics: Analytics)
    ensures var s := Summary([], [], analytics);
      && s.totalGames == 0 && s.ratedCount == 0
      && forall genre :: SumFor(s.favoriteGenres, genre) == SumFor(analytics.favoriteGenres, genre)
  {
    forall genre ensures SumFor(Summary([], [], analytics).favoriteGenres, genre) == SumFor(analytics.favoriteGenres, genre) {
      SummaryGenres([], [], analytics, genre);
    }
  }

  class StatisticsView {
    var statistics: Option<UserStatistics>
    var loading: bool
    var error: Option<string>
    var releaseYearData: seq<YearPoint>

    constructor ()
      ensures statistics.None? && loading && error.None? && releaseYearData == []
    {
      statistics := None;
      loading := true;
      error := None;
      releaseYearData := [];
    }

    /** `ngOnInit` before the requests: without a user id the error is shown and nothing is fetched. */
    method Init(userId: Option<string>) returns (fetches: bool)
      modifies this`loading, this`error
      ensures fetches <==> Truthy(userId)
      ensures !fetches ==> error == Some(NoUserError) && !loading
      ensures fetches ==> error == old(error) && loading == old(loading)
    {
      fetches := Truthy(userId);
      if !fetches {
        error := Some(NoUserError);
        loading := false;
      }
    }

    /**
     * The `forkJoin` subscription: when both the analytics and the library stage succeed the
     * summary is stored and, if it has release years, the chart is refilled; any failure sets the
     * error message. Either way loading ends.
     */
    method Settle(analytics: HttpResult<Analytics>, library: HttpResult<seq<UserGame>>, batch: HttpResult<seq<Game>>)
      modifies this`statistics, this`loading, this`error, this`releaseYearData
      ensures !loading
      ensures var stage := LibraryStage(library, batch);
        if analytics.Success? && stage.Some? then
          var s := Summary(stage.value.0, stage.value.1, analytics.value);
          && statistics == Some(s)
          && error == old(error)
          && releaseYearData == (if s.favoriteReleaseYears == [] then old(releaseYearData)
                                 else YearRange(MinKey(s.favoriteReleaseYears), MaxKey(s.favoriteReleaseYears), s.favoriteReleaseYears))
        else
          error == Some(LoadError) && statistics == old(statistics) && releaseYearData == old(releaseYearData)
    {
      var stage := LibraryStage(library, batch);
      if analytics.Success? && stage.Some? {
        var (games, favorites) := stage.value;
        var server := analytics.value;
        var genres := GenreStats(games);
        var platforms := PlatformStats(games);
        var years := YearStats(games);
        var combinedGenres := CombineStats(genres, server.favoriteGenres);
        var combinedPlatforms := CombineStats(platforms, server.favoritePlatforms);
        var combinedYears := CombineStats(years, server.favoriteReleaseYears);
        var rated := Rated(games);
        var s := UserStatistics(combinedGenres, combinedPlatforms, combinedYears, |favorites|, RatingSum(rated), |rated|);
        statistics := Some(s);
        if combinedYears != [] {
          releaseYearData := FillYearRange(combinedYears);
        }
      } else {
        error := Some(LoadError);
      }
      loading := false;
    }
  }
}
