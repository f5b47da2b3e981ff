/**
 * `LibraryComponent`: joins the user's library entries with the fetched game records, filters
 * them by platform, sorts them, splits them into four buckets and pages each bucket on the
 * client, sixteen games a page, pages numbered from 1.
 */
module Library {
  import opened Wrappers
  import opened Models
  import opened Lists
  import opened GameOrder

  const PageSize: nat := 16

  /** A game record joined with its library entry (`Game & { status, isFavorite }`). */
  datatype LibraryGame = LibraryGame(game: Game, status: GameStatus, isFavorite: Option<bool>)

  datatype Category = Favorites | WantToPlayList | PlayingList | CompletedList

  /** One row of the pagination table. */
  datatype PageState = PageState(currentPage: int, totalPages: int)

  datatype Direction = Next | Prev

  function GameOf(x: LibraryGame): Game {
    x.game
  }

  /** `new Map(games.map(g => [g.id, g])).get(id)`: a later game with the same id wins. */
  function LookupGame(games: seq<Game>, id: int): (r: Option<Game>)
    ensures r.None? <==> forall k :: 0 <= k < |games| ==> games[k].id != id
    ensures r.Some? ==> exists k :: 0 <= k < |games| && games[k] == r.value && r.value.id == id
                                    && forall j :: k < j < |games| ==> games[j].id != id
  {
    if games == [] then None
    else if games[|games| - 1].id == id then Some(games[|games| - 1])
    else LookupGame(games[..|games| - 1], id)
  }

  /** The entries whose game came back in the batch. */
  function Known(games: seq<Game>): UserGame -> bool {
    (ug: UserGame) => LookupGame(games, ug.gameId).Some?
  }

  /** The join of `loadLibrary`: entries without a fetched game are dropped. */
  function Join(entries: seq<UserGame>, games: seq<Game>): (r: seq<LibraryGame>)
    ensures |r| <= |entries|
  {
    if entries == [] then []
    else
      var rest := Join(entries[1..], games);
      match LookupGame(games, entries[0].gameId)
      case Some(g) => [LibraryGame(g, entries[0].status, entries[0].isFavorite)] + rest
      case None => rest
  }

  /**
   * One record per entry whose game was fetched, in library order, carrying the entry's status
   * and favourite flag and the fetched game with that id.
   */
  lemma {:induction false} JoinMatchesEntries(entries: seq<UserGame>, games: seq<Game>)
    ensures var kept := Filter(entries, Known(games));
      var r := Join(entries, games);
      && |r| == |kept|
      && forall i :: 0 <= i < |r| ==>
           && r[i].status == kept[i].status
           && r[i].isFavorite == kept[i].isFavorite
           && Some(r[i].game) == LookupGame(games, kept[i].gameId)
  {
    if entries != [] {
      JoinMatchesEntries(entries[1..], games);
      var kept := Filter(entries, Known(games));
      var keptRest := Filter(entries[1..], Known(games));
      if Known(games)(entries[0]) {
        assert kept == [entries[0]] + keptRest;
      } else {
        assert kept == keptRest;
      }
    }
  }

  /** When every entry's game was fetched, no entry is lost. */
  lemma {:induction false} JoinKeepsAllKnown(entries: seq<UserGame>, games: seq<Game>)
    requires forall i :: 0 <= i < |entries| ==> LookupGame(games, entries[i].gameId).Some?
    ensures |Join(entries, games)| == |entries|
  {
    if entries != [] {
      JoinKeepsAllKnown(entries[1..], games);
    }
  }

  /** `Math.ceil(length / pageSize)`. */
  function TotalPages(length: nat): nat {
    (length + PageSize - 1) / PageSize
  }

  /** The pages hold the list, and the last page is not empty. */
  lemma TotalPagesBounds(length: nat)
    ensures TotalPages(length) * PageSize >= length
    ensures TotalPages(length) > 0 ==> (TotalPages(length) - 1) * PageSize < length
  {
  }

  /** The clamp of `updatePaginatedList`: only a page past the end moves, to `max(1, total)`. */
  function ClampPage(current: int, total: int): int {
    if current > total then (if total > 1 then total else 1) else current
  }

  /** `list.slice(start, end)` for `0 <= start`. */
  function Slice<T>(list: seq<T>, start: nat, end: int): seq<T> {
    var hi := if end < start then start else if end > |list| then |list| else end;
    if start >= |list| then [] else list[start..hi]
  }

  /** The games shown on a page (pages numbered from 1). */
  function VisiblePage<T>(list: seq<T>, page: int): seq<T>
    requires page >= 1
  {
    var start := (page - 1) * PageSize;
    Slice(list, start, start + PageSize)
  }

  /** A row the table may hold: at least page 1, and within the total when there are pages. */
  predicate PageOk(p: PageState) {
    && 1 <= p.currentPage
    && 0 <= p.totalPages
    && (p.totalPages > 0 ==> p.currentPage <= p.totalPages)
  }

  /** The clamp keeps a valid row valid for the new total, never raises the page and moves it only past the end. */
  lemma ClampPageSound(current: int, total: nat)
    requires current >= 1
    ensures PageOk(PageState(ClampPage(current, total), total))
    ensures ClampPage(current, total) <= current
    ensures ClampPage(current, total) != current ==> current > total && ClampPage(current, total) == if total > 1 then total else 1
  {
  }

  /** Page `p` shows at most sixteen games, namely those at positions `(p-1)*16 .. p*16`. */
  lemma VisiblePageContents<T>(list: seq<T>, page: int)
    requires page >= 1
    ensures |VisiblePage(list, page)| <= PageSize
    ensures forall k :: 0 <= k < |VisiblePage(list, page)| ==> VisiblePage(list, page)[k] == list[(page - 1) * PageSize + k]
  {
  }

  /** Every game of a bucket is on exactly one page in range. */
  lemma EveryGameOnSomePage<T>(list: seq<T>, k: nat)
    requires k < |list|
    ensures 1 <= k / PageSize + 1 <= TotalPages(|list|)
    ensures var page := k / PageSize + 1;
      |VisiblePage(list, page)| > k % PageSize && VisiblePage(list, page)[k % PageSize] == list[k]
  {
    var page := k / PageSize + 1;
    TotalPagesBounds(|list|);
    assert (page - 1) * PageSize == k - k % PageSize;
  }

  /** `platformId !== 'all' && allPlatforms.length > 0` and the id is found: keep that platform's games. */
  function FilterByPlatform(games: seq<LibraryGame>, platformId: PlatformFilter, allPlatforms: seq<Platform>): (r: seq<LibraryGame>)
    ensures !(platformId != AllPlatforms && |allPlatforms| > 0 && FindPlatform(allPlatforms, platformId).Some?) ==> r == games
    ensures platformId != AllPlatforms && |allPlatforms| > 0 && FindPlatform(allPlatforms, platformId).Some? ==>
      var name := FindPlatform(allPlatforms, platformId).value.name;
      forall x {:trigger multiset(r)[x]} :: multiset(r)[x] == if OnPlatform(x.game, name) then multiset(games)[x] else 0
  {
    if platformId != AllPlatforms && |allPlatforms| > 0 then
      match FindPlatform(allPlatforms, platformId)
      case Some(p) => KeepOnPlatform(games, p.name, GameOf)
      case None => games
    else games
  }

  function FavoritesOf(sorted: seq<LibraryGame>): seq<LibraryGame> {
    Filter(sorted, (x: LibraryGame) => x.isFavorite == Some(true))
  }

  function WithStatus(sorted: seq<LibraryGame>, status: GameStatus): seq<LibraryGame> {
    Filter(sorted, (x: LibraryGame) => x.status == status)
  }

  /** The list every bucket is cut from: filtered by platform, then sorted. */
  function Shaped(allGames: seq<LibraryGame>, sortKey: string, platformId: PlatformFilter, allPlatforms: seq<Platform>): seq<LibraryGame> {
    SortGames(FilterByPlatform(allGames, platformId, allPlatforms), sortKey, GameOf)
  }

  /** How many copies of `x` a status bucket holds. */
  lemma WithStatusCount(sorted: seq<LibraryGame>, status: GameStatus, x: LibraryGame)
    ensures multiset(WithStatus(sorted, status))[x] == if x.status == status then multiset(sorted)[x] else 0
  {
  }

  /**
   * The three status buckets and the games whose status is `NONE` split the list: every game is in
   * exactly one of them, and favourites is an extra tag on top.
   */
  lemma StatusBucketsPartition(sorted: seq<LibraryGame>)
    ensures multiset(WithStatus(sorted, WantToPlay)) + multiset(WithStatus(sorted, Playing))
          + multiset(WithStatus(sorted, Completed)) + multiset(WithStatus(sorted, NoStatus)) == multiset(sorted)
    ensures forall x :: x in FavoritesOf(sorted) <==> x in sorted && x.isFavorite == Some(true)
  {
    var a, b, c, d := WithStatus(sorted, WantToPlay), WithStatus(sorted, Playing), WithStatus(sorted, Completed), WithStatus(sorted, NoStatus);
    forall x ensures (multiset(a) + multiset(b) + multiset(c) + multiset(d))[x] == multiset(sorted)[x] {
      StatusCounts(sorted, x);
    }
    FavoritesAre(sorted);
  }

  /** The four buckets together hold each game as often as the list does. */
  lemma StatusCounts(sorted: seq<LibraryGame>, x: LibraryGame)
    ensures multiset(WithStatus(sorted, WantToPlay))[x] + multiset(WithStatus(sorted, Playing))[x]
          + multiset(WithStatus(sorted, Completed))[x] + multiset(WithStatus(sorted, NoStatus))[x] == multiset(sorted)[x]
  {
    WithStatusCount(sorted, WantToPlay, x);
    WithStatusCount(sorted, Playing, x);
    WithStatusCount(sorted, Completed, x);
    WithStatusCount(sorted, NoStatus, x);
  }

  lemma FavoritesAre(sorted: seq<LibraryGame>)
    ensures forall x :: x in FavoritesOf(sorted) <==> x in sorted && x.isFavorite == Some(true)
  {
    var f := FavoritesOf(sorted);
    forall x ensures x in f <==> x in sorted && x.isFavorite == Some(true) {
      assert multiset(f)[x] == if x.isFavorite == Some(true) then multiset(sorted)[x] else 0;
    }
  }

  /** Each bucket keeps the order of the sorted list it is cut from. */
  lemma BucketsSorted(allGames: seq<LibraryGame>, sortKey: string, platformId: PlatformFilter, allPlatforms: seq<Platform>, status: GameStatus)
    requires OrderFor(sortKey).Some?
    ensures var le := Lift(OrderFor(sortKey).value, GameOf);
      var sorted := Shaped(allGames, sortKey, platformId, allPlatforms);
      SortedBy(le, FavoritesOf(sorted)) && SortedBy(le, WithStatus(sorted, status))
  {
    var le := Lift(OrderFor(sortKey).value, GameOf);
    var filtered := FilterByPlatform(allGames, platformId, allPlatforms);
    var sorted := Shaped(allGames, sortKey, platformId, allPlatforms);
    SortGamesSorted(filtered, sortKey, GameOf);
    FilterKeepsSorted(sorted, (x: LibraryGame) => x.isFavorite == Some(true), le);
    FilterKeepsSorted(sorted, (x: LibraryGame) => x.status == status, le);
  }

  /** The row of the table after `updatePaginatedList` recomputed it for a list. */
  function Repaged(p: PageState, list: seq<LibraryGame>): PageState {
    var total := TotalPages(|list|);
    PageState(ClampPage(p.currentPage, total), total)
  }

  /** The table after `updatePaginatedList` ran for one category. */
  function Repage(m: map<Category, PageState>, c: Category, list: seq<LibraryGame>): map<Category, PageState>
    requires c in m
  {
    m[c := Repaged(m[c], list)]
  }

  predicate RowOk(m: map<Category, PageState>, c: Category) {
    c in m && PageOk(m[c])
  }

  predicate TableOk(m: map<Category, PageState>) {
    RowOk(m, Favorites) && RowOk(m, WantToPlayList) && RowOk(m, PlayingList) && RowOk(m, CompletedList)
  }

  /** A row agrees with its bucket: its total is the bucket's page count and the visible list is its current page. */
  predicate InSync(m: map<Category, PageState>, c: Category, bucket: seq<LibraryGame>, visible: seq<LibraryGame>) {
    && RowOk(m, c)
    && m[c].totalPages == TotalPages(|bucket|)
    && visible == VisiblePage(bucket, m[c].currentPage)
  }

  /** Re-paging a valid row gives a valid row in sync with the list. */
  lemma RepagedSound(p: PageState, list: seq<LibraryGame>)
    requires PageOk(p)
    ensures PageOk(Repaged(p, list))
    ensures Repaged(p, list).totalPages == TotalPages(|list|)
    ensures Repaged(p, list).currentPage <= p.currentPage
    ensures |VisiblePage(list, Repaged(p, list).currentPage)| <= PageSize
  {
    ClampPageSound(p.currentPage, TotalPages(|list|));
    VisiblePageContents(list, Repaged(p, list).currentPage);
  }

  /** The ids `getGamesByIds` is asked for, in library order. */
  function GameIds(entries: seq<UserGame>): (ids: seq<int>)
    ensures |ids| == |entries|
    ensures forall i :: 0 <= i < |ids| ==> ids[i] == entries[i].gameId
  {
    seq(|entries|, i requires 0 <= i < |entries| => entries[i].gameId)
  }

  /** The page `changePage` moves to, before the re-paging clamps it. */
  function Stepped(p: PageState, direction: Direction): (r: PageState)
    ensures r.totalPages == p.totalPages
    ensures direction == Next ==> r.currentPage == if p.currentPage < p.totalPages then p.currentPage + 1 else p.currentPage
    ensures direction == Prev ==> r.currentPage == if p.currentPage > 1 then p.currentPage - 1 else p.currentPage
  {
    if direction == Next && p.currentPage < p.totalPages then p.(currentPage := p.currentPage + 1)
    else if direction == Prev && p.currentPage > 1 then p.(currentPage := p.currentPage - 1)
    else p
  }

  /** A step keeps a row valid and moves its page by at most one. */
  lemma SteppedSound(p: PageState, direction: Direction)
    requires PageOk(p)
    ensures PageOk(Stepped(p, direction))
    ensures -1 <= Stepped(p, direction).currentPage - p.currentPage <= 1
  {
  }

  /**
   * What `loadLibrary`'s pipeline emits: `None` when the library request fails (the `error`
   * callback), the empty list for an empty library or a failed batch fetch, and otherwise the join.
   * `batch` is the answer to the batch request, which is only made for a non-empty library.
   */
  function LoadedGames(library: HttpResult<seq<UserGame>>, batch: HttpResult<seq<Game>>): (r: Option<seq<LibraryGame>>)
    ensures r.None? <==> library.Failure?
    ensures library.Success? && (library.value == [] || batch.Failure?) ==> r == Some([])
    ensures library.Success? && batch.Success? ==> |r.value| <= |library.value|
    ensures library.Success? && library.value != [] && batch.Success? ==> r == Some(Join(library.value, batch.value))
  {
    match library
    case Failure(_) => None
    case Success(entries) =>
      if entries == [] then Some([])
      else match batch
        case Failure(_) => Some([])
        case Success(games) => Some(Join(entries, games))
  }

  /** The four buckets `applyFilters` cuts from a sorted list. */
  predicate BucketsOf(sorted: seq<LibraryGame>, favorites: seq<LibraryGame>, wantToPlay: seq<LibraryGame>,
                      playing: seq<LibraryGame>, completed: seq<LibraryGame>)
  {
    && favorites == FavoritesOf(sorted)
    && wantToPlay == WithStatus(sorted, WantToPlay)
    && playing == WithStatus(sorted, Playing)
    && completed == WithStatus(sorted, Completed)
  }

  class LibraryView {
    var allGames: seq<LibraryGame>
    var favorites: seq<LibraryGame>
    var wantToPlay: seq<LibraryGame>
    var playing: seq<LibraryGame>
    var completed: seq<LibraryGame>
    var paginatedFavorites: seq<LibraryGame>
    var paginatedWantToPlay: seq<LibraryGame>
    var paginatedPlaying: seq<LibraryGame>
    var paginatedCompleted: seq<LibraryGame>
    var isLoading: bool
    var pagination: map<Category, PageState>
    var sortInput: string
    var platformFilterInput: PlatformFilter

    /** The table has a valid row for every category. */
    ghost predicate Valid()
      reads this
    {
      TableOk(pagination)
    }

    /** Totals and visible pages agree with the buckets. */
    ghost predicate Synced()
      reads this
    {
      && InSync(pagination, Favorites, favorites, paginatedFavorites)
      && InSync(pagination, WantToPlayList, wantToPlay, paginatedWantToPlay)
      && InSync(pagination, PlayingList, playing, paginatedPlaying)
      && InSync(pagination, CompletedList, completed, paginatedCompleted)
    }

    /** Every row is the re-paging of its row in `before` for the category's current bucket. */
    ghost predicate RepagedFrom(before: map<Category, PageState>)
      reads this
    {
      && Favorites in before && Favorites in pagination
      && pagination[Favorites] == Repaged(before[Favorites], favorites)
      && WantToPlayList in before && WantToPlayList in pagination
      && pagination[WantToPlayList] == Repaged(before[WantToPlayList], wantToPlay)
      && PlayingList in before && PlayingList in pagination
      && pagination[PlayingList] == Repaged(before[PlayingList], playing)
      && CompletedList in before && CompletedList in pagination
      && pagination[CompletedList] == Repaged(before[CompletedList], completed)
    }

    /** The bucket a category pages through. */
    function Bucket(c: Category): seq<LibraryGame>
      reads this
    {
      match c
      case Favorites => favorites
      case WantToPlayList => wantToPlay
      case PlayingList => playing
      case CompletedList => completed
    }

    constructor ()
      ensures Valid()
      ensures allGames == [] && isLoading
      ensures favorites == [] && wantToPlay == [] && playing == [] && completed == []
      ensures pagination == map[Favorites := PageState(1, 1), WantToPlayList := PageState(1, 1),
                                PlayingList := PageState(1, 1), CompletedList := PageState(1, 1)]
      ensures sortInput == "relevance" && platformFilterInput == AllPlatforms
    {
      allGames := [];
      favorites, wantToPlay, playing, completed := [], [], [], [];
      paginatedFavorites, paginatedWantToPlay, paginatedPlaying, paginatedCompleted := [], [], [], [];
      isLoading := true;
      pagination := map[Favorites := PageState(1, 1), WantToPlayList := PageState(1, 1),
                        PlayingList := PageState(1, 1), CompletedList := PageState(1, 1)];
      sortInput := "relevance";
      platformFilterInput := AllPlatforms;
    }

    /** `ngOnInit`: with a user id the library load starts; without one loading simply ends. */
    method Init(userId: Option<string>) returns (loads: bool)
      modifies this`isLoading
      ensures loads <==> Truthy(userId)
      ensures isLoading == loads
    {
      loads := Truthy(userId);
      isLoading := loads;
    }

    /**
     * `updatePaginatedList`: recompute the category's total, clamp its page and return the
     * visible slice. Only that category's row changes.
     */
    method UpdatePaginatedList(c: Category, list: seq<LibraryGame>) returns (visible: seq<LibraryGame>)
      requires RowOk(pagination, c)
      modifies this`pagination
      ensures pagination == Repage(old(pagination), c, list)
      ensures InSync(pagination, c, list, visible)
      ensures |visible| <= PageSize
    {
      var total := TotalPages(|list|);
      var current := pagination[c].currentPage;
      if current > total {
        current := if total > 1 then total else 1;
      }
      assert PageState(current, total) == Repaged(pagination[c], list);
      RepagedSound(pagination[c], list);
      pagination := pagination[c := PageState(current, total)];
      var start := (current - 1) * PageSize;
      visible := Slice(list, start, start + PageSize);
    }

    /** `updateAllPaginatedLists`: every row is recomputed for its bucket. */
    method UpdateAllPaginatedLists()
      requires Valid()
      modifies this`pagination, this`paginatedFavorites, this`paginatedWantToPlay, this`paginatedPlaying, this`paginatedCompleted
      ensures Valid() && Synced()
      ensures pagination.Keys == old(pagination).Keys
      ensures RepagedFrom(old(pagination))
    {
      paginatedFavorites := UpdatePaginatedList(Favorites, favorites);
      paginatedWantToPlay := UpdatePaginatedList(WantToPlayList, wantToPlay);
      paginatedPlaying := UpdatePaginatedList(PlayingList, playing);
      paginatedCompleted := UpdatePaginatedList(CompletedList, completed);
    }

    /** `applyFilters`: rebuild the four buckets from `allGames` and re-page them. */
    method ApplyFilters(sortKey: string, platformId: PlatformFilter, allPlatforms: seq<Platform>)
      requires Valid()
      modifies this`favorites, this`wantToPlay, this`playing, this`completed,
               this`pagination, this`paginatedFavorites, this`paginatedWantToPlay, this`paginatedPlaying, this`paginatedCompleted
      ensures Valid() && Synced()
      ensures BucketsOf(Shaped(allGames, sortKey, platformId, allPlatforms), favorites, wantToPlay, playing, completed)
      ensures RepagedFrom(old(pagination))
    {
      var sorted := Shaped(allGames, sortKey, platformId, allPlatforms);
      SetBuckets(sorted);
      UpdateAllPaginatedLists();
    }

    /** The bucket assignments of `applyFilters`. */
    method SetBuckets(sorted: seq<LibraryGame>)
      modifies this`favorites, this`wantToPlay, this`playing, this`completed
      ensures BucketsOf(sorted, favorites, wantToPlay, playing, completed)
    {
      favorites := FavoritesOf(sorted);
      wantToPlay := WithStatus(sorted, WantToPlay);
      playing := WithStatus(sorted, Playing);
      completed := WithStatus(sorted, Completed);
    }

    /**
     * `changePage`: `Next` moves on only before the last page, `Prev` moves back only after the
     * first; then every row is recomputed, so no other category's page moves unless its bucket shrank.
     */
    method ChangePage(c: Category, direction: Direction)
      requires Valid()
      modifies this`pagination, this`paginatedFavorites, this`paginatedWantToPlay, this`paginatedPlaying, this`paginatedCompleted
      ensures Valid() && Synced()
      ensures forall d: Category :: (d in pagination &&
        pagination[d] == Repaged(if d == c then Stepped(old(pagination)[c], direction) else old(pagination)[d], Bucket(d)))
    {
      SteppedSound(pagination[c], direction);
      pagination := pagination[c := Stepped(pagination[c], direction)];
      ghost var stepped := pagination;
      UpdateAllPaginatedLists();
      forall d: Category ensures d in pagination && pagination[d] == Repaged(stepped[d], Bucket(d)) {
        match d
        case Favorites =>
        case WantToPlayList =>
        case PlayingList =>
        case CompletedList =>
      }
    }

    /** The `error` callback of `loadLibrary`'s subscription: loading ends and nothing else changes. */
    method OnLibraryError()
      modifies this`isLoading
      ensures !isLoading
    {
      isLoading := false;
    }

    /**
     * The `next` callback of `loadLibrary`'s subscription: the pipeline's list replaces
     * `allGames` and the filters are re-applied with the current key and platform and an empty
     * platform list.
     */
    method OnLibraryGames(games: seq<LibraryGame>)
      requires Valid()
      modifies this`allGames, this`isLoading, this`favorites, this`wantToPlay, this`playing, this`completed,
               this`pagination, this`paginatedFavorites, this`paginatedWantToPlay, this`paginatedPlaying, this`paginatedCompleted
      ensures Valid() && Synced() && !isLoading
      ensures allGames == games
      ensures BucketsOf(Shaped(games, sortInput, platformFilterInput, []), favorites, wantToPlay, playing, completed)
      ensures RepagedFrom(old(pagination))
    {
      // The flag is cleared first; nothing reads it while the filters are re-applied.
      allGames, isLoading := games, false;
      ApplyFilters(sortInput, platformFilterInput, []);
    }

    /** `onSortChange`: publish the key and re-apply the filters. */
    method OnSortChange(value: string, allPlatforms: seq<Platform>)
      requires Valid()
      modifies this`sortInput, this`favorites, this`wantToPlay, this`playing, this`completed,
               this`pagination, this`paginatedFavorites, this`paginatedWantToPlay, this`paginatedPlaying, this`paginatedCompleted
      ensures Valid() && Synced()
      ensures sortInput == value
      ensures BucketsOf(Shaped(allGames, value, platformFilterInput, allPlatforms), favorites, wantToPlay, playing, completed)
      ensures RepagedFrom(old(pagination))
    {
      sortInput := value;
      ApplyFilters(sortInput, platformFilterInput, allPlatforms);
    }

    /** `onPlatformFilterChange`: `'all'` stays `'all'`, anything else goes through `Number`. */
    method OnPlatformFilterChange(value: string, allPlatforms: seq<Platform>)
      requires Valid()
      modifies this`platformFilterInput, this`favorites, this`wantToPlay, this`playing, this`completed,
               this`pagination, this`paginatedFavorites, this`paginatedWantToPlay, this`paginatedPlaying, this`paginatedCompleted
      ensures Valid() && Synced()
      ensures platformFilterInput == ParseFilterValue(value)
      ensures BucketsOf(Shaped(allGames, sortInput, platformFilterInput, allPlatforms), favorites, wantToPlay, playing, completed)
      ensures RepagedFrom(old(pagination))
    {
      platformFilterInput := ParseFilterValue(value);
      ApplyFilters(sortInput, platformFilterInput, allPlatforms);
    }
  }
}
