/**
 * `HomeComponent`: the latest-releases request built from the sort key, the platform selector and
 * the clock, and the search pipeline: the empty-term gate, the platform-name filter, the
 * `hasResults` flag and the client-side sort of the results.
 */
module Home {
  import opened Wrappers
  import opened Models
  import opened Strings
  import opened Lists
  import opened GameOrder

  const LatestLimit: int := 50
  const DefaultApiSort: string := "first_release_date desc"
  const PlatformClause: string := " & platforms.id = "

  /** The back end's sort clause for a sort key; any key it does not know gets the default. */
  function ApiSortFor(key: string): (s: string)
    ensures s in {"name asc", "name desc", "first_release_date desc", "first_release_date asc", "rating desc"}
    ensures key == "name-asc" ==> s == "name asc"
    ensures key == "name-desc" ==> s == "name desc"
    ensures key == "date-desc" ==> s == "first_release_date desc"
    ensures key == "date-asc" ==> s == "first_release_date asc"
    ensures key == "rating-desc" ==> s == "rating desc"
    ensures key !in {"name-asc", "name-desc", "date-desc", "date-asc", "rating-desc"} ==> s == DefaultApiSort
    ensures OrderFor(key).None? ==> s == DefaultApiSort
  {
    match key
    case "name-asc" => "name asc"
    case "name-desc" => "name desc"
    case "date-desc" => "first_release_date desc"
    case "date-asc" => "first_release_date asc"
    case "rating-desc" => "rating desc"
    case _ => DefaultApiSort
  }

  /**
   * The default clause is sent exactly for the key `date-desc` and for keys the client-side sort
   * does not know either; every other key gets a clause of its own.
   */
  lemma ApiSortDefaultIff(key: string)
    ensures ApiSortFor(key) == DefaultApiSort <==> key == "date-desc" || OrderFor(key).None?
  {
  }

  /** Two keys the client-side sort knows are sent as the same clause only if they are the same key. */
  lemma ApiSortInjectiveOnKnownKeys(k1: string, k2: string)
    requires OrderFor(k1).Some? && OrderFor(k2).Some?
    requires ApiSortFor(k1) == ApiSortFor(k2)
    ensures k1 == k2
  {
  }

  /** How a platform id is written into the template: a number, or `NaN`. */
  function PlatformText(id: PlatformFilter): (s: string)
    requires id != AllPlatforms
    ensures id.PlatformId? ==> ParseNumber(s) == Some(id.id)
    ensures id.NotANumber? ==> ParseNumber(s).None?
  {
    match id
    case PlatformId(n) => ParseIntToString(n); IntToString(n)
    case NotANumber => "NaN"
  }

  /** The clause every latest-releases request starts with; `now` is `Date.now()` in milliseconds. */
  function BaseFilter(now: int): string {
    "involved_companies != null & first_release_date <= " + IntToString(now / 1000)
  }

  /** The request of the `latestGames$` pipeline. */
  function LatestRequest(sortKey: string, platformId: PlatformFilter, now: int): (r: FilterRequest)
    ensures r.limit == LatestLimit && r.offset.None? && r.sort == ApiSortFor(sortKey)
    ensures platformId == AllPlatforms ==> r.filter == BaseFilter(now)
    ensures platformId != AllPlatforms ==> r.filter == BaseFilter(now) + PlatformClause + PlatformText(platformId)
  {
    var filter := if platformId == AllPlatforms then BaseFilter(now)
                  else BaseFilter(now) + PlatformClause + PlatformText(platformId);
    FilterRequest(filter, ApiSortFor(sortKey), LatestLimit, None)
  }

  /** The time bound is the current instant in whole seconds, rounded down. */
  lemma BaseFilterBound(now: int)
    ensures var secs := now / 1000; secs * 1000 <= now < secs * 1000 + 1000
    ensures ParseNumber(BaseFilter(now)[|"involved_companies != null & first_release_date <= "|..]) == Some(now / 1000)
  {
    var prefix := "involved_companies != null & first_release_date <= ";
    assert BaseFilter(now)[|prefix|..] == IntToString(now / 1000);
    ParseIntToString(now / 1000);
  }

  /** The platform selection can be read back from the filter: different selections give different filters. */
  lemma LatestFilterDeterminesPlatform(sortKey: string, p1: PlatformFilter, p2: PlatformFilter, now: int)
    requires LatestRequest(sortKey, p1, now).filter == LatestRequest(sortKey, p2, now).filter
    ensures p1 == p2
  {
    var base := BaseFilter(now);
    var head := base + PlatformClause;
    if p1 != AllPlatforms && p2 != AllPlatforms {
      var f1 := head + PlatformText(p1);
      var f2 := head + PlatformText(p2);
      assert f1 == base + PlatformClause + PlatformText(p1);
      assert f2 == base + PlatformClause + PlatformText(p2);
      assert f1[|head|..] == PlatformText(p1);
      assert f2[|head|..] == PlatformText(p2);
    }
  }

  /** `isSearching$`: the raw term is non-empty; no trimming. */
  function IsSearching(term: string): (r: bool)
    ensures r <==> |term| > 0
  {
    term != ""
  }

  /**
   * The name the search filter uses: the selected platform's name when the selector is not
   * `'all'`, the id is found and the name is non-empty.
   */
  function SelectedName(platformId: PlatformFilter, allPlatforms: seq<Platform>): (r: Option<string>)
    ensures r.Some? ==> r.value != [] && exists p :: p in allPlatforms && platformId == PlatformId(p.id) && p.name == r.value
    ensures platformId == AllPlatforms ==> r.None?
  {
    if platformId == AllPlatforms then None
    else match FindPlatform(allPlatforms, platformId)
      case Some(p) => if p.name != "" then Some(p.name) else None
      case None => None
  }

  /** The platform stage of the search pipeline. */
  function FilterSearch(games: seq<Game>, platformId: PlatformFilter, allPlatforms: seq<Platform>): (r: seq<Game>)
    ensures SelectedName(platformId, allPlatforms).None? ==> r == games
    ensures SelectedName(platformId, allPlatforms).Some? ==>
      forall g {:trigger multiset(r)[g]} :: multiset(r)[g] == if OnPlatform(g, SelectedName(platformId, allPlatforms).value) then multiset(games)[g] else 0
  {
    match SelectedName(platformId, allPlatforms)
    case Some(name) => KeepOnPlatform(games, name, (g: Game) => g)
    case None => games
  }

  /** The games the platform stage keeps appear in the response, in the response's order. */
  lemma FilterSearchKeepsOrder(games: seq<Game>, platformId: PlatformFilter, allPlatforms: seq<Platform>, le: (Game, Game) -> bool)
    requires SortedBy(le, games)
    ensures SortedBy(le, FilterSearch(games, platformId, allPlatforms))
  {
    match SelectedName(platformId, allPlatforms)
    case Some(name) => KeepOnPlatformKeepsSorted(games, name, (g: Game) => g, le);
    case None =>
  }

  /**
   * One emission of the search pipeline: `None` when the term is empty (no search call is made
   * and the result is the empty list), otherwise the platform stage applied to the response, or
   * `None` when the response failed (the stream emits nothing).
   */
  function SearchStage(term: string, platformId: PlatformFilter, allPlatforms: seq<Platform>, response: HttpResult<seq<Game>>): (r: Option<seq<Game>>)
    ensures term == "" ==> r == Some([])
    ensures term != "" && response.Failure? ==> r.None?
    ensures term != "" && response.Success? ==> r == Some(FilterSearch(response.value, platformId, allPlatforms))
  {
    if term == "" then Some([])
    else match response
      case Success(games) => Some(FilterSearch(games, platformId, allPlatforms))
      case Failure(_) => None
  }

  /** The `searchResults$` stage: the empty list stays empty, a known key sorts a copy, any other key returns the list. */
  function SortSearchResults(games: seq<Game>, sortKey: string): (r: seq<Game>)
    ensures multiset(r) == multiset(games)
    ensures games == [] || OrderFor(sortKey).None? ==> r == games
  {
    if games == [] then [] else SortGames(games, sortKey, (g: Game) => g)
  }

  /** Results for a known key come out ordered by that key. */
  lemma SortSearchResultsSorted(games: seq<Game>, sortKey: string)
    requires OrderFor(sortKey).Some?
    ensures SortedBy(Lift(OrderFor(sortKey).value, (g: Game) => g), SortSearchResults(games, sortKey))
  {
    if games != [] {
      SortGamesSorted(games, sortKey, (g: Game) => g);
    }
  }

  /** The state `HomeComponent` keeps: its three inputs and the two fields the search taps set. */
  class HomeView {
    var searchInput: string
    var sortInput: string
    var platformFilterInput: PlatformFilter
    var lastSearchTerm: Option<string>
    var hasResults: bool
    /**
     * The search pipeline has ended: a failed search reaches it uncaught, and a stream that has
     * errored emits nothing more, whatever the inputs do afterwards.
     */
    var searchEnded: bool

    constructor ()
      ensures searchInput == "" && sortInput == "relevance" && platformFilterInput == AllPlatforms
      ensures lastSearchTerm.None? && hasResults && !searchEnded
    {
      searchEnded := false;
      searchInput := "";
      sortInput := "relevance";
      platformFilterInput := AllPlatforms;
      lastSearchTerm := None;
      hasResults := true;
    }

    /** The request the latest-releases list is loaded with at instant `now`. */
    function LatestGamesRequest(now: int): (r: FilterRequest)
      reads this
      ensures r.limit == LatestLimit && r.sort == ApiSortFor(sortInput)
      ensures platformFilterInput == AllPlatforms <==> r.filter == BaseFilter(now)
    {
      LatestRequestAllIffBase(sortInput, platformFilterInput, now);
      LatestRequest(sortInput, platformFilterInput, now)
    }

    /** `onSearch`. */
    method OnSearch(value: string)
      modifies this`searchInput
      ensures searchInput == value
    {
      searchInput := value;
    }

    /** `clearSearch`: the term becomes empty, so the view stops searching. */
    method ClearSearch()
      modifies this`searchInput
      ensures searchInput == "" && !IsSearching(searchInput)
    {
      searchInput := "";
    }

    /** `onSortChange`. */
    method OnSortChange(value: string)
      modifies this`sortInput
      ensures sortInput == value
    {
      sortInput := value;
    }

    /** `onPlatformFilterChange`. */
    method OnPlatformFilterChange(value: string)
      modifies this`platformFilterInput
      ensures platformFilterInput == ParseFilterValue(value)
    {
      platformFilterInput := ParseFilterValue(value);
    }

    /**
     * One run of the search pipeline on the current inputs. While the pipeline lives, the term is
     * recorded, a search call for it is made only when it is non-empty (`call`), and when the
     * stage emits, `hasResults` says whether the filtered list is non-empty and `shown` is that
     * list sorted by the current key; a failed search ends the pipeline. Once it has ended, a run
     * records nothing, calls nothing and shows nothing.
     */
    method RunSearch(allPlatforms: seq<Platform>, response: HttpResult<seq<Game>>)
      returns (call: Option<string>, shown: Option<seq<Game>>)
      modifies this`lastSearchTerm, this`hasResults, this`searchEnded
      ensures old(searchEnded) ==>
        searchEnded && call.None? && shown.None? &&
        lastSearchTerm == old(lastSearchTerm) && hasResults == old(hasResults)
      ensures !old(searchEnded) ==> lastSearchTerm == Some(searchInput)
      ensures !old(searchEnded) ==> (call.Some? <==> IsSearching(searchInput))
      ensures call.Some? ==> call.value == searchInput
      ensures var raw := SearchStage(searchInput, platformFilterInput, allPlatforms, response);
        !old(searchEnded) ==>
        && (searchEnded <==> raw.None?)
        && (raw.Some? ==> hasResults == (|raw.value| > 0) && shown == Some(SortSearchResults(raw.value, sortInput)))
        && (raw.None? ==> hasResults == old(hasResults) && shown.None?)
    {
      if searchEnded {
        return None, None;
      }
      lastSearchTerm := Some(searchInput);
      call := if searchInput == "" then None else Some(searchInput);
      var raw := SearchStage(searchInput, platformFilterInput, allPlatforms, response);
      shown := None;
      if raw.Some? {
        hasResults := |raw.value| > 0;
        shown := Some(SortSearchResults(raw.value, sortInput));
      } else {
        searchEnded := true;
      }
    }
  }

  /** The base filter alone is sent exactly when `'all'` is selected. */
  lemma LatestRequestAllIffBase(sortKey: string, platformId: PlatformFilter, now: int)
    ensures platformId == AllPlatforms <==> LatestRequest(sortKey, platformId, now).filter == BaseFilter(now)
  {
    if platformId != AllPlatforms {
      assert |LatestRequest(sortKey, platformId, now).filter| > |BaseFilter(now)|;
    }
  }
}
