# Videogame library front end — a Dafny model

This project models the logic of an Angular front end for a personal videogame library. Users
browse the latest releases and search for games on the home page. They keep a library of games,
each with a status (want to play, playing, completed) and a favourite flag. They read statistics
about their favourites and browse games by platform. Sessions are kept as a token and a user in
the browser's storage.

The model covers:

- **Library page** (`Library`): joins the user's entries with the fetched games, then filters
  them by platform and sorts them by the chosen key. It cuts the list into a favourites bucket and
  three status buckets, and shows each bucket one 16-game page at a time.
- **Home page** (`Home`): builds the request of the latest-releases carousel. The search pipeline
  filters search results by platform and sorts them.
- **Statistics page** (`Statistics`, `Tally`): counts genres, platforms and release years over the
  favourite games, adds the server's counts, and ranks each list. It also fills the release-year
  chart from the first year to the last.
- **Platform list** (`PlatformList`): groups platforms by generation or by type. Each group is
  sorted by name in a copy, and the groups are ranked. The in-place `sort` of a copy is modelled on
  an `array`.
- **Platform games page** (`PlatformGames`): one server page of 50 games of one platform.
- **Game detail dialog** (`DetailModal`): adds, changes or removes the game's library status and
  toggles the favourite flag.
- **Services**:
  - `Ui`: dialogs, the mobile menu and the library-changed event.
  - `Session` and `LegacySession`: the token and user in storage, and login and logout.
  - `Toasts`: numbered notifications and their container.
  - `LibraryApi`: the library REST requests and the normalisation of their replies.
  - The platform icon pipe (`PlatformIcon`).
- **Shared definitions**:
  - `Lists`: filter, insertion sort, sortedness and permutation.
  - `GameOrder`: the five sort keys.
  - `Strings`: decimal text of integers, `Number()`, ASCII upper case, string order.
  - `Models`: the records.
  - `Wrappers`: optional values, HTTP outcomes, truthiness.

How the model is built:

- **Objects with state.** Each component or service whose fields change is a `class`.
  - Its methods state the new value of every field they touch.
  - Where the source keeps an invariant, the class has a `Valid()` predicate:
    - the library's page table is valid and in sync with the buckets;
    - the session's current user is the stored one;
    - toast ids are 1, 2, 3, ….
  - The UI service's methods are tied to a pure `Step` function. The properties of the dialogs
    are proved about `Step` and `Run`.
- **Outside calls.** HTTP calls are split into the request that a method returns and a callback
  that receives an `HttpResult`.
- **Time.** `Date.now()` is a parameter.
- **Token decoding.** Decoding the token payload (`atob` and `JSON.parse`) is a function
  parameter that may fail.

## Model

| member | source | states |
|---|---|---|
| Wrappers.OrElse | src/app/core/services/auth.service.ts:86 | `a \|\| b` on optional strings is truthy exactly when either side is; it is the left side when that is truthy and the right side otherwise |
| Strings.NatToString | src/app/statistics/statistics.component.ts:105 | the decimal text of a natural number is non-empty, all digits, and has no leading zero |
| Strings.ParseIntToString | src/app/library/library.component.ts:223 | `Number()` applied to the decimal text of any integer, negative ones included, gives back that integer |
| Strings.ParseNatToString | src/app/statistics/statistics.component.ts:106 | `Number()` of the decimal text of a natural number (a year name) is that number |
| Strings.ToUpper | src/app/platform-list/platform-list.component.ts:44 | upper-casing keeps the length and maps every character through the ASCII upper-case map |
| Strings.ToUpperIdempotent | src/app/shared/pipes/platform-icon.pipe.ts:10 | upper-casing an upper-cased type changes nothing |
| Strings.StrLeTotal | src/app/library/library.component.ts:201 | any two names are comparable under the name order used for `localeCompare` |
| Strings.StrLeTransitive | src/app/library/library.component.ts:201 | the name order is transitive |
| Strings.StrLeAntisymmetric | src/app/library/library.component.ts:201 | two names ordered both ways are equal |
| Lists.Filter | src/app/library/library.component.ts:156-159 | `filter` keeps every element that passes the test, as often as it occurs, and nothing else |
| Lists.FilterAppend | src/app/statistics/statistics.component.ts:56 | filtering a list extended by one element extends the filtered list by that element exactly when it passes |
| Lists.FilterConcat | src/app/shared/components/toast/toast-container.component.ts:49 | filtering a concatenation filters each part and keeps the parts in order |
| Lists.FilterKeepsSorted | src/app/library/library.component.ts:154-159 | every bucket cut from a sorted list is sorted the same way |
| Lists.SortPermutes | src/app/library/library.component.ts:198-209 | sorting rearranges the list without adding or losing an element |
| Lists.SortSorted | src/app/library/library.component.ts:198-209 | under a total preorder comparator the sorted list is ordered |
| Lists.SortOfSorted | src/app/library/library.component.ts:198-209 | a list that is already ordered comes back unchanged |
| Lists.SortIdempotent | src/app/library/library.component.ts:198-209 | sorting twice is sorting once |
| GameOrder.OrderForIsTotalPreorder | src/app/library/library.component.ts:199-209 | each of the five comparators (name up, name down, date down, date up, rating down) is total and transitive |
| GameOrder.LiftTotalPreorder | src/app/library/library.component.ts:197-213 | comparing library rows by their game keeps a comparator total and transitive |
| GameOrder.SortGames | src/app/library/library.component.ts:197-213 | the sorted games are a permutation of the input, and an unknown key returns the input unchanged |
| GameOrder.SortGamesSorted | src/app/library/library.component.ts:199-209 | for a known key the result is ordered by that key's comparator |
| GameOrder.SortGamesOrdered | src/app/library/library.component.ts:199-209 | spelled out per key: names ascending or descending, release time ascending or descending, rating (missing as 0) descending |
| GameOrder.SortGamesIdempotent | src/app/library/library.component.ts:197-213 | re-applying the same sort key changes nothing |
| GameOrder.FindPlatform | src/app/library/library.component.ts:146 | the platform found is in the list and has the selected id; none is found only when no platform has it (or "all" is selected) |
| GameOrder.KeepOnPlatform | src/app/library/library.component.ts:148-150 | the kept games are exactly the games whose platform list names the platform, with their multiplicity |
| GameOrder.KeepOnPlatformKeepsSorted | src/app/home/home.component.ts:90 | filtering by platform keeps a sorted list sorted |
| GameOrder.ParseFilterValue | src/app/library/library.component.ts:223 | the select value maps to "all platforms" exactly when it is the text `all` |
| GameOrder.ParseFilterValueOfId | src/app/library/library.component.ts:223 | an option whose value is a platform id selects that platform id |
| LibraryApi.EntryRequestsShareAddress | src/app/core/services/library.service.ts:15-59 | the upsert, read and delete of an entry share one URL, and only the upsert has a body (the status); the favourite add (POST with `{}`) and remove (DELETE) share the favourite URL |
| LibraryApi.EntryUrlInjective | src/app/core/services/library.service.ts:16 | for user ids without a slash, different user/game pairs address different entry URLs |
| LibraryApi.EntryLookup | src/app/core/services/library.service.ts:20-30 | a 404 and only a 404 becomes "no entry"; an entry is passed on; any other error status is re-raised |
| LibraryApi.NormalizeLibrary | src/app/core/services/library.service.ts:37-42 | a bare array is the library; a page gives its `content`, or nothing when that is missing |
| LibraryApi.NormalizeFavorites | src/app/core/services/library.service.ts:44-49 | the favourites are the page's `content` or nothing; a bare array yields nothing |
| LibraryApi.NormalizationsAgreeOnPages | src/app/core/services/library.service.ts:37-49 | the two normalisations agree on paged replies and disagree on any non-empty bare array |
| Library.LookupGame | src/app/library/library.component.ts:111-113 | the lookup fails exactly when no fetched game has the id; otherwise it returns the last game with that id |
| Library.Join | src/app/library/library.component.ts:111-119 | the joined library is never longer than the entries |
| Library.JoinMatchesEntries | src/app/library/library.component.ts:111-119 | the joined rows are, in order, the entries whose game was fetched, each carrying the entry's status and favourite flag and the fetched game |
| Library.JoinKeepsAllKnown | src/app/library/library.component.ts:111-119 | when every entry's game was fetched, no entry is dropped |
| Library.GameIds | src/app/library/library.component.ts:108 | the batch request asks for each entry's game id, in entry order |
| Library.LoadedGames | src/app/library/library.component.ts:102-126 | the load fails only when the library call fails; an empty library or a failed batch call yields an empty list; otherwise the list is the join of the entries with the fetched games, at most one row per entry |
| Library.TotalPagesBounds | src/app/library/library.component.ts:177 | the page count is the least number of 16-game pages that hold the list, so the last page is never empty |
| Library.ClampPageSound | src/app/library/library.component.ts:178-180 | after the clamp the current page is within 1 and the page count, never higher than before, and changed only when it was past the end |
| Library.VisiblePageContents | src/app/library/library.component.ts:182-184 | a page holds at most 16 games, and its k-th game is the list's game at `(page - 1) * 16 + k` |
| Library.EveryGameOnSomePage | src/app/library/library.component.ts:177-184 | every game of a bucket is shown on one of its pages, at the expected position |
| Library.FilterByPlatform | src/app/library/library.component.ts:145-152 | with a known platform selected and platforms loaded, exactly the games on that platform are kept; otherwise the list is unchanged |
| Library.WithStatusCount | src/app/library/library.component.ts:157-159 | a status bucket holds every row with that status, as often as it occurs, and no other row |
| Library.StatusBucketsPartition | src/app/library/library.component.ts:156-159 | the four status buckets together are the sorted list; the favourites are exactly its rows flagged favourite |
| Library.StatusCounts | src/app/library/library.component.ts:157-159 | every row is counted in exactly one status bucket |
| Library.FavoritesAre | src/app/library/library.component.ts:156 | the favourites bucket holds exactly the rows flagged favourite |
| Library.BucketsSorted | src/app/library/library.component.ts:154-159 | for a known sort key every bucket is ordered by it |
| Library.RepagedSound | src/app/library/library.component.ts:176-180 | re-paging a valid row gives a valid row whose total is the bucket's page count and whose page did not move forward |
| Library.Stepped | src/app/library/library.component.ts:187-193 | "next" moves one page forward unless on the last page, "prev" one back unless on the first; the page count is kept |
| Library.SteppedSound | src/app/library/library.component.ts:187-193 | a step keeps the row valid and moves the page by at most one |
| Library.LibraryView.constructor | src/app/library/library.component.ts:28-51 | empty buckets, loading, every category on page 1 of 1, sort `relevance`, all platforms |
| Library.LibraryView.Init | src/app/library/library.component.ts:66-72 | the library is loaded exactly when there is a user id; otherwise loading stops |
| Library.LibraryView.UpdatePaginatedList | src/app/library/library.component.ts:172-185 | the category's row is re-paged for the list, and the list shown is that row's current page |
| Library.LibraryView.UpdateAllPaginatedLists | src/app/library/library.component.ts:165-170 | every category is re-paged against its own bucket from its previous row; the page table stays valid and every shown page matches its bucket |
| Library.LibraryView.ApplyFilters | src/app/library/library.component.ts:142-163 | the buckets are cut from the platform-filtered, sorted library; every category is re-paged from its previous row against its new bucket, and the shown pages are in sync |
| Library.LibraryView.SetBuckets | src/app/library/library.component.ts:156-159 | the favourites and the three status buckets are cut from the sorted list |
| Library.LibraryView.ChangePage | src/app/library/library.component.ts:187-195 | the chosen category moves by one step, every category is then re-paged, and the view stays in sync |
| Library.LibraryView.OnLibraryError | src/app/library/library.component.ts:134-138 | a failed load stops loading |
| Library.LibraryView.OnLibraryGames | src/app/library/library.component.ts:128-133 | the loaded rows replace the library; the buckets are rebuilt with the current sort and filter and no platform list; every category is re-paged from its previous row; loading stops |
| Library.LibraryView.OnSortChange | src/app/library/library.component.ts:215-218 | the new sort key is stored, the buckets are rebuilt with it, and every category is re-paged from its previous row against its new bucket |
| Library.LibraryView.OnPlatformFilterChange | src/app/library/library.component.ts:220-224 | the parsed platform filter is stored, the buckets are rebuilt with it, and every category is re-paged from its previous row against its new bucket |
| Home.ApiSortFor | src/app/home/home.component.ts:65-72 | each of the five known keys is sent as its own server clause (`name-asc` as `name asc`, `date-asc` as `first_release_date asc`, and so on), and every other key as newest first |
| Home.ApiSortDefaultIff | src/app/home/home.component.ts:65-72 | newest-first is requested exactly for `date-desc` and for unknown keys |
| Home.ApiSortInjectiveOnKnownKeys | src/app/home/home.component.ts:65-72 | different known sort keys request different server orders |
| Home.PlatformText | src/app/home/home.component.ts:62-64 | the platform clause carries text that reads back as the platform id; a non-numeric selection gives text that is not a number |
| Home.LatestRequest | src/app/home/home.component.ts:56-75 | the carousel asks for 50 games with no offset, in the key's server order, filtered by release before now and by platform unless "all" |
| Home.BaseFilterBound | src/app/home/home.component.ts:58-61 | the release bound is the current time in whole seconds (rounded down), and the filter text reads back as that number |
| Home.LatestFilterDeterminesPlatform | src/app/home/home.component.ts:58-64 | two platform selections that give the same filter are the same selection |
| Home.LatestRequestAllIffBase | src/app/home/home.component.ts:58-64 | the filter is the base filter alone exactly when all platforms are selected |
| Home.IsSearching | src/app/home/home.component.ts:77 | the page is searching exactly when the term is non-empty |
| Home.SelectedName | src/app/home/home.component.ts:87-89 | a name is used only when a loaded platform has the selected id and a non-empty name; "all" never filters |
| Home.FilterSearch | src/app/home/home.component.ts:86-94 | with a selected platform name the results are exactly the games on that platform; otherwise they are unchanged |
| Home.FilterSearchKeepsOrder | src/app/home/home.component.ts:86-94 | the platform filter keeps the order of the results |
| Home.SearchStage | src/app/home/home.component.ts:83-96 | an empty term gives no results without a call; a failed call gives nothing; otherwise the filtered response |
| Home.SortSearchResults | src/app/home/home.component.ts:100-119 | the shown results are a permutation of the raw results; no results or an unknown key leave them as they are |
| Home.SortSearchResultsSorted | src/app/home/home.component.ts:104-114 | for a known key the shown results are ordered by it |
| Home.HomeView.constructor | src/app/home/home.component.ts:32-37 | empty search term, sort `relevance`, all platforms, no last term, results assumed |
| Home.HomeView.LatestGamesRequest | src/app/home/home.component.ts:56-75 | the carousel request for the current sort and platform; the filter is the base filter alone exactly when all platforms are selected |
| Home.HomeView.OnSearch | src/app/home/home.component.ts:185-188 | the typed text becomes the search term |
| Home.HomeView.ClearSearch | src/app/home/home.component.ts:190-196 | the term is emptied and the page stops searching |
| Home.HomeView.OnSortChange | src/app/home/home.component.ts:198-201 | the selected sort key is stored |
| Home.HomeView.OnPlatformFilterChange | src/app/home/home.component.ts:203-207 | the parsed platform selection is stored |
| Home.HomeView.RunSearch | src/app/home/home.component.ts:79-98 | while the pipeline lives, the term is recorded, a call is made exactly when searching, `hasResults` follows the raw result count and the shown list is the sorted result; a failed search ends the pipeline, after which nothing is recorded, called or shown |
| Statistics.YearsOfDated | src/app/statistics/statistics.component.ts:139-140 | there is one year per game with a release date |
| Statistics.OccurrenceCounts | src/app/statistics/statistics.component.ts:121-127 | counting occurrences gives each value once, in order of first occurrence, with its number of occurrences; the counts add up to the list's length |
| Statistics.GenreStats | src/app/statistics/statistics.component.ts:121-127 | the genre counts are the occurrence counts of all genres of the favourites |
| Statistics.PlatformStats | src/app/statistics/statistics.component.ts:129-135 | the platform counts are the occurrence counts of all platforms of the favourites |
| Statistics.YearStats | src/app/statistics/statistics.component.ts:137-145 | the year counts are the occurrence counts of the release years of the dated favourites |
| Statistics.YearStatsTotal | src/app/statistics/statistics.component.ts:137-145 | the year counts add up to the number of dated favourites |
| Statistics.ByCountDescTotalPreorder | src/app/statistics/statistics.component.ts:158 | ordering by count, largest first, is total and transitive |
| Statistics.CombineStats | src/app/statistics/statistics.component.ts:147-159 | the two map-accumulating loops and the final sort compute the combined, ranked counts |
| Statistics.SumForSort | src/app/statistics/statistics.component.ts:158 | ranking does not change any key's count |
| Statistics.TotalSort | src/app/statistics/statistics.component.ts:158 | ranking does not change the total count |
| Statistics.KeyCountSort | src/app/statistics/statistics.component.ts:158 | ranking neither duplicates nor drops a key |
| Statistics.CombinedCounts | src/app/statistics/statistics.component.ts:147-159 | each key of the combined list appears once, exactly when it is in either input, with the sum of its two counts; totals add |
| Statistics.CombinedOrdered | src/app/statistics/statistics.component.ts:158 | the combined list is ordered by count, largest first |
| Statistics.MinKey | src/app/statistics/statistics.component.ts:92 | the first year is a listed year and no listed year is earlier |
| Statistics.MaxKey | src/app/statistics/statistics.component.ts:93 | the last year is a listed year and no listed year is later |
| Statistics.LastCountUnique | src/app/statistics/statistics.component.ts:100-102 | for distinct years, the count the overlay leaves is the year's count |
| Statistics.YearRange | src/app/statistics/statistics.component.ts:104-106 | the chart has one point per year from the first to the last |
| Statistics.YearRangeAscending | src/app/statistics/statistics.component.ts:104-106 | the i-th point is named after year `lo + i`, so the points are in ascending year order |
| Statistics.YearRangeCovers | src/app/statistics/statistics.component.ts:90-106 | every listed year has its point, at its offset from the first year, carrying its count |
| Statistics.ZeroYears | src/app/statistics/statistics.component.ts:95-98 | the zero-fill loop puts every year from first to last in the map with count 0, in ascending order |
| Statistics.OverlayCounts | src/app/statistics/statistics.component.ts:100-102 | after the overlay the map covers the same years and holds, for each, the last count given for it (0 if none) |
| Statistics.FillYearRange | src/app/statistics/statistics.component.ts:90-106 | the chart-filling code computes exactly the year range of the combined years |
| Statistics.BatchIds | src/app/statistics/statistics.component.ts:56-60 | no batch call is made exactly when no entry is a favourite; otherwise the ids are the favourites' game ids, in library order |
| Statistics.LibraryStage | src/app/statistics/statistics.component.ts:54-65 | without favourites the stage yields empty lists; it fails exactly when the library call or the needed batch call fails; on success it carries the fetched games and the favourite entries |
| Statistics.Summary | src/app/statistics/statistics.component.ts:77-88 | the total is the number of favourite entries, and at most every fetched game is rated |
| Statistics.SummaryGenres | src/app/statistics/statistics.component.ts:69-83 | each genre's shown count is its occurrences among the favourites' genres plus the server's count |
| Statistics.SummaryWithoutFavorites | src/app/statistics/statistics.component.ts:56-58 | without favourites the summary shows only the server's counts and a total of 0 |
| Statistics.StatisticsView.constructor | src/app/statistics/statistics.component.ts:22-26 | no statistics, loading, no error, empty chart |
| Statistics.StatisticsView.Init | src/app/statistics/statistics.component.ts:45-51 | the requests go out exactly when there is a user id; otherwise the missing-user error is shown and loading stops |
| Statistics.StatisticsView.Settle | src/app/statistics/statistics.component.ts:67-118 | when both calls succeed the summary is stored and a non-empty year list refills the chart; any failure shows the load error; loading ends either way |
| Tally.Dedup | src/app/statistics/statistics.component.ts:126 | a value is listed exactly when it occurs in the input |
| Tally.DedupDistinct | src/app/statistics/statistics.component.ts:126 | a map's keys are listed once each |
| Tally.CountsSumFor | src/app/statistics/statistics.component.ts:150 | accumulating rows into the map keeps each key's total count |
| Tally.CountsTotal | src/app/statistics/statistics.component.ts:150 | accumulating keeps the overall total |
| Tally.CountsKeys | src/app/statistics/statistics.component.ts:155 | the map's entries list the keys in order of first insertion |
| Tally.CountsUnique | src/app/statistics/statistics.component.ts:155 | the map's entries have distinct keys |
| Tally.EntriesBump | src/app/statistics/statistics.component.ts:150 | one `set(k, (get(k) \|\| 0) + n)` on a map matches one bump of its entry list: an existing key keeps its place, a new key goes last |
| Tally.Accumulate | src/app/statistics/statistics.component.ts:147-155 | the loop over a `Map` followed by `Array.from(entries())` computes the accumulated counts |
| Tally.TracksStep | src/app/statistics/statistics.component.ts:149-154 | each loop iteration keeps the key order and the map in step with the counts of the rows seen so far |
| Tally.Ones | src/app/statistics/statistics.component.ts:124 | every occurrence contributes a count of 1 |
| Tally.OnesSumFor | src/app/statistics/statistics.component.ts:124 | counting ones for a value gives its number of occurrences |
| PlatformList.ClassifyRanks | src/app/platform-list/platform-list.component.ts:46-61 | a positive generation ranks 10 or more and every type group ranks 5, 4, 3 or 0; rank 0 is exactly the catch-all group |
| PlatformList.ClassifyMissingType | src/app/platform-list/platform-list.component.ts:44-61 | a platform with no type and no positive generation lands in the catch-all group |
| PlatformList.ClassifyIgnoresCase | src/app/platform-list/platform-list.component.ts:44 | the type is compared without regard to letter case |
| PlatformList.GenerationTitle | src/app/platform-list/platform-list.component.ts:47 | a generation title never collides with a type group's title |
| PlatformList.KeyDeterminesRank | src/app/platform-list/platform-list.component.ts:46-64 | platforms with the same group title have the same rank, so a group's rank does not depend on its first member |
| PlatformList.KeyList | src/app/platform-list/platform-list.component.ts:40-62 | one group title per platform, in platform order |
| PlatformList.CollectGroups | src/app/platform-list/platform-list.component.ts:38-67 | the map holds a title exactly when some platform has it, in first-seen order, with all its platforms in input order and the first one's rank |
| PlatformList.CollectStep | src/app/platform-list/platform-list.component.ts:63-66 | adding one platform to the map keeps it equal to the map built from the platforms so far |
| PlatformList.NameOrderIsTotalPreorder | src/app/platform-list/platform-list.component.ts:82-85 | both name orders are total and transitive |
| PlatformList.SortedPlatforms | src/app/platform-list/platform-list.component.ts:80-89 | the sort keeps the length, and an unknown order leaves the list as it is |
| PlatformList.SortedPlatformsPermutes | src/app/platform-list/platform-list.component.ts:80-89 | sorting a group neither adds nor loses a platform |
| PlatformList.SortedPlatformsOrdered | src/app/platform-list/platform-list.component.ts:82-85 | `name-asc` orders names ascending and `name-desc` descending |
| PlatformList.FindSlot | src/app/platform-list/platform-list.component.ts:83 | the slot of one insertion step: every earlier element may precede the inserted one, the one at the slot may not |
| PlatformList.PlaceAt | src/app/platform-list/platform-list.component.ts:83 | one insertion step shifts the elements between the slot and the position right by one and writes the element at the slot |
| PlatformList.InsertInPlace | src/app/platform-list/platform-list.component.ts:83 | one step inserts the next element into the sorted prefix and leaves the rest untouched |
| PlatformList.SortInPlace | src/app/platform-list/platform-list.component.ts:83-85 | the in-place sort leaves the array holding the stable sort of its old contents |
| PlatformList.SortPlatforms | src/app/platform-list/platform-list.component.ts:80-89 | `sortPlatforms` leaves the array holding the name-sorted platforms, or the same platforms for another order |
| PlatformList.ByRankDescTotalPreorder | src/app/platform-list/platform-list.component.ts:75 | ranking groups by sort order, largest first, is total and transitive |
| PlatformList.Listing | src/app/platform-list/platform-list.component.ts:69-73 | one group per distinct title |
| PlatformList.GroupPlatforms | src/app/platform-list/platform-list.component.ts:37-76 | the grouping code computes the ranked groups |
| PlatformList.ListGroups | src/app/platform-list/platform-list.component.ts:69-73 | the groups listed from the map are, in map order, the group built for each title |
| PlatformList.ListGroup | src/app/platform-list/platform-list.component.ts:70-72 | one listed group has its title, its members sorted in a copy, and its rank |
| PlatformList.SortedCopy | src/app/platform-list/platform-list.component.ts:71 | sorting a copy of the members gives the sorted members |
| PlatformList.GroupedRanked | src/app/platform-list/platform-list.component.ts:75 | the groups are shown in descending rank |
| PlatformList.GroupedMember | src/app/platform-list/platform-list.component.ts:69-75 | every shown group is the group built for one of the platforms' titles |
| PlatformList.GroupForOk | src/app/platform-list/platform-list.component.ts:63-72 | a group is non-empty, holds exactly the platforms with its title, and each member classifies to its title and rank |
| PlatformList.GroupedPartition | src/app/platform-list/platform-list.component.ts:38-75 | every shown group is sound and every platform's title has a shown group |
| PlatformList.GroupedDistinct | src/app/platform-list/platform-list.component.ts:63-64 | no title is shown twice |
| PlatformList.GroupedSize | src/app/platform-list/platform-list.component.ts:40-75 | the groups together hold as many platforms as the input, so none is lost or shown twice |
| PlatformList.GroupedNamesOrdered | src/app/platform-list/platform-list.component.ts:71 | inside every shown group the platforms are in the chosen name order |
| PlatformGames.FindPlatform | src/app/platform-games/platform-games.component.ts:43 | the first platform whose id, as text, equals the route id; none only when no platform matches |
| PlatformGames.PlatformName | src/app/platform-games/platform-games.component.ts:44 | the heading is the found platform's name, or the unknown-platform text |
| PlatformGames.GamesRequest | src/app/platform-games/platform-games.component.ts:59-64 | a page asks for 50 games by rating, starting at `page * 50` |
| PlatformGames.GamesRequestDetermines | src/app/platform-games/platform-games.component.ts:59-64 | equal requests name the same platform and page |
| PlatformGames.NextPageFollows | src/app/platform-games/platform-games.component.ts:62 | consecutive pages ask for adjacent windows of 50 games |
| PlatformGames.PlatformGamesView.constructor | src/app/platform-games/platform-games.component.ts:20-25 | no games, no platform, empty name, page 0 and no counts |
| PlatformGames.PlatformGamesView.OnRoute | src/app/platform-games/platform-games.component.ts:41-50 | the route id and heading are taken, the view goes back to page 0 with no games, and the first page is requested when there is a platform |
| PlatformGames.PlatformGamesView.LoadGames | src/app/platform-games/platform-games.component.ts:54-64 | no platform id, no request; otherwise the request for the current page |
| PlatformGames.PlatformGamesView.OnGames | src/app/platform-games/platform-games.component.ts:66-71 | the reply replaces the games and the count is its length |
| PlatformGames.PlatformGamesView.OnPageChange | src/app/platform-games/platform-games.component.ts:75-78 | the page is taken as given and that page is requested |
| PlatformIcon.NormalizedType | src/app/shared/pipes/platform-icon.pipe.ts:10 | a missing or empty type reads as `UNKNOWN`; any other is upper-cased |
| PlatformIcon.IconFor | src/app/shared/pipes/platform-icon.pipe.ts:12-32 | the computer icon exactly for `COMPUTER`, `OPERATING_SYSTEM` and `PC`, the handheld for `PORTABLE_CONSOLE`, the arcade for `ARCADE`, the console for everything else |
| PlatformIcon.MissingTypeIsConsole | src/app/shared/pipes/platform-icon.pipe.ts:9-31 | a platform without a type is drawn as a console |
| PlatformIcon.NormalizedTypeIgnoresCase | src/app/shared/pipes/platform-icon.pipe.ts:10 | the icon does not depend on the letter case of the type |
| Ui.Rescroll | src/app/core/services/ui.service.ts:83-93 | afterwards the body class reflects whether a dialog is open, and nothing else changes |
| Ui.Notifications | src/app/core/services/ui.service.ts:75-77 | at most one event per operation |
| Ui.OpenDialogCloses | src/app/core/services/ui.service.ts:43-60 | opening login closes register and the menu and locks the body; opening register does the same the other way; the game dialog is untouched |
| Ui.ModalOpSyncsBody | src/app/core/services/ui.service.ts:33-65 | every dialog operation leaves the body class in sync and emits no library event |
| Ui.OtherOpsKeepDialogs | src/app/core/services/ui.service.ts:67-77 | the menu operations and the library event leave the dialogs and the body class alone; toggle flips the menu, close shuts it, the event is counted once |
| Ui.StepKeepsInvariant | src/app/core/services/ui.service.ts:33-77 | every operation keeps login and register exclusive and the body class in sync |
| Ui.RunKeepsInvariant | src/app/core/services/ui.service.ts:33-77 | from a valid state, any sequence of operations keeps the dialogs exclusive and the body in sync |
| Ui.RunCountsNotifications | src/app/core/services/ui.service.ts:75-77 | the library-changed events emitted by a sequence are exactly its notify operations |
| Ui.StepCounts | src/app/core/services/ui.service.ts:75-77 | one operation emits one event exactly when it is the notify operation |
| Ui.UiService.constructor | src/app/core/services/ui.service.ts:11-24 | no game, no dialog, menu closed, body unlocked, no events; the invariant holds |
| Ui.UiService.IsModalOpen | src/app/core/services/ui.service.ts:83-85 | a dialog is open when a game is selected or login or register is shown |
| Ui.UiService.UpdateBodyScroll | src/app/core/services/ui.service.ts:87-93 | the body class is set exactly when a dialog is open |
| Ui.UiService.OpenGameModal | src/app/core/services/ui.service.ts:33-36 | the game becomes selected and the body is locked; the service invariant is kept |
| Ui.UiService.CloseGameModal | src/app/core/services/ui.service.ts:38-41 | no game is selected and the body class follows the other dialogs; the service invariant is kept |
| Ui.UiService.OpenLoginModal | src/app/core/services/ui.service.ts:43-48 | the login dialog replaces the register dialog, the menu closes and the body is locked; the service invariant is kept |
| Ui.UiService.CloseLoginModal | src/app/core/services/ui.service.ts:50-53 | the login dialog closes and the body class follows; the service invariant is kept |
| Ui.UiService.OpenRegisterModal | src/app/core/services/ui.service.ts:55-60 | the register dialog replaces the login dialog, the menu closes and the body is locked; the service invariant is kept |
| Ui.UiService.CloseRegisterModal | src/app/core/services/ui.service.ts:62-65 | the register dialog closes and the body class follows; the service invariant is kept |
| Ui.UiService.ToggleMobileMenu | src/app/core/services/ui.service.ts:67-69 | the menu flips; nothing the invariant reads changes |
| Ui.UiService.CloseMobileMenu | src/app/core/services/ui.service.ts:71-73 | the menu closes; nothing the invariant reads changes |
| Ui.UiService.NotifyLibraryChanged | src/app/core/services/ui.service.ts:75-77 | one more library-changed event; nothing the invariant reads changes |
| DetailModal.ActionRequest | src/app/game-detail-modal/game-detail-modal.component.ts:66-81 | the request addresses the game's entry; it is a removal exactly when the chosen status is the current one, otherwise an upsert carrying the status |
| DetailModal.FavoriteRequest | src/app/game-detail-modal/game-detail-modal.component.ts:85-99 | the request addresses the favourite; a favourite is removed, a non-favourite added with `{}` |
| DetailModal.AfterAction | src/app/game-detail-modal/game-detail-modal.component.ts:66-81 | a removal leaves no status, an upsert the status the server returned |
| DetailModal.InitialFavorite | src/app/game-detail-modal/game-detail-modal.component.ts:48 | the flag is set exactly when the entry is marked favourite |
| DetailModal.SameStatusTwice | src/app/game-detail-modal/game-detail-modal.component.ts:60-83 | choosing a status upserts it and choosing it again removes the entry, leaving no status |
| DetailModal.FavoriteTwice | src/app/game-detail-modal/game-detail-modal.component.ts:85-99 | two toggles issue one add and one remove |
| DetailModal.GameDetailModal.constructor | src/app/game-detail-modal/game-detail-modal.component.ts:23-26 | no status, not a favourite, not busy, no enlarged screenshot |
| DetailModal.GameDetailModal.LoadInitialStatus | src/app/game-detail-modal/game-detail-modal.component.ts:42-53 | the entry is requested exactly when there is a user id |
| DetailModal.GameDetailModal.OnInitialStatus | src/app/game-detail-modal/game-detail-modal.component.ts:45-52 | a found entry sets the status and the favourite flag; no entry or an error keeps the defaults |
| DetailModal.GameDetailModal.HandleLibraryAction | src/app/game-detail-modal/game-detail-modal.component.ts:60-83 | without a user nothing happens; otherwise the dialog is busy and the add, change or remove request goes out |
| DetailModal.GameDetailModal.OnActionResult | src/app/game-detail-modal/game-detail-modal.component.ts:66-81 | success sets the status from the reply and emits one library event; failure keeps the status; the dialog is not busy afterwards |
| DetailModal.GameDetailModal.ToggleFavorite | src/app/game-detail-modal/game-detail-modal.component.ts:85-99 | without a user nothing happens; otherwise the add or remove request matching the flag goes out |
| DetailModal.GameDetailModal.OnFavoriteResult | src/app/game-detail-modal/game-detail-modal.component.ts:94-98 | success flips the flag and emits one library event; failure changes nothing |
| DetailModal.GameDetailModal.OpenLightbox | src/app/game-detail-modal/game-detail-modal.component.ts:101-103 | the screenshot is enlarged |
| DetailModal.GameDetailModal.CloseLightbox | src/app/game-detail-modal/game-detail-modal.component.ts:105-107 | no screenshot is enlarged |
| Session.DecodeEncodeField | src/app/core/services/auth.service.ts:96 | a stored field reads back as written, whatever follows it |
| Session.UserRoundTrip | src/app/core/services/auth.service.ts:35 | a stored user reads back as the same user |
| Session.SavedUserReadsBack | src/app/core/services/auth.service.ts:95-98 | after `saveUser(u)` the stored user is `u` |
| Session.TokenWriteKeepsUser | src/app/core/services/auth.service.ts:42 | writing the token does not change the stored user, and the token reads back |
| Session.LogoutClears | src/app/core/services/auth.service.ts:109-111 | logout leaves neither a token nor a user, and every other key as it was |
| Session.DecodePayload | src/app/core/services/auth.service.ts:74-81 | a token that cannot be decoded gives the empty payload; otherwise the decoded one |
| Session.TokenUser | src/app/core/services/auth.service.ts:85-88 | the user's id is the first truthy of `userId`, `id` and `sub` (else `sub` as it is); the name is `username` when truthy, else `sub` |
| Session.DeriveUser | src/app/core/services/auth.service.ts:44-59 | the response's user wins; else the response's id with the first truthy of its name and the token's subject, else the e-mail; else the user read from the token |
| Session.UndecodableTokenNamesNobody | src/app/core/services/auth.service.ts:74-92 | an undecodable token never yields a user with an id, so nothing is saved |
| Session.AuthService.constructor | src/app/core/services/auth.service.ts:14-27 | authenticated exactly when a token is stored; with a token but no stored user, the token's user is saved when it has an id; otherwise the stored user is taken as is |
| Session.AuthService.ProcessToken | src/app/core/services/auth.service.ts:83-93 | the token's user is saved exactly when it has an id; otherwise nothing changes |
| Session.AuthService.SaveUser | src/app/core/services/auth.service.ts:95-98 | the user is stored and becomes the current user |
| Session.AuthService.OnLoginResponse | src/app/core/services/auth.service.ts:41-65 | the token is stored and the session is authenticated; the derived user is saved exactly when it has an id |
| Session.AuthService.GetToken | src/app/core/services/auth.service.ts:100-102 | exactly the stored token, or none |
| Session.AuthService.GetUserId | src/app/core/services/auth.service.ts:104-107 | the current user's id, or none without a user |
| Session.AuthService.Logout | src/app/core/services/auth.service.ts:109-114 | token and user removed from storage, not authenticated, no current user |
| LegacySession.LoginLogoutForgetsToken | src/app/auth/auth.service.ts:27-38 | logging in then out leaves no token and every other key as before |
| LegacySession.LegacyAuthService.constructor | src/app/auth/auth.service.ts:13-21 | authenticated exactly when a non-empty token is stored |
| LegacySession.LegacyAuthService.OnLoginResponse | src/app/auth/auth.service.ts:26-29 | the token is stored and reads back, and the session is authenticated |
| LegacySession.LegacyAuthService.GetToken | src/app/auth/auth.service.ts:33-35 | exactly the stored token, or none |
| LegacySession.LegacyAuthService.Logout | src/app/auth/auth.service.ts:37-40 | the token is removed, other keys stay, not authenticated |
| Toasts.Without | src/app/shared/components/toast/toast-container.component.ts:48-50 | closing is `filter` on the other ids: no remaining toast has the closed id, and the list does not grow |
| Toasts.WithoutKeepsOthers | src/app/shared/components/toast/toast-container.component.ts:49 | every toast with another id stays, as many times as it was there |
| Toasts.WithoutAbsent | src/app/shared/components/toast/toast-container.component.ts:49 | closing an id no toast has changes nothing |
| Toasts.WithoutIdempotent | src/app/shared/components/toast/toast-container.component.ts:48-50 | closing the same toast twice is closing it once |
| Toasts.WithoutConcat | src/app/shared/components/toast/toast-container.component.ts:48-50 | closing a toast keeps the remaining toasts in the order they arrived |
| Toasts.WithoutAppend | src/app/shared/components/toast/toast-container.component.ts:39-49 | closing after a new toast arrived keeps the new toast exactly when its id is another one |
| Toasts.ToastService.constructor | src/app/core/services/toast.service.ts:12 | the counter starts at 0 with nothing emitted |
| Toasts.ToastService.Show | src/app/core/services/toast.service.ts:14-17 | the emitted toast carries the next id, the message, type and duration; every earlier id is smaller |
| Toasts.ToastService.ShowSuccess | src/app/core/services/toast.service.ts:19-21 | a success toast with the next id |
| Toasts.ToastService.ShowError | src/app/core/services/toast.service.ts:23-25 | an error toast with the next id |
| Toasts.ToastService.ShowInfo | src/app/core/services/toast.service.ts:27-29 | an info toast with the next id |
| Toasts.EmittedIdsIncrease | src/app/core/services/toast.service.ts:14-16 | emitted ids strictly increase, so no two toasts share an id |
| Toasts.ToastContainer.constructor | src/app/shared/components/toast/toast-container.component.ts:31 | no toasts |
| Toasts.ToastContainer.OnToast | src/app/shared/components/toast/toast-container.component.ts:37-41 | an arriving toast goes last and the others stay |
| Toasts.ToastContainer.RemoveToast | src/app/shared/components/toast/toast-container.component.ts:48-50 | the toasts with the id are removed and the others keep their order |

## Left out

- RxJS scheduling is not modelled: `combineLatest`, `switchMap`, `forkJoin`, `debounceTime` and `distinctUntilChanged`. Each pipeline stage is a function or method called with the values that reach it. Cancelled or debounced emissions are not modelled.
- HTTP, `localStorage` and the DOM are outside the model.
  - Requests are values and replies are `HttpResult` parameters.
  - Storage is a `map` from key to text.
  - `document.body` and the renderer's class are the `bodyModalOpen` field.
  - Change detection, drag-to-scroll, `document.querySelector` and `stopPropagation` are left out.
- `JSON.stringify` and `JSON.parse` of the stored user are stood in for by a length-prefixed codec with a proved round trip. Stored text that does not parse reads as no user; the source would throw instead.
- Token decoding (`atob` and `JSON.parse`) is a function parameter. Its failure gives the empty payload, as the `catch` does. Payload ids are strings, not numbers.
- `localeCompare` is modelled as code-point order on names, so locale collation is not modelled. `toUpperCase` maps ASCII letters only.
- `new Date(...)` is modelled as follows:
  - A release date is a record with its time and its year.
  - A missing date sorts as time 0 and is skipped for years. The source would compare `NaN` instead.
  - `Date.now()` is a parameter.
- Statistics.Summary: the average rating is kept as the sum and the count of the rated games. Floating-point division is left out.
- `Number(value)` reads only an optional minus sign followed by digits. Any other text is "not a number", so blanks, decimals and exponents are not modelled.
- Library.LibraryView.OnLibraryGames: `isLoading` is cleared together with the rebuild. The order against the change detection call does not matter in the model.
- Home: the `allPlatforms` truthiness check always passes, because a platform list is always present as a value.
- PlatformList.SortPlatforms: the copy `[...value.platforms]` is a fresh array that the method sorts in place. Aliasing with the map's arrays is not modelled.
- PlatformIcon: the four SVG paths are kept verbatim, but no lemma states that they differ.
- PlatformGames.PlatformGamesView: `totalPages` is never written by the source and stays 0. `openGameModal` only delegates to the UI service and is not modelled.
- DetailModal.GameDetailModal.OnActionResult: which branch (remove or upsert) ran is carried by the reply's shape instead of a captured closure.
- The YouTube id extraction (regular expression) of the detail dialog is not modelled. Its `closeModal` and `ngOnInit` only set `document.body.style.overflow` and emit the close event, which are DOM effects.
- The `openGameModal` helpers of the library page, the home page and the platform games page are not modelled. They only forward to `Ui.UiService.OpenGameModal`.
- The register endpoint and the `navigate*` router calls are not modelled.
- DetailModal: `game-detail-modal.component.ts` imports the older `LibraryService`, `AuthService` and `UiService` of `src/app/library`, `src/app/auth` and `src/app` (lines 5, 6 and 9). Those services lack `getUserId`, `getGameFromLibrary`, `addOrUpdateGameInLibrary`, `removeGameFromLibrary`, `addFavorite`, `removeFavorite` and `notifyLibraryChanged`, which the component calls. The model binds those calls to the services of `src/app/core/services`, which define them; the older services are not part of this model beyond `LegacySession`.
- Library.LoadedGames and Statistics.LibraryStage: `getGamesByIds` (called at `library.component.ts:109` and `statistics.component.ts:61`) is defined by neither game service of the repository. Its answer is a parameter: the games the back end returns for the requested ids, each matched to its entry by id. The request it would send is not modelled.
- Session.User: the optional `avatar` field of the user record (`shared/models/user.model.ts:4`) is not modelled. No operation of the model reads or writes it, and the stored-user codec does not carry it.
- Integer widths: ids, counts and pages are unbounded integers. JavaScript numbers are doubles, and their precision limits are not modelled.
