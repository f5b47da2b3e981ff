/**
 * `PlatformGamesComponent`: the games of one platform, 50 per server page. The route id and the
 * platform list arrive together; the request goes out and its reply is handled by `OnGames`.
 */
module PlatformGames {
  import opened Wrappers
  import opened Models
  import opened Strings

  const PageSize := 50
  const UnknownPlatform := "Plataforma Desconocida"
  const FilterPrefix := "platforms = ("

  /** The first platform whose id, written in decimal, is the route id. */
  function FindPlatform(platforms: seq<Platform>, routeId: Option<string>): (r: Option<nat>)
    ensures r.Some? ==> r.value < |platforms| && routeId == Some(IntToString(platforms[r.value].id))
    ensures r.Some? ==> forall j :: 0 <= j < r.value ==> routeId != Some(IntToString(platforms[j].id))
    ensures r.None? ==> forall j :: 0 <= j < |platforms| ==> routeId != Some(IntToString(platforms[j].id))
  {
    if platforms == [] then None
    else if routeId == Some(IntToString(platforms[0].id)) then Some(0)
    else match FindPlatform(platforms[1..], routeId)
      case None => None
      case Some(i) => Some(i + 1)
  }

  /** The heading: the found platform's name, or the unknown-platform text. */
  function PlatformName(platforms: seq<Platform>, routeId: Option<string>): (name: string)
    ensures FindPlatform(platforms, routeId).None? ==> name == UnknownPlatform
    ensures FindPlatform(platforms, routeId).Some? ==> name == platforms[FindPlatform(platforms, routeId).value].name
  {
    match FindPlatform(platforms, routeId)
    case None => UnknownPlatform
    case Some(i) => platforms[i].name
  }

  /** The request `loadGames` sends for a platform and a 0-based page. */
  function GamesRequest(platformId: string, page: int): (r: FilterRequest)
    ensures r.limit == PageSize && r.sort == "rating desc"
    ensures r.offset == Some(page * PageSize)
  {
    FilterRequest(FilterPrefix + platformId + ")", "rating desc", PageSize, Some(page * PageSize))
  }

  /** Different platforms or pages give different requests: the request names both. */
  lemma GamesRequestDetermines(a: string, p: int, b: string, q: int)
    requires GamesRequest(a, p) == GamesRequest(b, q)
    ensures a == b && p == q
  {
    var fa, fb := FilterPrefix + a + ")", FilterPrefix + b + ")";
    assert fa[|FilterPrefix|..|fa| - 1] == a;
    assert fb[|FilterPrefix|..|fb| - 1] == b;
  }

  /** Consecutive pages ask for adjacent, non-overlapping windows of 50 games. */
  lemma NextPageFollows(platformId: string, page: int)
    ensures GamesRequest(platformId, page + 1).offset.value == GamesRequest(platformId, page).offset.value + PageSize
  {
  }

  class PlatformGamesView {
    var games: seq<Game>
    var platformId: Option<string>
    var platformName: string
    var currentPage: int
    var totalPages: int
    var totalElements: int

    constructor ()
      ensures games == [] && platformId == None && platformName == ""
      ensures currentPage == 0 && totalPages == 0 && totalElements == 0
    {
      games, platformId, platformName := [], None, "";
      currentPage, totalPages, totalElements := 0, 0, 0;
    }

    /**
     * The `switchMap` of `ngOnInit`: take the route id, look up the heading, go back to the
     * first page with no games, and load.
     */
    method OnRoute(routeId: Option<string>, platforms: seq<Platform>) returns (request: Option<FilterRequest>)
      modifies this`platformId, this`platformName, this`currentPage, this`games
      ensures platformId == routeId && platformName == PlatformName(platforms, routeId)
      ensures currentPage == 0 && games == []
      ensures request == if Truthy(routeId) then Some(GamesRequest(routeId.value, 0)) else None
    {
      platformId := routeId;
      platformName := PlatformName(platforms, routeId);
      currentPage := 0;
      games := [];
      request := LoadGames();
    }

    /** `loadGames`: no platform, no request; otherwise ask for the current page. */
    method LoadGames() returns (request: Option<FilterRequest>)
      ensures request == if Truthy(platformId) then Some(GamesRequest(platformId.value, currentPage)) else None
    {
      if !Truthy(platformId) {
        return None;
      }
      request := Some(GamesRequest(platformId.value, currentPage));
    }

    /** The `tap` of `loadGames`: the reply replaces the games and sets the count. */
    method OnGames(response: seq<Game>)
      modifies this`games, this`totalElements
      ensures games == response && totalElements == |response|
    {
      games := response;
      totalElements := |response|;
    }

    /** `onPageChange`: any page is taken as is, then the games are loaded again. */
    method OnPageChange(page: int) returns (request: Option<FilterRequest>)
      modifies this`currentPage
      ensures currentPage == page
      ensures request == if Truthy(platformId) then Some(GamesRequest(platformId.value, page)) else None
    {
      currentPage := page;
      request := LoadGames();
    }
  }
}
