/**
 * The library endpoints of `LibraryService`: the request each method sends and how it reshapes
 * the response before its subscriber sees it.
 */
module LibraryApi {
  import opened Wrappers
  import opened Models

  datatype HttpMethod = Get | Put | Post | Delete

  /** The request body: none, `{ status }`, or the empty object `{}`. */
  datatype Body = NoBody | StatusBody(status: GameStatus) | EmptyObject

  datatype HttpRequest = HttpRequest(verb: HttpMethod, url: string, body: Body)

  /** `<api>/users/<userId>/games/<gameId>`: the address of one library entry. */
  function EntryUrl(api: string, userId: string, gameId: string): string {
    api + "/users/" + userId + "/games/" + gameId
  }

  /** `<api>/users/<userId>/games/<gameId>/favorite`. */
  function FavoriteUrl(api: string, userId: string, gameId: string): string {
    EntryUrl(api, userId, gameId) + "/favorite"
  }

  /** `addOrUpdateGameInLibrary`: PUT to the entry with a body that carries only the status. */
  function UpsertRequest(api: string, userId: string, gameId: string, status: GameStatus): HttpRequest {
    HttpRequest(Put, EntryUrl(api, userId, gameId), StatusBody(status))
  }

  /** `getGameFromLibrary`. */
  function GetEntryRequest(api: string, userId: string, gameId: string): HttpRequest {
    HttpRequest(Get, EntryUrl(api, userId, gameId), NoBody)
  }

  /** `removeGameFromLibrary`. */
  function RemoveEntryRequest(api: string, userId: string, gameId: string): HttpRequest {
    HttpRequest(Delete, EntryUrl(api, userId, gameId), NoBody)
  }

  /** `getLibrary`. */
  function LibraryRequest(api: string, userId: string): HttpRequest {
    HttpRequest(Get, api + "/users/" + userId + "/games", NoBody)
  }

  /** `getFavorites`. */
  function FavoritesRequest(api: string, userId: string): HttpRequest {
    HttpRequest(Get, api + "/users/" + userId + "/favorites", NoBody)
  }

  /** `addFavorite`: POST with the empty object. */
  function AddFavoriteRequest(api: string, userId: string, gameId: string): HttpRequest {
    HttpRequest(Post, FavoriteUrl(api, userId, gameId), EmptyObject)
  }

  /** `removeFavorite`. */
  function RemoveFavoriteRequest(api: string, userId: string, gameId: string): HttpRequest {
    HttpRequest(Delete, FavoriteUrl(api, userId, gameId), NoBody)
  }

  /** Upsert, read and delete of an entry address the same URL; only the upsert has a body. */
  lemma EntryRequestsShareAddress(api: string, userId: string, gameId: string, status: GameStatus)
    ensures UpsertRequest(api, userId, gameId, status).url == GetEntryRequest(api, userId, gameId).url
    ensures GetEntryRequest(api, userId, gameId).url == RemoveEntryRequest(api, userId, gameId).url
    ensures UpsertRequest(api, userId, gameId, status).body == StatusBody(status)
    ensures GetEntryRequest(api, userId, gameId).body == NoBody && RemoveEntryRequest(api, userId, gameId).body == NoBody
    ensures AddFavoriteRequest(api, userId, gameId).url == RemoveFavoriteRequest(api, userId, gameId).url
    ensures AddFavoriteRequest(api, userId, gameId).verb == Post && AddFavoriteRequest(api, userId, gameId).body == EmptyObject
    ensures RemoveFavoriteRequest(api, userId, gameId).verb == Delete
  {
  }

  lemma SlashAt(short: string, t: string, long: string, t': string)
    requires |short| < |long| && |t| > 0
    requires short + t == long + t'
    ensures long[|short|] == t[0] && long[|short|] in long
  {
    assert (short + t)[|short|] == t[0];
    assert (long + t')[|short|] == long[|short|];
  }

  lemma {:induction false} SplitAtSlash(u1: string, t1: string, u2: string, t2: string)
    requires u1 + t1 == u2 + t2
    requires '/' !in u1 && '/' !in u2
    requires |t1| > 0 && t1[0] == '/' && |t2| > 0 && t2[0] == '/'
    ensures u1 == u2 && t1 == t2
  {
    var s := u1 + t1;
    if |u1| < |u2| {
      SlashAt(u1, t1, u2, t2);
      assert false;
    } else if |u2| < |u1| {
      SlashAt(u2, t2, u1, t1);
      assert false;
    }
    assert u1 == s[..|u1|] && u2 == s[..|u2|];
    assert t1 == s[|u1|..] && t2 == s[|u2|..];
  }

  /**
   * Different entries have different addresses as long as user ids contain no `/`: the URL
   * determines the user and the game.
   */
  lemma EntryUrlInjective(api: string, u1: string, g1: string, u2: string, g2: string)
    requires '/' !in u1 && '/' !in u2
    requires EntryUrl(api, u1, g1) == EntryUrl(api, u2, g2)
    ensures u1 == u2 && g1 == g2
  {
    var p := api + "/users/";
    assert EntryUrl(api, u1, g1) == p + (u1 + ("/games/" + g1));
    assert EntryUrl(api, u2, g2) == p + (u2 + ("/games/" + g2));
    var x1, x2 := u1 + ("/games/" + g1), u2 + ("/games/" + g2);
    assert (p + x1)[|p|..] == x1 && (p + x2)[|p|..] == x2;
    SplitAtSlash(u1, "/games/" + g1, u2, "/games/" + g2);
    assert g1 == ("/games/" + g1)[7..];
  }

  /**
   * `getGameFromLibrary`: a 404 becomes "no entry" (`null`), any other error reaches the
   * subscriber unchanged, a found entry is passed on.
   */
  function EntryLookup(response: HttpResult<UserGame>): (r: Result<Option<UserGame>, int>)
    ensures r == Ok(None) <==> response == Failure(404)
    ensures response.Success? ==> r == Ok(Some(response.value))
    ensures response.Failure? && response.status != 404 ==> r == Err(response.status)
  {
    match response
    case Success(entry) => Ok(Some(entry))
    case Failure(status) => if status == 404 then Ok(None) else Err(status)
  }

  /** What `GET /users/<id>/games` and `/favorites` may return: a bare array or a page object. */
  datatype LibraryPayload = BareArray(items: seq<UserGame>) | Page(content: Option<seq<UserGame>>)

  /** `getLibrary`: an array as is, otherwise `response.content || []`. */
  function NormalizeLibrary(response: LibraryPayload): (r: seq<UserGame>)
    ensures response.BareArray? ==> r == response.items
    ensures response.Page? && response.content.Some? ==> r == response.content.value
    ensures response == Page(None) ==> r == []
  {
    match response
    case BareArray(items) => items
    case Page(content) => content.GetOr([])
  }

  /** `getFavorites`: `response.content || []`, so a bare array yields no entries. */
  function NormalizeFavorites(response: LibraryPayload): (r: seq<UserGame>)
    ensures response.BareArray? ==> r == []
    ensures response.Page? ==> r == response.content.GetOr([])
  {
    match response
    case BareArray(_) => []
    case Page(content) => content.GetOr([])
  }

  /** The two normalisations agree on page objects and differ only on a non-empty bare array. */
  lemma NormalizationsAgreeOnPages(response: LibraryPayload)
    ensures response.Page? ==> NormalizeFavorites(response) == NormalizeLibrary(response)
    ensures response.BareArray? && response.items != [] ==> NormalizeFavorites(response) != NormalizeLibrary(response)
  {
  }
}
