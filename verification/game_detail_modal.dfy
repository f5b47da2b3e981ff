/**
 * `GameDetailModalComponent`: the library controls of the game detail dialog. A library action
 * and a favourite toggle are each split into the request the component issues and the callback
 * that handles the reply; the `finalize` of a library action runs in both outcomes. The user id is
 * the value `getUserId()` returned when the action started.
 */
module DetailModal {
  import opened Wrappers
  import opened Models
  import opened Strings
  import opened LibraryApi
  import opened Ui

  /** The reply to a library action: the removal's empty body, or the upserted entry. */
  datatype ActionReply = Removed | Upserted(entry: UserGame)

  /**
   * `handleLibraryAction(status)`: asking for the status the game already has removes the entry;
   * any other status is upserted. Both address the game's entry.
   */
  function ActionRequest(api: string, userId: string, gameId: string, current: Option<GameStatus>, status: GameStatus): (r: HttpRequest)
    ensures r.url == EntryUrl(api, userId, gameId)
    ensures r.verb == Delete <==> current == Some(status)
    ensures r.verb != Delete ==> r.verb == Put && r.body == StatusBody(status)
  {
    if current == Some(status) then RemoveEntryRequest(api, userId, gameId)
    else UpsertRequest(api, userId, gameId, status)
  }

  /** `toggleFavorite`: a favourite is removed, anything else is added. */
  function FavoriteRequest(api: string, userId: string, gameId: string, isFavorite: bool): (r: HttpRequest)
    ensures r.url == FavoriteUrl(api, userId, gameId)
    ensures r.verb == Delete <==> isFavorite
    ensures !isFavorite ==> r.verb == Post && r.body == EmptyObject
  {
    if isFavorite then RemoveFavoriteRequest(api, userId, gameId)
    else AddFavoriteRequest(api, userId, gameId)
  }

  /** The status a successful library action leaves: none after a removal, the server's after an upsert. */
  function AfterAction(reply: ActionReply): (s: Option<GameStatus>)
    ensures s.None? <==> reply.Removed?
    ensures reply.Upserted? ==> s == Some(reply.entry.status)
  {
    match reply
    case Removed => None
    case Upserted(entry) => Some(entry.status)
  }

  /** `userGame.isFavorite || false`. */
  function InitialFavorite(entry: UserGame): (b: bool)
    ensures b <==> IsFavorite(entry)
  {
    entry.isFavorite.GetOr(false)
  }

  /**
   * Pressing the same status twice: the first press upserts it and the second removes it again,
   * leaving no status.
   */
  lemma SameStatusTwice(api: string, userId: string, gameId: string, current: Option<GameStatus>,
                        status: GameStatus, entry: UserGame)
    requires current != Some(status) && entry.status == status
    ensures ActionRequest(api, userId, gameId, current, status) == UpsertRequest(api, userId, gameId, status)
    ensures AfterAction(Upserted(entry)) == Some(status)
    ensures ActionRequest(api, userId, gameId, Some(status), status) == RemoveEntryRequest(api, userId, gameId)
    ensures AfterAction(Removed) == None
  {
  }

  /** Two successful favourite toggles issue an add and a remove (in that order or the reverse). */
  lemma FavoriteTwice(api: string, userId: string, gameId: string, isFavorite: bool)
    ensures {FavoriteRequest(api, userId, gameId, isFavorite).verb, FavoriteRequest(api, userId, gameId, !isFavorite).verb} == {Post, Delete}
  {
  }

  class GameDetailModal {
    const gameId: int
    const ui: UiService
    var currentLibraryStatus: Option<GameStatus>
    var isCurrentGameFavorite: bool
    var isAddingToLibrary: bool
    var enlargedScreenshot: Option<string>

    constructor (gameId: int, ui: UiService)
      ensures this.gameId == gameId && this.ui == ui
      ensures currentLibraryStatus == None && !isCurrentGameFavorite
      ensures !isAddingToLibrary && enlargedScreenshot == None
    {
      this.gameId, this.ui := gameId, ui;
      currentLibraryStatus, isCurrentGameFavorite := None, false;
      isAddingToLibrary, enlargedScreenshot := false, None;
    }

    /** `loadInitialStatus`: look the game up only when there is a user. */
    method LoadInitialStatus(api: string, userId: Option<string>) returns (request: Option<HttpRequest>)
      ensures Truthy(userId) ==> request == Some(GetEntryRequest(api, userId.value, IntToString(gameId)))
      ensures !Truthy(userId) ==> request == None
    {
      if Truthy(userId) {
        request := Some(GetEntryRequest(api, userId.value, IntToString(gameId)));
      } else {
        request := None;
      }
    }

    /**
     * The subscriber of `loadInitialStatus`: an entry sets the status and the favourite flag; no
     * entry (404) and any other error leave the defaults.
     */
    method OnInitialStatus(response: HttpResult<UserGame>)
      modifies this`currentLibraryStatus, this`isCurrentGameFavorite
      ensures response.Success? ==> currentLibraryStatus == Some(response.value.status)
                                    && (isCurrentGameFavorite <==> IsFavorite(response.value))
      ensures response.Failure? ==> currentLibraryStatus == old(currentLibraryStatus)
                                    && isCurrentGameFavorite == old(isCurrentGameFavorite)
    {
      var found := EntryLookup(response);
      if found.Ok? && found.value.Some? {
        var entry := found.value.value;
        currentLibraryStatus := Some(entry.status);
        isCurrentGameFavorite := InitialFavorite(entry);
      }
    }

    /** `handleLibraryAction`: without a user nothing happens; otherwise the dialog is busy and the request goes out. */
    method HandleLibraryAction(api: string, userId: Option<string>, status: GameStatus) returns (request: Option<HttpRequest>)
      modifies this`isAddingToLibrary
      ensures !Truthy(userId) ==> request == None && isAddingToLibrary == old(isAddingToLibrary)
      ensures Truthy(userId) ==> isAddingToLibrary
      ensures Truthy(userId) ==> request == Some(ActionRequest(api, userId.value, IntToString(gameId), currentLibraryStatus, status))
    {
      if !Truthy(userId) {
        return None;
      }
      isAddingToLibrary := true;
      request := Some(ActionRequest(api, userId.value, IntToString(gameId), currentLibraryStatus, status));
    }

    /**
     * The reply to a library action. On success the status follows the reply and one
     * library-changed event is emitted; on failure the status stays. Either way the dialog is no
     * longer busy and the favourite flag is untouched.
     */
    method OnActionResult(response: HttpResult<ActionReply>)
      modifies this`currentLibraryStatus, this`isAddingToLibrary, ui`libraryChanged
      ensures !isAddingToLibrary
      ensures response.Success? ==> currentLibraryStatus == AfterAction(response.value)
                                    && ui.State() == Step(old(ui.State()), UiOp.NotifyLibraryChanged)
      ensures response.Failure? ==> currentLibraryStatus == old(currentLibraryStatus)
                                    && ui.libraryChanged == old(ui.libraryChanged)
    {
      if response.Success? {
        currentLibraryStatus := AfterAction(response.value);
        ui.NotifyLibraryChanged();
      }
      isAddingToLibrary := false;
    }

    /** `toggleFavorite`: without a user nothing happens; otherwise the add or remove request goes out. */
    method ToggleFavorite(api: string, userId: Option<string>) returns (request: Option<HttpRequest>)
      ensures !Truthy(userId) ==> request == None
      ensures Truthy(userId) ==> request == Some(FavoriteRequest(api, userId.value, IntToString(gameId), isCurrentGameFavorite))
    {
      if !Truthy(userId) {
        return None;
      }
      request := Some(FavoriteRequest(api, userId.value, IntToString(gameId), isCurrentGameFavorite));
    }

    /** The reply to a favourite toggle: success flips the flag and emits one event; failure changes nothing. */
    method OnFavoriteResult(response: HttpResult<()>)
      modifies this`isCurrentGameFavorite, ui`libraryChanged
      ensures response.Success? ==> isCurrentGameFavorite == !old(isCurrentGameFavorite)
                                    && ui.State() == Step(old(ui.State()), UiOp.NotifyLibraryChanged)
      ensures response.Failure? ==> isCurrentGameFavorite == old(isCurrentGameFavorite)
                                    && ui.libraryChanged == old(ui.libraryChanged)
    {
      if response.Success? {
        isCurrentGameFavorite := !isCurrentGameFavorite;
        ui.NotifyLibraryChanged();
      }
    }

    method OpenLightbox(screenshotUrl: string)
      modifies this`enlargedScreenshot
      ensures enlargedScreenshot == Some(screenshotUrl)
    {
      enlargedScreenshot := Some(screenshotUrl);
    }

    method CloseLightbox()
      modifies this`enlargedScreenshot
      ensures enlargedScreenshot == None
    {
      enlargedScreenshot := None;
    }
  }
}
