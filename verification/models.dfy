/** The records the front end exchanges with the back end. */
module Models {
  import opened Wrappers

  /** A parsed release date: its instant (`getTime()`) and its calendar year (`getFullYear()`). */
  datatype Date = Date(time: int, year: int)

  /**
   * A game summary or detail record. Optional fields are `None` when the server leaves them out;
   * a release-date string that is empty counts as absent.
   */
  datatype Game = Game(
    id: int,
    name: string,
    platforms: Option<seq<string>>,
    releaseDate: Option<Date>,
    rating: Option<int>,
    genres: Option<seq<string>>)

  /** Library status of a game; `NoStatus` is the `NONE` member of the enum. */
  datatype GameStatus = WantToPlay | Playing | Completed | NoStatus

  /** A library entry of the signed-in user. */
  datatype UserGame = UserGame(gameId: int, status: GameStatus, isFavorite: Option<bool>)

  datatype Platform = Platform(id: int, name: string, platformType: Option<string>, generation: Option<int>)

  /** The platform selector: `'all'`, a number, or NaN when `Number(value)` fails. */
  datatype PlatformFilter = AllPlatforms | PlatformId(id: int) | NotANumber

  /** The body of a `POST /games/filter` request. */
  datatype FilterRequest = FilterRequest(filter: string, sort: string, limit: int, offset: Option<int>)

  /** `game.platforms?.includes(name)`. */
  predicate OnPlatform(g: Game, name: string) {
    g.platforms.Some? && name in g.platforms.value
  }

  /** `isFavorite` is truthy. */
  predicate IsFavorite(ug: UserGame) {
    ug.isFavorite == Some(true)
  }
}
