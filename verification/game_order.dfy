/**
 * Client-side shaping of game lists shared by the library and home views: the five sort keys
 * and the platform lookup by id.
 */
module GameOrder {
  import opened Wrappers
  import opened Models
  import opened Strings
  import opened Lists

  /** `game.rating || 0`. */
  function RatingOf(g: Game): int {
    g.rating.GetOr(0)
  }

  /** `new Date(game.releaseDate).getTime()`, with a missing date read as the epoch. */
  function TimeOf(g: Game): int {
    match g.releaseDate
    case Some(d) => d.time
    case None => 0
  }

  /** The comparator of a known sort key, as "a may stay before b"; `None` for any other key. */
  function OrderFor(key: string): Option<(Game, Game) -> bool> {
    if key == "name-asc" then Some((a: Game, b: Game) => StrLe(a.name, b.name))
    else if key == "name-desc" then Some((a: Game, b: Game) => StrLe(b.name, a.name))
    else if key == "date-desc" then Some((a: Game, b: Game) => TimeOf(b) <= TimeOf(a))
    else if key == "date-asc" then Some((a: Game, b: Game) => TimeOf(a) <= TimeOf(b))
    else if key == "rating-desc" then Some((a: Game, b: Game) => RatingOf(b) <= RatingOf(a))
    else None
  }

  lemma OrderForIsTotalPreorder(key: string)
    requires OrderFor(key).Some?
    ensures TotalPreorder(OrderFor(key).value)
  {
    var le := OrderFor(key).value;
    if key == "name-asc" || key == "name-desc" {
      forall x: Game, y: Game ensures le(x, y) || le(y, x) {
        StrLeTotal(x.name, y.name);
      }
      forall x: Game, y: Game, z: Game | le(x, y) && le(y, z) ensures le(x, z) {
        if key == "name-asc" {
          StrLeTransitive(x.name, y.name, z.name);
        } else {
          StrLeTransitive(z.name, y.name, x.name);
        }
      }
    }
  }

  /** The comparator lifted to any record that carries a game. */
  function Lift<T>(le: (Game, Game) -> bool, view: T -> Game): (T, T) -> bool {
    (a: T, b: T) => le(view(a), view(b))
  }

  lemma LiftTotalPreorder<T(!new)>(le: (Game, Game) -> bool, view: T -> Game)
    requires TotalPreorder(le)
    ensures TotalPreorder(Lift(le, view))
  {
  }

  /**
   * `sortGames(games, key)`: for a known key a sorted copy, for any other key the list itself.
   * `view` reads the game out of the record being sorted.
   */
  function SortGames<T(!new)>(xs: seq<T>, key: string, view: T -> Game): (r: seq<T>)
    ensures multiset(r) == multiset(xs)
    ensures OrderFor(key).None? ==> r == xs
  {
    match OrderFor(key)
    case None => xs
    case Some(le) =>
      SortPermutes(Lift(le, view), xs);
      Sort(Lift(le, view), xs)
  }

  /** For a known key the result is ordered by that key's comparator. */
  lemma SortGamesSorted<T(!new)>(xs: seq<T>, key: string, view: T -> Game)
    requires OrderFor(key).Some?
    ensures SortedBy(Lift(OrderFor(key).value, view), SortGames(xs, key, view))
  {
    OrderForIsTotalPreorder(key);
    LiftTotalPreorder(OrderFor(key).value, view);
    SortSorted(Lift(OrderFor(key).value, view), xs);
  }

  /** What each known key promises about neighbouring and distant records of the result. */
  lemma SortGamesOrdered<T(!new)>(xs: seq<T>, key: string, view: T -> Game)
    ensures var r := SortGames(xs, key, view);
      && (key == "name-asc" ==> forall i, j :: 0 <= i < j < |r| ==> StrLe(view(r[i]).name, view(r[j]).name))
      && (key == "name-desc" ==> forall i, j :: 0 <= i < j < |r| ==> StrLe(view(r[j]).name, view(r[i]).name))
      && (key == "date-asc" ==> forall i, j :: 0 <= i < j < |r| ==> TimeOf(view(r[i])) <= TimeOf(view(r[j])))
      && (key == "date-desc" ==> forall i, j :: 0 <= i < j < |r| ==> TimeOf(view(r[i])) >= TimeOf(view(r[j])))
      && (key == "rating-desc" ==> forall i, j :: 0 <= i < j < |r| ==> RatingOf(view(r[i])) >= RatingOf(view(r[j])))
  {
    var r := SortGames(xs, key, view);
    if OrderFor(key).Some? {
      var le := Lift(OrderFor(key).value, view);
      SortGamesSorted(xs, key, view);
      forall i, j | 0 <= i < j < |r|
        ensures key == "name-asc" ==> StrLe(view(r[i]).name, view(r[j]).name)
        ensures key == "name-desc" ==> StrLe(view(r[j]).name, view(r[i]).name)
        ensures key == "date-asc" ==> TimeOf(view(r[i])) <= TimeOf(view(r[j]))
        ensures key == "date-desc" ==> TimeOf(view(r[i])) >= TimeOf(view(r[j]))
        ensures key == "rating-desc" ==> RatingOf(view(r[i])) >= RatingOf(view(r[j]))
      {
        assert le(r[i], r[j]);
      }
    }
  }

  /** Re-sorting a sorted list by the same key changes nothing. */
  lemma SortGamesIdempotent<T(!new)>(xs: seq<T>, key: string, view: T -> Game)
    ensures SortGames(SortGames(xs, key, view), key, view) == SortGames(xs, key, view)
  {
    if OrderFor(key).Some? {
      OrderForIsTotalPreorder(key);
      LiftTotalPreorder(OrderFor(key).value, view);
      SortIdempotent(Lift(OrderFor(key).value, view), xs);
    }
  }

  /** `platforms.find(p => p.id === platformId)`; NaN and `'all'` match no platform. */
  function FindPlatform(platforms: seq<Platform>, filter: PlatformFilter): (r: Option<Platform>)
    ensures r.Some? ==> filter.PlatformId? && r.value in platforms && r.value.id == filter.id
    ensures r.None? ==> forall p :: p in platforms ==> !(filter.PlatformId? && p.id == filter.id)
  {
    if platforms == [] || !filter.PlatformId? then None
    else if platforms[0].id == filter.id then Some(platforms[0])
    else FindPlatform(platforms[1..], filter)
  }

  /** Keep the records whose game lists the platform name. */
  function KeepOnPlatform<T(!new)>(xs: seq<T>, name: string, view: T -> Game): (r: seq<T>)
    ensures forall x {:trigger multiset(r)[x]} :: multiset(r)[x] == if OnPlatform(view(x), name) then multiset(xs)[x] else 0
  {
    Filter(xs, (x: T) => OnPlatform(view(x), name))
  }

  /** The platform filter keeps the relative order of what it keeps. */
  lemma KeepOnPlatformKeepsSorted<T(!new)>(xs: seq<T>, name: string, view: T -> Game, le: (T, T) -> bool)
    requires SortedBy(le, xs)
    ensures SortedBy(le, KeepOnPlatform(xs, name, view))
  {
    FilterKeepsSorted(xs, (x: T) => OnPlatform(view(x), name), le);
  }

  /** `value === 'all' ? 'all' : Number(value)` on a platform select. */
  function ParseFilterValue(value: string): (r: PlatformFilter)
    ensures value == "all" <==> r == AllPlatforms
  {
    if value == "all" then AllPlatforms
    else match ParseNumber(value)
      case Some(n) => PlatformId(n)
      case None => NotANumber
  }

  /** The option rendered for a platform id selects that id again. */
  lemma ParseFilterValueOfId(id: int)
    ensures ParseFilterValue(IntToString(id)) == PlatformId(id)
  {
    ParseIntToString(id);
    assert IntToString(id)[0] != 'a';
  }
}
