/** The records of the game library: statuses, genre tags, platforms,
    goals and games. Dates are millisecond timestamps. */
module GameTypes {
  import opened Wrappers

  /** The seven places a game can be in the player's backlog. */
  datatype GameStatus = Wishlist | Backlog | Playing | Finished | Completed | Paused | Dropped

  /** The thirteen genre tags a game can carry. */
  datatype Genre =
    | Action | Adventure | RPG | Strategy | Simulation | Sports | Racing
    | Puzzle | Horror | Indie | MMO | FPS | Platformer

  /** The store a game is owned on. The type declarations do not list it,
      but every screen reads and writes it with these three values. */
  datatype Platform = Steam | Epic | Gog

  /** Milliseconds since the epoch, the value of a `Date`. */
  type Timestamp = int

  /** A sub-objective the player sets for one game. */
  datatype GameGoal = GameGoal(id: string, description: string, completed: bool, createdAt: Timestamp)

  /** One library entry. `userScore` is meant to lie in 1..10, but nothing enforces that. */
  datatype Game = Game(
    id: string,
    title: string,
    platform: Platform,
    status: GameStatus,
    genre: seq<Genre>,
    imageUrl: Option<string>,
    howLongToBeat: Option<int>,
    metacriticScore: Option<int>,
    userScore: Option<int>,
    goals: seq<GameGoal>,
    dateAdded: Timestamp,
    dateStarted: Option<Timestamp>,
    dateCompleted: Option<Timestamp>,
    notes: Option<string>)

  function AllStatuses(): seq<GameStatus> {
    [Wishlist, Backlog, Playing, Finished, Completed, Paused, Dropped]
  }

  function AllGenres(): seq<Genre> {
    [Action, Adventure, RPG, Strategy, Simulation, Sports, Racing, Puzzle, Horror, Indie, MMO, FPS, Platformer]
  }

  /** The status type has exactly seven distinct values. */
  lemma StatusesEnumerated(s: GameStatus)
    ensures |AllStatuses()| == 7
    ensures s in AllStatuses()
    ensures forall a, b :: 0 <= a < b < 7 ==> AllStatuses()[a] != AllStatuses()[b]
  {
  }

  /** The genre type has exactly thirteen distinct values. */
  lemma GenresEnumerated(g: Genre)
    ensures |AllGenres()| == 13
    ensures g in AllGenres()
    ensures forall a, b :: 0 <= a < b < 13 ==> AllGenres()[a] != AllGenres()[b]
  {
  }

  /** The tag as the source spells it, which the library search matches against. */
  function GenreName(g: Genre): string {
    match g
    case Action => "Action"
    case Adventure => "Adventure"
    case RPG => "RPG"
    case Strategy => "Strategy"
    case Simulation => "Simulation"
    case Sports => "Sports"
    case Racing => "Racing"
    case Puzzle => "Puzzle"
    case Horror => "Horror"
    case Indie => "Indie"
    case MMO => "MMO"
    case FPS => "FPS"
    case Platformer => "Platformer"
  }

  /** Distinct tags have distinct spellings. */
  lemma GenreNameInjective(g: Genre, h: Genre)
    ensures GenreName(g) == GenreName(h) ==> g == h
  {
  }

  /** The documented, unenforced range of the player's score. */
  predicate ScoreInRange(g: Game) {
    g.userScore.Some? ==> 1 <= g.userScore.value <= 10
  }
}
