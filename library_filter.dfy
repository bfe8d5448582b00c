/** The library page's search box and status/platform selectors, and the
    "Total Games" figure. */
module LibraryFilter {
  import opened Seqs
  import opened Text
  import opened GameTypes

  /** A selector value: `'all'` or one specific value. */
  datatype Choice<T> = All | Only(value: T)

  /** The search term is a case-insensitive substring of the title or of some genre tag. */
  predicate MatchesSearch(g: Game, term: string) {
    Includes(Lower(g.title), Lower(term))
    || exists k :: 0 <= k < |g.genre| && Includes(Lower(GenreName(g.genre[k])), Lower(term))
  }

  predicate MatchesChoice<T(==)>(c: Choice<T>, v: T) {
    c.All? || c.value == v
  }

  /** The predicate the page filters with. */
  predicate Keeps(g: Game, term: string, status: Choice<GameStatus>, platform: Choice<Platform>) {
    MatchesSearch(g, term) && MatchesChoice(status, g.status) && MatchesChoice(platform, g.platform)
  }

  function FilteredGames(gs: seq<Game>, term: string, status: Choice<GameStatus>, platform: Choice<Platform>): seq<Game> {
    Filter(gs, (g: Game) => Keeps(g, term, status, platform))
  }

  /** The first stat card counts the whole library. */
  function TotalGames(gs: seq<Game>): nat {
    |gs|
  }

  /** The page shows, in library order, exactly the games meeting all three conditions. */
  lemma FilteredSpec(gs: seq<Game>, term: string, status: Choice<GameStatus>, platform: Choice<Platform>)
    ensures IsSubseq(FilteredGames(gs, term, status, platform), gs)
    ensures forall g :: g in FilteredGames(gs, term, status, platform) <==>
      g in gs && MatchesSearch(g, term)
      && (status.All? || g.status == status.value)
      && (platform.All? || g.platform == platform.value)
    ensures forall g ::
      multiset(FilteredGames(gs, term, status, platform))[g] == if Keeps(g, term, status, platform) then multiset(gs)[g] else 0
  {
    FilterIsSubseq(gs, (g: Game) => Keeps(g, term, status, platform));
    FilterMultiset(gs, (g: Game) => Keeps(g, term, status, platform));
    forall g: Game ensures g in FilteredGames(gs, term, status, platform) ==> g in gs {
      if g in FilteredGames(gs, term, status, platform) {
        var r := FilteredGames(gs, term, status, platform);
        var k :| 0 <= k < |r| && r[k] == g;
      }
    }
    forall g: Game | g in gs ensures Keeps(g, term, status, platform) ==> g in FilteredGames(gs, term, status, platform) {
      var k :| 0 <= k < |gs| && gs[k] == g;
    }
  }

  /** The total ignores the filters: it is what the unfiltered page shows,
      and never less than what any filter shows. */
  lemma TotalIgnoresFilters(gs: seq<Game>, term: string, status: Choice<GameStatus>, platform: Choice<Platform>)
    ensures |FilteredGames(gs, term, status, platform)| <= TotalGames(gs)
    ensures TotalGames(gs) == |FilteredGames(gs, "", All, All)|
  {
    ResetFiltersShowAll(gs);
  }

  /** With an empty search box and both selectors on `'all'` every game shows. */
  lemma ResetFiltersShowAll(gs: seq<Game>)
    ensures FilteredGames(gs, "", All, All) == gs
  {
    forall k | 0 <= k < |gs| ensures Keeps(gs[k], "", All, All) {
      IncludesEmpty(Lower(gs[k].title));
    }
    FilterKeepsAll(gs, (g: Game) => Keeps(g, "", All, All));
  }

  /** Narrowing the status selector from `'all'` to one status only hides games. */
  lemma StatusChoiceMonotone(gs: seq<Game>, term: string, s: GameStatus, platform: Choice<Platform>)
    ensures IsSubseq(FilteredGames(gs, term, Only(s), platform), FilteredGames(gs, term, All, platform))
  {
    FilterMonotone(gs, (g: Game) => Keeps(g, term, Only(s), platform), (g: Game) => Keeps(g, term, All, platform));
  }

  /** The same holds for the platform selector. */
  lemma PlatformChoiceMonotone(gs: seq<Game>, term: string, status: Choice<GameStatus>, p: Platform)
    ensures IsSubseq(FilteredGames(gs, term, status, Only(p)), FilteredGames(gs, term, status, All))
  {
    FilterMonotone(gs, (g: Game) => Keeps(g, term, status, Only(p)), (g: Game) => Keeps(g, term, status, All));
  }

  /** The letter case of the search term does not matter. */
  lemma SearchIgnoresTermCase(gs: seq<Game>, term: string, status: Choice<GameStatus>, platform: Choice<Platform>)
    ensures FilteredGames(gs, term, status, platform) == FilteredGames(gs, Lower(term), status, platform)
  {
    LowerIdempotent(term);
    FilterExt(gs, (g: Game) => Keeps(g, term, status, platform), (g: Game) => Keeps(g, Lower(term), status, platform));
  }

  /** A term found in a genre tag keeps the game even when the title lacks it. */
  lemma GenreTagMatches(g: Game, k: nat)
    requires k < |g.genre|
    ensures MatchesSearch(g, GenreName(g.genre[k]))
  {
    var t := Lower(GenreName(g.genre[k]));
    LowerIdempotent(GenreName(g.genre[k]));
    assert OccursAt(t, t, 0);
    IncludesIff(t, t);
  }
}
