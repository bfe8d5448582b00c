/** The search box of the add-game dialog: the search effect, the mapping of
    a provider hit to the fields the dialog needs, and the genre mapping. */
module GameSearch {
  import opened Wrappers
  import opened Seqs
  import opened GameTypes
  import opened GameDatabase

  // ------------------------------------------------------------- genres

  /** The own entries of the `genreMap` object literal. */
  function GenreMapEntry(name: string): Option<Genre> {
    match name
    case "Action" => Some(Action)
    case "Adventure" => Some(Adventure)
    case "RPG" => Some(RPG)
    case "Role-playing" => Some(RPG)
    case "Strategy" => Some(Strategy)
    case "Simulation" => Some(Simulation)
    case "Sports" => Some(Sports)
    case "Racing" => Some(Racing)
    case "Puzzle" => Some(Puzzle)
    case "Horror" => Some(Horror)
    case "Indie" => Some(Indie)
    case "MMO" => Some(MMO)
    case "Massively Multiplayer" => Some(MMO)
    case "Shooter" => Some(FPS)
    case "Platformer" => Some(Platformer)
    case _ => None
  }

  /** Property names every plain object inherits from `Object.prototype`;
      each of them reads as a truthy value (a function or an object). */
  predicate InheritedName(name: string) {
    name in ["constructor", "hasOwnProperty", "isPrototypeOf", "propertyIsEnumerable",
             "toLocaleString", "toString", "valueOf", "__proto__", "__defineGetter__",
             "__defineSetter__", "__lookupGetter__", "__lookupSetter__"]
  }

  /** What `genreMap[g.name] || 'Indie'` yields as written: a tag, or the
      inherited member when the name is one of `Object.prototype`'s. */
  datatype LookedUp = Tag(genre: Genre) | InheritedMember(name: string)

  function GenreLookupAsWritten(name: string): (r: LookedUp)
    ensures r.InheritedMember? <==> GenreMapEntry(name).None? && InheritedName(name)
    ensures GenreMapEntry(name).Some? ==> r == Tag(GenreMapEntry(name).value)
    ensures GenreMapEntry(name).None? && !InheritedName(name) ==> r == Tag(Indie)
  {
    if GenreMapEntry(name).Some? then Tag(GenreMapEntry(name).value)
    else if InheritedName(name) then InheritedMember(name)
    else Tag(Indie)
  }

  /** A provider genre named "toString" maps to a function, not to a tag and not to 'Indie'. */
  lemma InheritedNameEscapesDefault()
    ensures GenreLookupAsWritten("toString") == InheritedMember("toString")
    ensures GenreLookupAsWritten("constructor") == InheritedMember("constructor")
  {
  }

  /** The mapping as intended: the table's tag, or 'Indie' for any other name. */
  function GenreFor(name: string): (g: Genre)
    ensures GenreMapEntry(name).Some? ==> g == GenreMapEntry(name).value
    ensures GenreMapEntry(name).None? ==> g == Indie
  {
    GenreMapEntry(name).GetOr(Indie)
  }

  /** The intended mapping agrees with the written one on every name that is
      not inherited, and sends the provider's aliases to the right tags. */
  lemma GenreForAgrees(name: string)
    ensures !InheritedName(name) ==> GenreLookupAsWritten(name) == Tag(GenreFor(name))
    ensures GenreFor("Role-playing") == RPG
    ensures GenreFor("Massively Multiplayer") == MMO
    ensures GenreFor("Shooter") == FPS
    ensures GenreFor("toString") == Indie
  {
  }

  /** Every tag but one is reached from its own spelling; the table has no
      'FPS' key, so a genre named "FPS" becomes 'Indie' (only "Shooter" reaches FPS). */
  lemma GenreForName(g: Genre)
    ensures g != FPS ==> GenreFor(GenreName(g)) == g
    ensures GenreFor(GenreName(FPS)) == Indie
  {
    match g {
      case Action =>
      case Adventure =>
      case RPG =>
      case Strategy =>
      case Simulation =>
      case Sports =>
      case Racing =>
      case Puzzle =>
      case Horror =>
      case Indie =>
      case MMO =>
      case FPS =>
      case Platformer =>
    }
  }

  /** `genres.map(g => ...)` with the intended lookup. */
  function GenreTags(names: seq<string>): seq<Genre> {
    MapSeq(names, GenreFor)
  }

  /** `mapGenres`: map each name, drop repeats keeping the first, keep at most three. */
  function MapGenres(names: seq<string>): seq<Genre> {
    Take(Dedupe(GenreTags(names)), 3)
  }

  /** At most three tags, all distinct, listed in the order of their first
      occurrence; a tag is kept exactly when fewer than three distinct tags
      occur before its first occurrence, so with three or fewer distinct tags
      none is lost. */
  lemma MapGenresSpec(names: seq<string>)
    ensures |MapGenres(names)| <= 3
    ensures Distinct(MapGenres(names))
    ensures IsSubseq(MapGenres(names), GenreTags(names))
    ensures forall a :: 0 <= a < |MapGenres(names)| ==> MapGenres(names)[a] in GenreTags(names)
    ensures forall a, b :: 0 <= a < b < |MapGenres(names)| ==>
      FirstIndex(GenreTags(names), MapGenres(names)[a]) < FirstIndex(GenreTags(names), MapGenres(names)[b])
    ensures forall x :: x in MapGenres(names) <==>
      x in GenreTags(names) && |Dedupe(GenreTags(names)[..FirstIndex(GenreTags(names), x)])| < 3
    ensures |Dedupe(GenreTags(names))| <= 3 ==>
      forall j :: 0 <= j < |names| ==> GenreFor(names[j]) in MapGenres(names)
  {
    var tags := GenreTags(names);
    var d := Dedupe(tags);
    DedupeSpec(tags);
    var r := MapGenres(names);
    assert r == d[..|r|];
    PrefixSubseq(d, |r|, tags);
    forall x ensures x in r <==> x in tags && |Dedupe(tags[..FirstIndex(tags, x)])| < 3 {
      TakeDedupeMember(tags, 3, x);
    }
    if |d| <= 3 {
      forall j | 0 <= j < |names| ensures GenreFor(names[j]) in r {
        assert tags[j] in d;
      }
    }
  }

  /** `mapGenres` as written: the object lookup, which may yield an
      inherited member, then the same de-duplication and slice. */
  function MapGenresAsWritten(names: seq<string>): seq<LookedUp> {
    Take(Dedupe(MapSeq(names, GenreLookupAsWritten)), 3)
  }

  /** The written and the intended pipelines give the same tags whenever no
      genre name is one of `Object.prototype`'s. */
  lemma MapGenresAgree(names: seq<string>)
    requires forall k :: 0 <= k < |names| ==> !InheritedName(names[k])
    ensures MapGenresAsWritten(names) == MapSeq(MapGenres(names), (g: Genre) => Tag(g))
  {
    var tag := (g: Genre) => Tag(g);
    var tags := GenreTags(names);
    forall k | 0 <= k < |names| ensures GenreLookupAsWritten(names[k]) == tag(tags[k]) {
      GenreForAgrees(names[k]);
    }
    assert MapSeq(names, GenreLookupAsWritten) == MapSeq(tags, tag);
    KeepFirstsMap(tags, tag, 0);
    var d := Dedupe(tags);
    assert Take(MapSeq(d, tag), 3) == MapSeq(Take(d, 3), tag);
  }

  /** A genre named "toString" leaves an inherited member in the written
      result, where the intended pipeline gives 'Indie'. */
  lemma InheritedNameReachesGenres()
    ensures MapGenresAsWritten(["toString"]) == [InheritedMember("toString")]
    ensures MapGenres(["toString"]) == [Indie]
  {
    assert MapSeq(["toString"], GenreLookupAsWritten) == [InheritedMember("toString")];
    assert GenreTags(["toString"]) == [Indie];
    assert KeepFirsts([InheritedMember("toString")], 1) == [];
    assert KeepFirsts([Indie], 1) == [];
  }

  /** A concrete case: aliases fold together, unknown names become 'Indie',
      and only the first three distinct tags survive. */
  lemma MapGenresExample()
    ensures MapGenres(["Role-playing", "RPG", "Shooter", "Card", "Racing"]) == [RPG, FPS, Indie]
  {
    var names := ["Role-playing", "RPG", "Shooter", "Card", "Racing"];
    var mapped := GenreTags(names);
    assert mapped == [RPG, RPG, FPS, Indie, Racing];
    assert mapped[..1] == [RPG];
    assert mapped[..2] == [RPG, RPG];
    assert mapped[..3] == [RPG, RPG, FPS];
    assert mapped[..4] == [RPG, RPG, FPS, Indie];
    assert KeepFirsts(mapped, 5) == [];
    assert KeepFirsts(mapped, 4) == [Racing];
    assert KeepFirsts(mapped, 3) == [Indie, Racing];
    assert KeepFirsts(mapped, 2) == [FPS, Indie, Racing];
    assert KeepFirsts(mapped, 1) == [FPS, Indie, Racing];
    assert KeepFirsts(mapped, 0) == [RPG, FPS, Indie, Racing];
  }

  // ---------------------------------------------------------- selection

  /** The object `handleGameSelect` passes to the dialog. */
  datatype SelectionData = SelectionData(
    title: string,
    platform: Platform,
    genre: seq<Genre>,
    imageUrl: Option<string>,
    howLongToBeat: Option<int>,
    metacriticScore: Option<int>)

  /** The field mapping of `handleGameSelect` for a hit and the selected platform. */
  function Selection(r: SearchResult, selected: Platform): (d: SelectionData)
    ensures d.title == r.name && d.imageUrl == Some(r.backgroundImage)
    ensures d.genre == MapGenres(r.genres)
    ensures d.platform == selected
    ensures d.howLongToBeat.Some? <==> r.playtime > 0
    ensures d.howLongToBeat.Some? ==> d.howLongToBeat.value == r.playtime
    ensures d.metacriticScore.None? <==> r.metacritic == 0
    ensures d.metacriticScore.Some? ==> d.metacriticScore.value == r.metacritic
  {
    SelectionData(r.name, selected, MapGenres(r.genres), Some(r.backgroundImage),
                  if r.playtime > 0 then Some(r.playtime) else None,
                  if r.metacritic != 0 then Some(r.metacritic) else None)
  }

  /** Nothing in the hit decides the platform. */
  lemma SelectionPlatformIgnoresHit(r1: SearchResult, r2: SearchResult, selected: Platform)
    ensures Selection(r1, selected).platform == Selection(r2, selected).platform == selected
  {
  }

  // ------------------------------------------------------ search effect

  /** What the provider's promise settles to: hits, or a rejection. */
  datatype ProviderReply = Answer(hits: seq<SearchResult>) | Failed

  /** The mock provider never rejects. */
  function MockProvider(query: string): ProviderReply {
    Answer(SearchGames(query))
  }

  /** The search box's state. */
  class SearchInput {
    var query: string
    var results: seq<SearchResult>
    var isLoading: bool
    var showResults: bool
    const selectedPlatform: Platform

    constructor (selectedPlatform: Platform)
      ensures query == "" && results == [] && !isLoading && !showResults
      ensures this.selectedPlatform == selectedPlatform
    {
      query := "";
      results := [];
      isLoading := false;
      showResults := false;
      this.selectedPlatform := selectedPlatform;
    }

    method SetQuery(text: string)
      modifies this`query
      ensures query == text
    {
      query := text;
    }

    /** The search effect once its debounce fires. A query shorter than two
        UTF-16 code units clears and hides the results without asking the provider;
        otherwise the provider's hits are shown, and a rejection clears the
        results and leaves `showResults` as it was. */
    method RunSearch(provider: string -> ProviderReply) returns (consulted: bool)
      modifies this`results, this`showResults, this`isLoading
      ensures consulted <==> Text.Utf16Length(query) >= 2
      ensures !consulted ==> results == [] && !showResults && isLoading == old(isLoading)
      ensures consulted ==> !isLoading
      ensures consulted && provider(query).Answer? ==> results == provider(query).hits && showResults
      ensures consulted && provider(query).Failed? ==> results == [] && showResults == old(showResults)
    {
      if Text.Utf16Length(query) < 2 {
        results := [];
        showResults := false;
        return false;
      }
      isLoading := true;
      var reply := provider(query);
      match reply {
        case Answer(hits) =>
          results := hits;
          showResults := true;
        case Failed =>
          results := [];
      }
      isLoading := false;
      consulted := true;
    }

    /** Picking a hit: hand its fields to the dialog and reset the box. */
    method HandleGameSelect(r: SearchResult) returns (data: SelectionData)
      modifies this`query, this`results, this`showResults
      ensures data == Selection(r, selectedPlatform)
      ensures query == "" && results == [] && !showResults
    {
      data := Selection(r, selectedPlatform);
      query := "";
      results := [];
      showResults := false;
    }
  }

  /** Against the mock provider a long-enough query that is all spaces is
      sent, finds nothing, and still opens the (empty) results panel. */
  method BlankQueryOpensEmptyPanel(box: SearchInput)
    modifies box
    ensures box.query == "  " && box.results == [] && box.showResults
  {
    box.SetQuery("  ");
    var consulted := box.RunSearch(MockProvider);
    BlankQueryFindsNothing();
  }

  /** A single emoji is one character but two UTF-16 code units, so it
      passes the length gate and the provider is asked. */
  method EmojiQueryIsSearched(box: SearchInput) returns (consulted: bool)
    modifies box
    ensures consulted && box.showResults && box.results == SearchGames("\U{1F3AE}")
  {
    box.SetQuery("\U{1F3AE}");
    Text.Utf16LengthBmp("");
    consulted := box.RunSearch(MockProvider);
  }
}
