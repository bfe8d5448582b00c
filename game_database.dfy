/** The mock game-search provider: a fixed table of eight games, a
    case-insensitive name search and a lookup by id. */
module GameDatabase {
  import opened Wrappers
  import opened Seqs
  import opened Text

  /** One search hit. The floating-point `rating` is not modelled. */
  datatype SearchResult = SearchResult(
    id: int,
    name: string,
    backgroundImage: string,
    metacritic: int,
    genres: seq<string>,
    platforms: seq<string>,
    playtime: int,
    released: string)

  /** The error `getGameDetails` throws. */
  datatype LookupError = NotFound(id: int)

  const MockGames: seq<SearchResult> := [
    SearchResult(1, "The Witcher 3: Wild Hunt",
      "https://media.rawg.io/media/games/618/618c2031a07bbff6b4f611f10b6bcdbc.jpg",
      93, ["Action", "RPG"], ["PC", "PlayStation 4"], 51, "2015-05-18"),
    SearchResult(2, "Kingdom Come: Deliverance",
      "https://media.rawg.io/media/games/e80/e80f1f8b5c2cdb76b04e5db7b7c0a793.jpg",
      76, ["Action", "RPG"], ["PC", "PlayStation 4"], 40, "2018-02-13"),
    SearchResult(3, "Cyberpunk 2077",
      "https://media.rawg.io/media/games/26d/26d4437715bee60138dab4a7c8c59c92.jpg",
      86, ["Action", "RPG"], ["PC", "PlayStation 4"], 22, "2020-12-10"),
    SearchResult(4, "Red Dead Redemption 2",
      "https://media.rawg.io/media/games/511/5118aff5091cb3efec399c808f8c598f.jpg",
      97, ["Action", "Adventure"], ["PC", "PlayStation 4"], 21, "2018-10-26"),
    SearchResult(5, "God of War",
      "https://media.rawg.io/media/games/4be/4be6a6ad0364751a96229c56bf69be59.jpg",
      94, ["Action", "Adventure"], ["PC", "PlayStation 4"], 11, "2018-04-20"),
    SearchResult(6, "Horizon Zero Dawn",
      "https://media.rawg.io/media/games/b7d/b7d3f1715fa8381a4e780173a197a615.jpg",
      89, ["Action", "RPG"], ["PC", "PlayStation 4"], 12, "2017-02-28"),
    SearchResult(7, "Elden Ring",
      "https://media.rawg.io/media/games/5ec/5ecac5cb026ac26a56efcc546364e348.jpg",
      96, ["Action", "RPG"], ["PC", "PlayStation 5"], 58, "2022-02-25"),
    SearchResult(8, "Spider-Man Remastered",
      "https://media.rawg.io/media/games/9aa/9aa42d16d425fa6f179fc9dc2f763647.jpg",
      87, ["Action", "Adventure"], ["PC", "PlayStation 5"], 17, "2022-08-12")
  ]

  /** The table's ids are 1 to 8 in order, hence distinct. */
  lemma MockIdsDistinct()
    ensures |MockGames| == 8
    ensures forall k :: 0 <= k < |MockGames| ==> MockGames[k].id == k + 1
    ensures forall a, b :: 0 <= a < b < |MockGames| ==> MockGames[a].id != MockGames[b].id
  {
  }

  predicate NameMatches(r: SearchResult, query: string) {
    Includes(Lower(r.name), Lower(query))
  }

  /** `searchGames(query)`: nothing for a blank query, otherwise the table
      entries whose lower-cased name contains the lower-cased, untrimmed query. */
  function SearchGames(query: string): seq<SearchResult> {
    if Trim(query) == [] then [] else Filter(MockGames, (r: SearchResult) => NameMatches(r, query))
  }

  /** A blank query finds nothing; any other query finds, in table order,
      exactly the table entries whose name contains it. */
  lemma SearchGamesSpec(query: string)
    ensures AllSpace(query) ==> SearchGames(query) == []
    ensures !AllSpace(query) ==> IsSubseq(SearchGames(query), MockGames)
    ensures !AllSpace(query) ==> forall r :: r in SearchGames(query) <==> r in MockGames && NameMatches(r, query)
    ensures forall r :: r in SearchGames(query) ==> r in MockGames
  {
    TrimEmptyIff(query);
    FilterIsSubseq(MockGames, (r: SearchResult) => NameMatches(r, query));
  }

  /** The first entry of `table` with the given id, or the not-found error. */
  function FindById(table: seq<SearchResult>, id: int): (r: Result<SearchResult, LookupError>)
    ensures r.Failure? <==> forall k :: 0 <= k < |table| ==> table[k].id != id
    ensures r.Failure? ==> r.error == NotFound(id)
    ensures r.Success? ==> exists k :: 0 <= k < |table| && table[k] == r.value
                                     && forall j :: 0 <= j < k ==> table[j].id != id
    ensures r.Success? ==> r.value.id == id
    decreases |table|
  {
    if table == [] then Failure(NotFound(id))
    else if table[0].id == id then Success(table[0])
    else
      var rest := FindById(table[1..], id);
      assert rest.Success? ==> exists k :: 1 <= k < |table| && table[k] == rest.value
                                          && forall j :: 0 <= j < k ==> table[j].id != id by {
        if rest.Success? {
          var k :| 0 <= k < |table[1..]| && table[1..][k] == rest.value
                   && forall j :: 0 <= j < k ==> table[1..][j].id != id;
          assert table[k + 1] == rest.value;
          assert forall j :: 1 <= j < k + 1 ==> table[j].id == table[1..][j - 1].id;
        }
      }
      rest
  }

  /** `getGameDetails(id)`. */
  function GetGameDetails(id: int): Result<SearchResult, LookupError> {
    FindById(MockGames, id)
  }

  /** Every id 1..8 is found, as the entry at its position; every other id is not found. */
  lemma GetGameDetailsSpec(id: int)
    ensures 1 <= id <= 8 ==> GetGameDetails(id) == Success(MockGames[id - 1])
    ensures (id < 1 || id > 8) ==> GetGameDetails(id) == Failure(NotFound(id))
  {
    MockIdsDistinct();
  }

  /** A query of spaces finds nothing. */
  lemma BlankQueryFindsNothing()
    ensures SearchGames("  ") == []
  {
    TrimEmptyIff("  ");
  }
}
