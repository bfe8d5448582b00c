# Game backlog tracker: a verified model of the library store

This project models the logic of a personal game-backlog tracker. The app keeps a
list of the player's games. Each game has a status (wishlist, backlog, playing,
finished, completed, paused, dropped), genre tags, a platform, goals, an optional
score and notes. The list is saved in the browser's local storage under one key.
The model covers:

- the **library store** (`useGameLibrary`). It has the collection, the `loading`
  flag and the storage slot. It has the four mutators, the derived views, and the
  load and save effects. The store is the class `GameLibrary.Library`. The record
  updates are pure functions: `WithStatus`, `Merge`, `SetStatusIn`, `UpdateIn`
  and `RemoveId`.
- the **detail dialog**: the updates its handlers send, the goal-list edits and
  the score and notes guards (module `GameDetail`).
- the **library page filter** and its "Total Games" figure (`LibraryFilter`).
- the **search box** and the **add-game dialog**: how a search hit becomes a
  draft, the genre mapping and the search effect (`GameSearch`, `AddGame`).
- the **mock search provider**: its fixed table, its name search and its lookup
  by id (`GameDatabase`).

`Seqs` and `Text` hold the JavaScript operations the code uses: `filter`, the
`indexOf` de-duplication and `slice`; and `toLowerCase`, `includes`, `trim` and
`length`. Most are tied to an independent description. `IncludesIff` ties the
`includes` scan to "occurs at some position". `FilterMultiset` says a filter
keeps every copy of a kept element. `DedupeSpec` orders the de-duplicated list
by `FirstIndex`, the position of each value's first occurrence. `Lower`
states the ASCII offset of each upper-case letter. `Utf16Length` counts
UTF-16 code units, which is what `length` returns.

Notes on the model:

- **Ids and clock are parameters.** The mutators and the add-goal handler take
  the fresh id and the time as arguments, in place of `crypto.randomUUID()` and
  `new Date()`. An id is unique only if the generator supplies fresh ones. That
  assumption is the `FreshId` precondition of `AddKeepsIdsUnique`. The store
  itself never checks ids.
- **Platform is part of `Game`.** The type declaration in `src/types/Game.ts`
  has no `platform` field and no `Platform` type. Every screen still reads and
  writes a platform with the values steam, epic and gog, so the model adds both.
- **`Partial<Game>` is `GameUpdate`.** Each field is a `Patch`: `Keep` when the
  field is absent, `Set(v)` when it is present. For an optional field,
  `Set(None)` is an explicit `undefined`. The score and notes handlers send
  exactly that.
- **The storage slot is abstract.** It is `EmptyText`, `Unparsable` or the
  `Records` of a JSON array. Dates are stored as `DateText` and rebuilt on load.
- **React effects become methods.** `LoadEffect` is the mount effect.
  `SaveEffect` is the effect React runs after each change of `games` or
  `loading`.

Behaviours of the code worth knowing:

- The store validates nothing. An empty title or a score of 11 is stored as
  given (`MergeAcceptsAnyScore`).
- Only `updateGameStatus` stamps `dateStarted` and `dateCompleted`. Status
  buttons in the detail dialog go through `updateGame` and stamp nothing
  (`StatusPathsDiffer`).
- `dateStarted <= dateCompleted` is not maintained, because statuses may change
  in any order (`StartMayFollowCompletion`).
- One record without `goals` makes the whole load fail, and the collection
  stays empty. The code does not drop just that record (`LoadFailureKeepsCurrent`).
- `deleteGame` with an unknown id is a silent no-op (`RemoveIdSpec`).
- A failed load is overwritten. Once loading ends, the save effect writes the
  collection it has, which is empty after a failed load. So one stored record
  without `goals` makes the next mount erase the whole saved library
  (`MountOverMalformedSlot`).
- The detail dialog works on the record it was opened with.
  `src/pages/Index.tsx:48` keeps a reference to the record. The store never
  changes a record in place: each update puts a new record in the list. So
  the dialog's record goes stale after the first update. Each goal edit sends
  a list built from the original goals. A second goal added in the same
  session therefore replaces the first instead of joining it
  (`TwoGoalsInOneSession`). `ToggleTwice` is about the list function. Two
  clicks on one goal in one session both flip the original list, so the
  second click does not undo the first.
- The detail dialog is mounted once, before any game is chosen
  (`src/pages/Index.tsx:234-240`), and closing it only sets the chosen game
  back to null (`src/pages/Index.tsx:237`). Its score, notes and new-goal
  boxes take their initial values on that first mount, while the game is
  still null, so they are empty only at the first opening. After that each
  box keeps the last text typed into it, for whatever game is opened next
  (`GameDetail.DetailModal.constructor`, `GameDetail.DetailModal.Show`).
  Saving an untouched box at the first opening clears the game's score or
  notes (`UntouchedBoxesClear`). Notes typed for one game and left in the
  box are saved onto the next game by a plain Save Notes there
  (`NotesCarryToNextGame`).
- The genre table has no `'FPS'` key. Only the provider name "Shooter" reaches
  FPS, and a provider genre spelled "FPS" becomes 'Indie' (`GenreForName`).

## Model

| member | source | states |
|---|---|---|
| GameTypes.StatusesEnumerated | src/types/Game.ts:2 | the status type has exactly seven distinct values and every status is one of them |
| GameTypes.GenresEnumerated | src/types/Game.ts:3 | the genre type has exactly thirteen distinct tags, Action to Platformer |
| GameTypes.GenreNameInjective | src/types/Game.ts:3 | distinct tags have distinct spellings, so searching by tag name cannot confuse two tags |
| GameLibrary.NewGame | src/hooks/useGameLibrary.ts:41-46 | the added record carries the injected id and date, and its remaining fields are exactly the draft |
| GameLibrary.NewGameOfDraft | src/hooks/useGameLibrary.ts:41-46 | a record is rebuilt from its id, date added and draft part, so nothing else is added |
| GameLibrary.AddKeepsIdsUnique | src/hooks/useGameLibrary.ts:41-48 | appending with a fresh id keeps ids unique and leaves the earlier records untouched |
| GameLibrary.NewGameAddedFirst | src/hooks/useGameLibrary.ts:41-48 | a new record has no stamp earlier than its `dateAdded` exactly when the draft's stamps are no earlier than the moment of adding; a draft without stamps always qualifies |
| GameLibrary.AddKeepsAddedFirst | src/hooks/useGameLibrary.ts:41-48 | adding a stamp-free draft keeps every record's stamps no earlier than its addition |
| GameLibrary.WithStatusKeepsAddedFirst | src/hooks/useGameLibrary.ts:50-67 | a status change at a time no earlier than `dateAdded` keeps the stamps after the addition; at an earlier time, starting an unstarted game breaks that order |
| GameLibrary.SetStatusInKeepsAddedFirst | src/hooks/useGameLibrary.ts:50-67 | over the collection: a status change at a time no earlier than the touched records' addition keeps every record's stamps after its addition |
| GameLibrary.MergeKeepsAddedFirst | src/hooks/useGameLibrary.ts:69-73 | an update setting no stamp and no `dateAdded` keeps the stamps after the addition; one moving `dateAdded` past the start stamp breaks it |
| GameLibrary.UpdateInKeepsAddedFirst | src/hooks/useGameLibrary.ts:69-73 | over the collection: such an update keeps every record's stamps after its addition |
| GameLibrary.RemoveIdKeepsAddedFirst | src/hooks/useGameLibrary.ts:75-77 | deleting keeps every remaining record's stamps after its addition |
| GameLibrary.Library.AddGame | src/hooks/useGameLibrary.ts:41-48 | the collection becomes the old one with exactly the new record appended at the end |
| GameLibrary.WithStatus | src/hooks/useGameLibrary.ts:51-64 | sets the status; a start stamp is added only on entering playing when unset, a completion stamp only on entering finished or completed when unset; set stamps never change; other fields are kept |
| GameLibrary.WithStatusIdempotent | src/hooks/useGameLibrary.ts:55-61 | repeating a status change at any later time changes nothing |
| GameLibrary.FinishedThenCompleted | src/hooks/useGameLibrary.ts:59-61 | finished then completed keeps the completion stamp of the first transition |
| GameLibrary.StampsAreFinal | src/hooks/useGameLibrary.ts:55-61 | a start stamp, once set, survives every sequence of status changes, and so does a completion stamp, each on its own; the last status wins |
| GameLibrary.ReplayStartPauseResumeComplete | src/hooks/useGameLibrary.ts:50-67 | backlog, playing, paused, playing, completed: the start stamp is the first playing time and completion is stamped at the completed time |
| GameLibrary.WithStatusClock | src/hooks/useGameLibrary.ts:55-61 | with a clock that does not run backwards, no stamp is later than the current time and the date added is kept |
| GameLibrary.StartMayFollowCompletion | src/hooks/useGameLibrary.ts:55-61 | completed and then playing gives a start stamp later than the completion stamp |
| GameLibrary.SetStatusIn | src/hooks/useGameLibrary.ts:50-67 | the collection after `updateGameStatus`; its contract is in `SetStatusInFrame` and `SetStatusInIdempotent` |
| GameLibrary.SetStatusInFrame | src/hooks/useGameLibrary.ts:50-67 | only records with the id change, and each of them becomes exactly the per-game status change at that time; length and every id are kept; an unknown id is a no-op; unique ids stay unique |
| GameLibrary.SetStatusInIdempotent | src/hooks/useGameLibrary.ts:50-67 | repeating updateGameStatus on the collection changes nothing |
| GameLibrary.Library.UpdateGameStatus | src/hooks/useGameLibrary.ts:50-67 | the collection becomes the status-changed collection for that id and time |
| GameLibrary.Merge | src/hooks/useGameLibrary.ts:71 | the shallow merge `{...game, ...updates}`; its contract is in `MergeOverwritesOnlyNamed`, `MergeIdempotent` and `MergeKeepsStamps` |
| GameLibrary.MergeNoChanges | src/hooks/useGameLibrary.ts:69-73 | merging the empty update is the identity |
| GameLibrary.MergeIdempotent | src/hooks/useGameLibrary.ts:69-73 | merging the same update twice is merging it once |
| GameLibrary.MergeKeepsStamps | src/hooks/useGameLibrary.ts:69-73 | the shallow merge never derives a stamp from a status it sets |
| GameLibrary.MergeOverwritesOnlyNamed | src/hooks/useGameLibrary.ts:69-73 | for each of the fourteen fields: a present field overwrites (goals replaced wholesale, explicit undefined clears) and an absent field is kept |
| GameLibrary.MergeAcceptsAnyScore | src/hooks/useGameLibrary.ts:69-73 | the merge does not validate: a score of 11 is stored |
| GameLibrary.UpdateIn | src/hooks/useGameLibrary.ts:69-73 | the collection after `updateGame`; its contract is in `UpdateInFrame` and `UpdateInKeepsStamps` |
| GameLibrary.UpdateInFrame | src/hooks/useGameLibrary.ts:69-73 | only records with the id are merged; length kept; an unknown id is a no-op; ids stay unique unless the update sets an id |
| GameLibrary.UpdateInKeepsStamps | src/hooks/useGameLibrary.ts:69-73 | an update without stamps leaves all stamps in the collection unchanged, whatever status it sets |
| GameLibrary.Library.UpdateGame | src/hooks/useGameLibrary.ts:69-73 | the collection becomes the merged collection for that id |
| GameLibrary.RemoveId | src/hooks/useGameLibrary.ts:76 | the collection after `deleteGame`; its contract is in `RemoveIdSpec` and `RemoveIdShrinks` |
| GameLibrary.RemoveIdSpec | src/hooks/useGameLibrary.ts:75-77 | deleting keeps, in order, exactly the records with another id, every copy of each; an unknown id is a no-op |
| GameLibrary.RemoveIdShrinks | src/hooks/useGameLibrary.ts:75-77 | deleting an id that occurs removes at least one record |
| GameLibrary.Library.DeleteGame | src/hooks/useGameLibrary.ts:75-77 | the collection becomes the filtered collection without that id |
| GameLibrary.GamesByStatus | src/hooks/useGameLibrary.ts:79-81 | `getGamesByStatus`; its contract is in `ViewsAgree`, `ViewsAreStableFilters` and `DeletedGameLeavesViews` |
| GameLibrary.GamesByPlatform | src/hooks/useGameLibrary.ts:83-85 | `getGamesByPlatform`; its contract is in `ViewsAgree`, `ViewsAreStableFilters` and `DeletedGameLeavesViews` |
| GameLibrary.CurrentlyPlaying | src/hooks/useGameLibrary.ts:87 | `currentlyPlaying`; its contract is in `ViewsAgree`, `ViewsAreStableFilters` and `DeletedGameLeavesViews` |
| GameLibrary.BacklogCount | src/hooks/useGameLibrary.ts:88 | `backlogCount`; its contract is in `ViewsAgree`, `ViewsAreStableFilters` and `DeletedGameLeavesViews` |
| GameLibrary.CompletedCount | src/hooks/useGameLibrary.ts:89 | `completedCount`; its contract is in `ViewsAgree`, `ViewsAreStableFilters` and `DeletedGameLeavesViews` |
| GameLibrary.ViewsAgree | src/hooks/useGameLibrary.ts:79-89 | currently playing equals the playing view; the backlog count is the size of the backlog view; the completed count is the finished count plus the completed count |
| GameLibrary.ViewsAreStableFilters | src/hooks/useGameLibrary.ts:79-85 | the status and platform views are in-order subsequences holding exactly the records with that status or platform, every copy of each |
| GameLibrary.DeletedGameLeavesViews | src/hooks/useGameLibrary.ts:75-87 | after a delete, the by-status, by-platform and currently-playing views hold no record with that id |
| GameLibrary.Parse | src/hooks/useGameLibrary.ts:16-25 | parsing succeeds exactly when every record has goals; on success each game is its record with dates rebuilt |
| GameLibrary.GameRoundTrip | src/hooks/useGameLibrary.ts:16-25 | reading back a written record, goal dates included, gives the same game |
| GameLibrary.Serialize | src/hooks/useGameLibrary.ts:37 | the text the save effect writes; its contract is in `GameRoundTrip` and `SaveLoadRoundTrip` |
| GameLibrary.LoadedGames | src/hooks/useGameLibrary.ts:12-32 | the collection after the mount effect; its contract is in `SaveLoadRoundTrip` and `LoadFailureKeepsCurrent` |
| GameLibrary.SaveLoadRoundTrip | src/hooks/useGameLibrary.ts:12-39 | loading what was saved restores the collection exactly |
| GameLibrary.LoadFailureKeepsCurrent | src/hooks/useGameLibrary.ts:12-32 | a missing, empty, unparsable or partly malformed slot leaves the collection as it was (empty at mount) |
| GameLibrary.Library.constructor | src/hooks/useGameLibrary.ts:8-9 | a new store has no games and is loading |
| GameLibrary.Library.LoadEffect | src/hooks/useGameLibrary.ts:12-32 | loading ends in every case and the collection becomes the loaded collection |
| GameLibrary.Library.SaveEffect | src/hooks/useGameLibrary.ts:35-39 | nothing is written while loading; otherwise the whole collection is written under the fixed key and nothing else in storage changes |
| GameLibrary.Reopen | src/hooks/useGameLibrary.ts:12-39 | a new session opened on the saved storage loads the same collection |
| GameLibrary.MountOverMalformedSlot | src/hooks/useGameLibrary.ts:12-39 | on a slot with a record lacking goals, the mount ends with no games, not loading, and the empty collection written over the stored records |
| GameDetail.StatusChange | src/components/GameDetailModal.tsx:48-50 | the status buttons send an update that names only the status |
| GameDetail.StatusChangeSkipsStamps | src/components/GameDetailModal.tsx:48-50 | through the dialog a status change only replaces the status |
| GameDetail.StatusPathsDiffer | src/components/GameDetailModal.tsx:48-50 | entering playing from the dialog records no start, while the store's status path does |
| GameDetail.StatusChangeInCollection | src/components/GameDetailModal.tsx:48-50 | applied to the collection, the dialog's status change sets the status and leaves every stamp unchanged |
| GameDetail.ScoreUpdateAsWritten | src/components/GameDetailModal.tsx:52-56 | the written guard rejects only nonzero parsed scores outside 1..10; otherwise it sends the parsed score, undefined included |
| GameDetail.ZeroScorePassesGuard | src/components/GameDetailModal.tsx:54 | a parsed 0 passes the written guard and is stored out of range |
| GameDetail.ScoreUpdate | src/components/GameDetailModal.tsx:52-56 | the corrected guard rejects exactly the parsed scores outside 1..10 and otherwise sends the score, undefined for an empty field |
| GameDetail.ScoreUpdateKeepsRange | src/components/GameDetailModal.tsx:52-56 | whatever the corrected guard accepts keeps the score in range; it agrees with the written guard except at 0 |
| GameDetail.NotesUpdate | src/components/GameDetailModal.tsx:58-60 | notes that are all spaces become undefined; otherwise the trimmed, nonblank text is stored |
| GameDetail.AddGoal | src/components/GameDetailModal.tsx:62-74 | blank text does nothing; otherwise one goal is appended with trimmed text, not completed, with the injected id and time |
| GameDetail.DetailModal.constructor | src/components/GameDetailModal.tsx:42-46 | the dialog is mounted with no game and every box empty; these are the only initial values the boxes get, since the page never remounts the dialog |
| GameDetail.DetailModal.Show | src/pages/Index.tsx:234-240 | opening or closing the dialog changes only the shown game; the score, notes and new-goal boxes keep their text across games |
| GameDetail.DetailModal.HandleStatusChange | src/components/GameDetailModal.tsx:48-50 | sends, for the shown game's id, an update naming only the chosen status |
| GameDetail.DetailModal.HandleScoreUpdate | src/components/GameDetailModal.tsx:52-56 | with the corrected guard: sends nothing exactly when the score box holds a number outside 1..10, otherwise sends the box's value for the shown game's id, and what it sends keeps the score in range |
| GameDetail.DetailModal.HandleNotesUpdate | src/components/GameDetailModal.tsx:58-60 | sends, for the shown game's id, the trimmed notes box, or undefined when the box is blank, and nothing else |
| GameDetail.DetailModal.HandleAddGoal | src/components/GameDetailModal.tsx:62-77 | sends, for the shown game's id, the shown record's goals plus the new goal and clears the input, or sends nothing and keeps the input when it is blank |
| GameDetail.DetailModal.HandleToggleGoal | src/components/GameDetailModal.tsx:79-84 | sends, for the shown game's id, the shown record's goals with that goal flipped |
| GameDetail.DetailModal.HandleDeleteGoal | src/components/GameDetailModal.tsx:86-89 | sends, for the shown game's id, the shown record's goals without that goal |
| GameDetail.NotesCarryToNextGame | src/components/GameDetailModal.tsx:43 | notes "great" saved on one game and left in the box are sent again for the next game opened, whose notes become "great" |
| GameDetail.DialogUpdatesKeepAddedFirst | src/components/GameDetailModal.tsx:48-89 | no update the dialog sends carries a stamp or `dateAdded`, so each keeps every record's stamps no earlier than its addition |
| GameDetail.TwoGoalsInOneSession | src/components/GameDetailModal.tsx:62-77 | two goals added in one dialog session: the second update is the original goals plus the second goal only, so the first goal is gone |
| GameDetail.UntouchedBoxesClear | src/components/GameDetailModal.tsx:42-60 | at the first opening, with the boxes still empty, saving the score clears the score and saving the notes clears the notes and nothing else |
| GameDetail.ToggleGoal | src/components/GameDetailModal.tsx:79-84 | flips the completed flag of goals with that id only; length, order and all other fields are kept |
| GameDetail.ToggleTwice | src/components/GameDetailModal.tsx:79-84 | toggling twice restores the list |
| GameDetail.ToggleMovesCount | src/components/GameDetailModal.tsx:79-91 | toggling a goal whose id is unique moves the completed count by exactly one |
| GameDetail.DeleteGoal | src/components/GameDetailModal.tsx:86-89 | the goal list the delete handler sends; its contract is in `DeleteGoalSpec` |
| GameDetail.DeleteGoalSpec | src/components/GameDetailModal.tsx:86-89 | deleting keeps, in order, exactly the goals with another id, every copy of each |
| GameDetail.CompletedGoals | src/components/GameDetailModal.tsx:91 | the completed count is at most the number of goals |
| GameDetail.CompletedGoalsExtremes | src/components/GameDetailModal.tsx:91 | the count equals the number of goals exactly when all are done, and is zero exactly when none is |
| LibraryFilter.MatchesSearch | src/pages/Index.tsx:38-39 | the search part of the page filter; its contract is in `FilteredSpec`, `SearchIgnoresTermCase` and `GenreTagMatches` |
| LibraryFilter.FilteredGames | src/pages/Index.tsx:36-45 | `filteredGames`; its contract is in `FilteredSpec` and the monotonicity lemmas |
| LibraryFilter.FilteredSpec | src/pages/Index.tsx:36-45 | the page shows, in library order, exactly the games matching the term in title or genre, the status choice and the platform choice, every copy of each |
| LibraryFilter.TotalGames | src/pages/Index.tsx:87 | the Total Games card; its contract is in `TotalIgnoresFilters` |
| LibraryFilter.TotalIgnoresFilters | src/pages/Index.tsx:87 | the total is the unfiltered count and bounds every filtered count |
| LibraryFilter.ResetFiltersShowAll | src/pages/Index.tsx:38-41 | an empty term with both selectors on all keeps every game |
| LibraryFilter.StatusChoiceMonotone | src/pages/Index.tsx:40 | what one status shows is an in-order part of what all statuses show |
| LibraryFilter.PlatformChoiceMonotone | src/pages/Index.tsx:41 | what one platform shows is an in-order part of what all platforms show |
| LibraryFilter.SearchIgnoresTermCase | src/pages/Index.tsx:38-39 | the letter case of the search term does not change the result |
| LibraryFilter.GenreTagMatches | src/pages/Index.tsx:39 | searching for one of a game's tags finds the game |
| GameDatabase.MockIdsDistinct | src/services/gameDatabase.ts:20-109 | the fixed table has eight entries with ids 1 to 8 in order, all distinct |
| GameDatabase.SearchGames | src/services/gameDatabase.ts:111-122 | `searchGames` of the mock; its contract is in `SearchGamesSpec` and `BlankQueryFindsNothing` |
| GameDatabase.SearchGamesSpec | src/services/gameDatabase.ts:111-122 | a blank query finds nothing; otherwise the result is, in table order, exactly the entries whose lower-cased name contains the lower-cased untrimmed query; every hit is a table entry |
| GameDatabase.FindById | src/services/gameDatabase.ts:128-132 | returns the first entry with the id, or the not-found error exactly when no entry has it |
| GameDatabase.GetGameDetails | src/services/gameDatabase.ts:124-133 | `getGameDetails` of the mock; its contract is in `FindById` and `GetGameDetailsSpec` |
| GameDatabase.GetGameDetailsSpec | src/services/gameDatabase.ts:124-133 | ids 1 to 8 return their entries; every other id raises not-found |
| GameSearch.GenreLookupAsWritten | src/components/GameSearchInput.tsx:88-89 | the written lookup gives the table's tag, 'Indie' for unknown names, and an inherited object member for the names of Object.prototype |
| GameSearch.InheritedNameEscapesDefault | src/components/GameSearchInput.tsx:70-89 | the genre names "toString" and "constructor" get neither a tag nor 'Indie' |
| GameSearch.GenreFor | src/components/GameSearchInput.tsx:70-89 | the corrected lookup gives the table's tag, and 'Indie' for every other name |
| GameSearch.GenreForAgrees | src/components/GameSearchInput.tsx:70-89 | the corrected lookup matches the written one on non-inherited names; Role-playing gives RPG, Massively Multiplayer gives MMO, Shooter gives FPS |
| GameSearch.GenreForName | src/components/GameSearchInput.tsx:70-89 | every tag but FPS is reached from its own spelling; "FPS" gives 'Indie' |
| GameSearch.MapGenres | src/components/GameSearchInput.tsx:88-91 | `mapGenres` with the intended lookup; its contract is in `MapGenresSpec` |
| GameSearch.MapGenresAsWritten | src/components/GameSearchInput.tsx:88-91 | `mapGenres` with the lookup as written; its contract is in `MapGenresAgree` and `InheritedNameReachesGenres` |
| GameSearch.MapGenresSpec | src/components/GameSearchInput.tsx:88-91 | with the intended lookup: at most three tags, all distinct, ordered by first occurrence; a tag is kept exactly when fewer than three distinct tags occur before its first occurrence, so none is lost when there are three or fewer |
| GameSearch.MapGenresAgree | src/components/GameSearchInput.tsx:88-91 | the written pipeline gives the same tags as the intended one whenever no genre name is inherited from Object.prototype |
| GameSearch.InheritedNameReachesGenres | src/components/GameSearchInput.tsx:88-91 | for the genre list ["toString"] the written pipeline keeps the inherited member, the intended one gives 'Indie' |
| GameSearch.MapGenresExample | src/components/GameSearchInput.tsx:69-92 | aliases fold together, unknown names give 'Indie', and only the first three distinct tags are kept |
| GameSearch.Selection | src/components/GameSearchInput.tsx:94-102 | title and image come from the hit; play time is set exactly when positive; the critic score is undefined exactly when 0; the platform is the selected one |
| GameSearch.SelectionPlatformIgnoresHit | src/components/GameSearchInput.tsx:97 | no field of the hit affects the platform |
| GameSearch.SearchInput.constructor | src/components/GameSearchInput.tsx:27-30 | the box starts with an empty query, no results, not loading and the panel closed, holding the platform it was given |
| GameSearch.SearchInput.RunSearch | src/components/GameSearchInput.tsx:44-63 | a query shorter than two UTF-16 code units clears and hides results without asking the provider; otherwise hits are shown, and a failure clears results and leaves the panel flag |
| GameSearch.SearchInput.HandleGameSelect | src/components/GameSearchInput.tsx:94-108 | hands over the mapped selection and resets the query, results and panel |
| GameSearch.BlankQueryOpensEmptyPanel | src/components/GameSearchInput.tsx:46-56 | a two-space query passes the length gate, finds nothing with the mock provider, and opens an empty panel |
| GameSearch.EmojiQueryIsSearched | src/components/GameSearchInput.tsx:44-56 | a single emoji is two code units, so it passes the length gate, the provider is asked and the panel opens |
| Text.Utf16LengthBmp | src/components/GameSearchInput.tsx:46 | `length` equals the number of characters for text inside the Basic Multilingual Plane, and a single emoji has length 2 |
| GameDatabase.BlankQueryFindsNothing | src/services/gameDatabase.ts:115-117 | the mock finds nothing for a query of spaces |
| AddGame.DraftFromSelection | src/components/AddGameModal.tsx:28-38 | the draft is in the backlog with no goals, score or stamps; its platform is the dialog's; title, genre, image, play time and critic score are copied; blank notes become undefined, others are trimmed |
| AddGame.DraftIgnoresSelectionPlatform | src/components/AddGameModal.tsx:28-30 | the platform in the search data plays no part in the draft |
| AddGame.PickedHitBecomesBacklogGame | src/components/AddGameModal.tsx:28-40 | a picked hit becomes a backlog record with the dialog's platform, the hit's name and mapped genres, no goals, and the store's id and date |
| AddGame.AddGameModal.constructor | src/components/AddGameModal.tsx:17-19 | the dialog starts closed, on Steam, with empty notes |
| AddGame.AddGameModal.HandleGameSelect | src/components/AddGameModal.tsx:21-45 | returns the draft for the current platform and notes, clears the notes and closes the dialog |

## Left out

- Logging. The `console.error` calls after a failed load
  (src/hooks/useGameLibrary.ts:28) and after a failed search
  (src/components/GameSearchInput.tsx:58) are not modelled. They only write
  to the console.
- Rendering, dialogs, selects, cards and the colour tables in `GameCard.tsx`.
  The click-outside listener of the search box is also left out. All of these
  are presentation with no state the model needs.
- The 300 ms debounce, `clearTimeout`, and the mock's artificial delays. Search
  is one synchronous step, `RunSearch`. Several searches in flight that race
  each other are not modelled.
- `localStorage` and JSON text. The slot is the abstract `StoredText`. A stored
  record that lacks a field other than `goals`, and date text that does not
  parse, are not modelled. A write that fails because storage is full is also
  not modelled.
- `crypto.randomUUID` and `new Date()` become parameters. `updateGameStatus`
  reads the clock once per matching record. The model uses one time for all
  records with the id, which differs only when ids repeat.
- GameSearch.MapGenres: the genre pipeline, and so `Selection`, `DraftFromSelection`
  and `PickedHitBecomesBacklogGame`, uses the corrected lookup `GenreFor`. The
  lookup as written is modelled in `MapGenresAsWritten`, and `MapGenresAgree`
  shows the two agree unless a genre name is inherited from Object.prototype.
  For such a name the stored record would hold a function, which the model's
  `Genre` type cannot hold.
- `toLowerCase` is modelled for the ASCII letters only. Characters outside ASCII
  are unchanged in the model.
- `parseInt` on the score field is not modelled. The handler takes the parsed
  value, or `None` for an empty field. So the NaN that non-numeric text produces
  is not modelled. The code would let NaN through the guard and store it.
- The float `rating` of a search hit, and `toLocaleDateString`, are not
  modelled.
- GameSearch.SearchInput.HandleGameSelect: the search box's `selectedPlatform` prop is
  a constant of the box. The only caller never passes it
  (src/components/AddGameModal.tsx:67), so at run time it is undefined. The
  dialog's draft ignores it, so the draft is the same either way.
- Plain setters for the dialogs' inputs (`SetQuery`, `SetPlatform`, `SetNotes`,
  `SetScore`, `SetOpen`, `SetNewGoal`) each assign one field. They have no rows.
- GameDetail.DetailModal.HandleScoreUpdate: the dialog's Save Score uses the
  corrected guard `ScoreUpdate`. The guard as written differs only for a
  parsed 0 (`ScoreUpdateKeepsRange`, `ZeroScorePassesGuard`).

## Findings

| source | as written | input that shows it | evidently intended | confidence | as-written member | corrected member |
|---|---|---|---|---|---|---|
| src/components/GameDetailModal.tsx:54 | `score && (score < 1 \|\| score > 10)` is false for 0, so a parsed 0 is stored | score field "0": the update sets `userScore` to 0, outside the documented 1-10 | reject every parsed score outside 1..10, clear on an empty field | medium, not executed | GameDetail.ScoreUpdateAsWritten, GameDetail.ZeroScorePassesGuard | GameDetail.ScoreUpdate, GameDetail.ScoreUpdateKeepsRange |
| src/components/GameSearchInput.tsx:89 | `genreMap[g.name] \|\| 'Indie'` on an object literal also finds the members inherited from Object.prototype | a provider genre named "toString" maps to a function, not to a tag | every name outside the table maps to 'Indie' | high that the lookup behaves so, low that the provider sends such names; not executed | GameSearch.GenreLookupAsWritten, GameSearch.InheritedNameEscapesDefault, GameSearch.InheritedNameReachesGenres | GameSearch.GenreFor, GameSearch.GenreForAgrees, GameSearch.MapGenresSpec, GameSearch.MapGenresAgree |
