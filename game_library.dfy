/** The library store: the in-memory list of games, its mutators, its
    derived views and the load/save lifecycle against a local key-value
    slot. Fresh ids and the clock are parameters of the mutators. */
module GameLibrary {
  import opened Wrappers
  import opened Seqs
  import opened GameTypes

  /** The fixed storage key the whole collection is saved under. */
  const StorageKey: string := "game-library"

  // ---------------------------------------------------------------- drafts

  /** A game without its `id` and `dateAdded`, which the store assigns. */
  datatype GameDraft = GameDraft(
    title: string,
    platform: Platform,
    status: GameStatus,
    genre: seq<Genre>,
    imageUrl: Option<string>,
    howLongToBeat: Option<int>,
    metacriticScore: Option<int>,
    userScore: Option<int>,
    goals: seq<GameGoal>,
    dateStarted: Option<Timestamp>,
    dateCompleted: Option<Timestamp>,
    notes: Option<string>)

  /** The draft part of a game, dropping `id` and `dateAdded`. */
  function DraftOf(g: Game): GameDraft {
    GameDraft(g.title, g.platform, g.status, g.genre, g.imageUrl, g.howLongToBeat,
              g.metacriticScore, g.userScore, g.goals, g.dateStarted, g.dateCompleted, g.notes)
  }

  /** `{...draft, id, dateAdded: now}`. */
  function NewGame(d: GameDraft, id: string, now: Timestamp): (g: Game)
    ensures g.id == id && g.dateAdded == now
    ensures DraftOf(g) == d
  {
    Game(id, d.title, d.platform, d.status, d.genre, d.imageUrl, d.howLongToBeat,
         d.metacriticScore, d.userScore, d.goals, now, d.dateStarted, d.dateCompleted, d.notes)
  }

  /** A game is determined by its id, its date added and its draft part. */
  lemma NewGameOfDraft(g: Game)
    ensures NewGame(DraftOf(g), g.id, g.dateAdded) == g
  {
  }

  // ------------------------------------------------------- stamp order

  /** Neither stamp predates the moment the game was added. */
  predicate AddedFirst(g: Game) {
    (g.dateStarted.Some? ==> g.dateAdded <= g.dateStarted.value)
    && (g.dateCompleted.Some? ==> g.dateAdded <= g.dateCompleted.value)
  }

  /** Every record of the collection was added before it was stamped. */
  predicate AllAddedFirst(gs: seq<Game>) {
    forall k :: 0 <= k < |gs| ==> AddedFirst(gs[k])
  }

  /** A new game meets the order exactly when the draft's own stamps are no
      earlier than the moment of adding; a draft without stamps always does. */
  lemma NewGameAddedFirst(d: GameDraft, id: string, now: Timestamp)
    ensures AddedFirst(NewGame(d, id, now)) <==>
      (d.dateStarted.Some? ==> now <= d.dateStarted.value) && (d.dateCompleted.Some? ==> now <= d.dateCompleted.value)
    ensures d.dateStarted.None? && d.dateCompleted.None? ==> AddedFirst(NewGame(d, id, now))
  {
  }

  // ------------------------------------------------------------ id helpers

  ghost predicate UniqueIds(gs: seq<Game>) {
    forall a, b :: 0 <= a < b < |gs| ==> gs[a].id != gs[b].id
  }

  ghost predicate FreshId(gs: seq<Game>, id: string) {
    forall k :: 0 <= k < |gs| ==> gs[k].id != id
  }

  /** Appending a game whose id the generator made fresh keeps ids unique,
      and the earlier records are untouched. */
  lemma AddKeepsIdsUnique(gs: seq<Game>, d: GameDraft, id: string, now: Timestamp)
    requires UniqueIds(gs) && FreshId(gs, id)
    ensures UniqueIds(gs + [NewGame(d, id, now)])
    ensures (gs + [NewGame(d, id, now)])[..|gs|] == gs
  {
  }

  // --------------------------------------------------- status transitions

  /** The per-game body of `updateGameStatus`: set the status; stamp
      `dateStarted` on entering `playing` and `dateCompleted` on entering
      `finished` or `completed`, each only when it is still unset. */
  function WithStatus(g: Game, s: GameStatus, now: Timestamp): (r: Game)
    ensures r.status == s
    ensures r.(status := g.status, dateStarted := g.dateStarted, dateCompleted := g.dateCompleted) == g
    ensures g.dateStarted.Some? ==> r.dateStarted == g.dateStarted
    ensures s != Playing ==> r.dateStarted == g.dateStarted
    ensures s == Playing && g.dateStarted.None? ==> r.dateStarted == Some(now)
    ensures g.dateCompleted.Some? ==> r.dateCompleted == g.dateCompleted
    ensures s != Finished && s != Completed ==> r.dateCompleted == g.dateCompleted
    ensures (s == Finished || s == Completed) && g.dateCompleted.None? ==> r.dateCompleted == Some(now)
  {
    var started := if s == Playing && g.dateStarted.None? then Some(now) else g.dateStarted;
    var completed := if (s == Finished || s == Completed) && g.dateCompleted.None? then Some(now) else g.dateCompleted;
    g.(status := s, dateStarted := started, dateCompleted := completed)
  }

  /** Repeating a status change, at any later time, changes nothing. */
  lemma WithStatusIdempotent(g: Game, s: GameStatus, t1: Timestamp, t2: Timestamp)
    ensures WithStatus(WithStatus(g, s, t1), s, t2) == WithStatus(g, s, t1)
  {
  }

  /** `finished` and then `completed` keeps the completion stamp of the first. */
  lemma FinishedThenCompleted(g: Game, t1: Timestamp, t2: Timestamp)
    requires g.dateCompleted.None?
    ensures WithStatus(WithStatus(g, Finished, t1), Completed, t2).dateCompleted == Some(t1)
  {
  }

  /** A status change at a time no earlier than the game's addition keeps
      the stamp order; a clock that runs behind `dateAdded` breaks it. */
  lemma WithStatusKeepsAddedFirst(g: Game, s: GameStatus, now: Timestamp)
    ensures AddedFirst(g) && g.dateAdded <= now ==> AddedFirst(WithStatus(g, s, now))
    ensures now < g.dateAdded && s == Playing && g.dateStarted.None? ==> !AddedFirst(WithStatus(g, s, now))
  {
  }

  /** Once a stamp is set, no sequence of status changes moves it; each
      stamp is final on its own. */
  lemma {:induction false} StampsAreFinal(g: Game, path: seq<GameStatus>, times: seq<Timestamp>)
    requires |path| == |times|
    ensures g.dateStarted.Some? ==> Replay(g, path, times).dateStarted == g.dateStarted
    ensures g.dateCompleted.Some? ==> Replay(g, path, times).dateCompleted == g.dateCompleted
    ensures |path| > 0 ==> Replay(g, path, times).status == path[|path| - 1]
    decreases |path|
  {
    if |path| > 0 {
      StampsAreFinal(WithStatus(g, path[0], times[0]), path[1..], times[1..]);
    }
  }

  /** The game after the status changes `path`, made at the matching `times`. */
  function Replay(g: Game, path: seq<GameStatus>, times: seq<Timestamp>): Game
    requires |path| == |times|
    decreases |path|
  {
    if path == [] then g else Replay(WithStatus(g, path[0], times[0]), path[1..], times[1..])
  }

  /** The walk-through backlog -> playing -> paused -> playing -> completed
      keeps the first start stamp and stamps completion once. */
  lemma ReplayStartPauseResumeComplete(g: Game, t1: Timestamp, t2: Timestamp, t3: Timestamp, t4: Timestamp)
    requires g.status == Backlog && g.dateStarted.None? && g.dateCompleted.None?
    ensures Replay(g, [Playing, Paused, Playing, Completed], [t1, t2, t3, t4]).dateStarted == Some(t1)
    ensures Replay(g, [Playing, Paused, Playing, Completed], [t1, t2, t3, t4]).dateCompleted == Some(t4)
    ensures Replay(g, [Playing, Paused, Playing, Completed], [t1, t2, t3, t4]).status == Completed
  {
  }

  /** Stamps never run ahead of a clock that does not run backwards. */
  ghost predicate StampsNoLaterThan(g: Game, t: Timestamp) {
    g.dateAdded <= t
    && (g.dateStarted.Some? ==> g.dateStarted.value <= t)
    && (g.dateCompleted.Some? ==> g.dateCompleted.value <= t)
  }

  lemma WithStatusClock(g: Game, s: GameStatus, before: Timestamp, now: Timestamp)
    requires StampsNoLaterThan(g, before) && before <= now
    ensures StampsNoLaterThan(WithStatus(g, s, now), now)
    ensures WithStatus(g, s, now).dateAdded == g.dateAdded
  {
  }

  /** Status changes may move in any order, so a game can be started after it
      was completed: the start stamp can come later than the completion stamp. */
  lemma StartMayFollowCompletion(g: Game, t1: Timestamp, t2: Timestamp)
    requires g.dateStarted.None? && g.dateCompleted.None? && t1 < t2
    ensures WithStatus(WithStatus(g, Completed, t1), Playing, t2).dateCompleted == Some(t1)
    ensures WithStatus(WithStatus(g, Completed, t1), Playing, t2).dateStarted == Some(t2)
  {
  }

  // ------------------------------------------------------- partial updates

  /** One field of a `Partial<Game>`: absent, or present with a value.
      For an optional field, `Set(None)` is an explicit `undefined`. */
  datatype Patch<T> = Keep | Set(value: T) {
    function ApplyTo(current: T): T {
      if Set? then value else current
    }
  }

  /** `Partial<Game>`, the argument of `updateGame`. */
  datatype GameUpdate = GameUpdate(
    id: Patch<string>,
    title: Patch<string>,
    platform: Patch<Platform>,
    status: Patch<GameStatus>,
    genre: Patch<seq<Genre>>,
    imageUrl: Patch<Option<string>>,
    howLongToBeat: Patch<Option<int>>,
    metacriticScore: Patch<Option<int>>,
    userScore: Patch<Option<int>>,
    goals: Patch<seq<GameGoal>>,
    dateAdded: Patch<Timestamp>,
    dateStarted: Patch<Option<Timestamp>>,
    dateCompleted: Patch<Option<Timestamp>>,
    notes: Patch<Option<string>>)

  /** The empty object `{}`. */
  function NoChanges(): GameUpdate {
    GameUpdate(Keep, Keep, Keep, Keep, Keep, Keep, Keep, Keep, Keep, Keep, Keep, Keep, Keep, Keep)
  }

  /** `{...game, ...updates}`: the fields present in `u` overwrite, the others stay. */
  function Merge(g: Game, u: GameUpdate): Game {
    Game(u.id.ApplyTo(g.id), u.title.ApplyTo(g.title), u.platform.ApplyTo(g.platform),
         u.status.ApplyTo(g.status), u.genre.ApplyTo(g.genre), u.imageUrl.ApplyTo(g.imageUrl),
         u.howLongToBeat.ApplyTo(g.howLongToBeat), u.metacriticScore.ApplyTo(g.metacriticScore),
         u.userScore.ApplyTo(g.userScore), u.goals.ApplyTo(g.goals), u.dateAdded.ApplyTo(g.dateAdded),
         u.dateStarted.ApplyTo(g.dateStarted), u.dateCompleted.ApplyTo(g.dateCompleted),
         u.notes.ApplyTo(g.notes))
  }

  /** An empty update is the identity. */
  lemma MergeNoChanges(g: Game)
    ensures Merge(g, NoChanges()) == g
  {
  }

  /** Applying the same update twice is applying it once. */
  lemma MergeIdempotent(g: Game, u: GameUpdate)
    ensures Merge(Merge(g, u), u) == Merge(g, u)
  {
  }

  /** The merge never derives the date stamps from a status it sets: a stamp
      changes only when the update itself carries it. */
  lemma MergeKeepsStamps(g: Game, u: GameUpdate)
    requires u.dateStarted.Keep? && u.dateCompleted.Keep?
    ensures Merge(g, u).dateStarted == g.dateStarted
    ensures Merge(g, u).dateCompleted == g.dateCompleted
  {
  }

  /** Every field the update does not name keeps its value, and every field
      it names takes the new value: `goals` is replaced wholesale, and an
      explicit `undefined` clears an optional field. */
  lemma MergeOverwritesOnlyNamed(g: Game, u: GameUpdate)
    ensures u.id.Keep? ==> Merge(g, u).id == g.id
    ensures u.id.Set? ==> Merge(g, u).id == u.id.value
    ensures u.title.Keep? ==> Merge(g, u).title == g.title
    ensures u.title.Set? ==> Merge(g, u).title == u.title.value
    ensures u.platform.Keep? ==> Merge(g, u).platform == g.platform
    ensures u.platform.Set? ==> Merge(g, u).platform == u.platform.value
    ensures u.status.Keep? ==> Merge(g, u).status == g.status
    ensures u.status.Set? ==> Merge(g, u).status == u.status.value
    ensures u.genre.Keep? ==> Merge(g, u).genre == g.genre
    ensures u.genre.Set? ==> Merge(g, u).genre == u.genre.value
    ensures u.imageUrl.Keep? ==> Merge(g, u).imageUrl == g.imageUrl
    ensures u.imageUrl.Set? ==> Merge(g, u).imageUrl == u.imageUrl.value
    ensures u.howLongToBeat.Keep? ==> Merge(g, u).howLongToBeat == g.howLongToBeat
    ensures u.howLongToBeat.Set? ==> Merge(g, u).howLongToBeat == u.howLongToBeat.value
    ensures u.metacriticScore.Keep? ==> Merge(g, u).metacriticScore == g.metacriticScore
    ensures u.metacriticScore.Set? ==> Merge(g, u).metacriticScore == u.metacriticScore.value
    ensures u.userScore.Keep? ==> Merge(g, u).userScore == g.userScore
    ensures u.userScore.Set? ==> Merge(g, u).userScore == u.userScore.value
    ensures u.goals.Keep? ==> Merge(g, u).goals == g.goals
    ensures u.goals.Set? ==> Merge(g, u).goals == u.goals.value
    ensures u.dateAdded.Keep? ==> Merge(g, u).dateAdded == g.dateAdded
    ensures u.dateAdded.Set? ==> Merge(g, u).dateAdded == u.dateAdded.value
    ensures u.dateStarted.Keep? ==> Merge(g, u).dateStarted == g.dateStarted
    ensures u.dateStarted.Set? ==> Merge(g, u).dateStarted == u.dateStarted.value
    ensures u.dateCompleted.Keep? ==> Merge(g, u).dateCompleted == g.dateCompleted
    ensures u.dateCompleted.Set? ==> Merge(g, u).dateCompleted == u.dateCompleted.value
    ensures u.notes.Keep? ==> Merge(g, u).notes == g.notes
    ensures u.notes.Set? ==> Merge(g, u).notes == u.notes.value
  {
  }

  /** An update that sets no stamp and no `dateAdded` keeps the stamp
      order; one that moves `dateAdded` past a stamp breaks it. */
  lemma MergeKeepsAddedFirst(g: Game, u: GameUpdate)
    ensures AddedFirst(g) && u.dateAdded.Keep? && u.dateStarted.Keep? && u.dateCompleted.Keep? ==> AddedFirst(Merge(g, u))
    ensures g.dateStarted.Some? && u.dateStarted.Keep? && u.dateAdded.Set? && g.dateStarted.value < u.dateAdded.value ==> !AddedFirst(Merge(g, u))
  {
  }

  /** The store does not validate: a score of 11 is stored as given. */
  lemma MergeAcceptsAnyScore(g: Game)
    ensures !ScoreInRange(Merge(g, NoChanges().(userScore := Set(Some(11)))))
  {
  }

  // ------------------------------------------------ collection updaters

  /** `gs.map((g: Game) => g.id === id ? f(g) : g)`. */
  function MapWhereId(gs: seq<Game>, id: string, f: Game -> Game): (r: seq<Game>)
    ensures |r| == |gs|
    ensures forall k :: 0 <= k < |gs| && gs[k].id != id ==> r[k] == gs[k]
    ensures forall k :: 0 <= k < |gs| && gs[k].id == id ==> r[k] == f(gs[k])
  {
    seq(|gs|, k requires 0 <= k < |gs| => if gs[k].id == id then f(gs[k]) else gs[k])
  }

  /** The new collection of `updateGameStatus(id, s)` at time `now`. */
  function SetStatusIn(gs: seq<Game>, id: string, s: GameStatus, now: Timestamp): seq<Game> {
    MapWhereId(gs, id, g => WithStatus(g, s, now))
  }

  /** The new collection of `updateGame(id, u)`. */
  function UpdateIn(gs: seq<Game>, id: string, u: GameUpdate): seq<Game> {
    MapWhereId(gs, id, g => Merge(g, u))
  }

  /** The new collection of `deleteGame(id)`. */
  function RemoveId(gs: seq<Game>, id: string): seq<Game> {
    Filter(gs, (g: Game) => g.id != id)
  }

  /** A status change touches only records with that id and keeps every id. */
  lemma SetStatusInFrame(gs: seq<Game>, id: string, s: GameStatus, now: Timestamp)
    ensures |SetStatusIn(gs, id, s, now)| == |gs|
    ensures forall k :: 0 <= k < |gs| ==> SetStatusIn(gs, id, s, now)[k].id == gs[k].id
    ensures forall k :: 0 <= k < |gs| && gs[k].id != id ==> SetStatusIn(gs, id, s, now)[k] == gs[k]
    ensures forall k :: 0 <= k < |gs| && gs[k].id == id ==> SetStatusIn(gs, id, s, now)[k].status == s
    ensures forall k :: 0 <= k < |gs| && gs[k].id == id ==> SetStatusIn(gs, id, s, now)[k] == WithStatus(gs[k], s, now)
    ensures FreshId(gs, id) ==> SetStatusIn(gs, id, s, now) == gs
    ensures UniqueIds(gs) ==> UniqueIds(SetStatusIn(gs, id, s, now))
  {
  }

  /** A status change at the same later time is a no-op the second time. */
  lemma SetStatusInIdempotent(gs: seq<Game>, id: string, s: GameStatus, t1: Timestamp, t2: Timestamp)
    ensures SetStatusIn(SetStatusIn(gs, id, s, t1), id, s, t2) == SetStatusIn(gs, id, s, t1)
  {
    var once := SetStatusIn(gs, id, s, t1);
    forall k | 0 <= k < |gs| ensures SetStatusIn(once, id, s, t2)[k] == once[k] {
      if gs[k].id == id {
        WithStatusIdempotent(gs[k], s, t1, t2);
      }
    }
  }

  /** A status change whose time is no earlier than the addition of any
      record it touches keeps the whole collection in stamp order. */
  lemma SetStatusInKeepsAddedFirst(gs: seq<Game>, id: string, s: GameStatus, now: Timestamp)
    requires AllAddedFirst(gs)
    requires forall k :: 0 <= k < |gs| && gs[k].id == id ==> gs[k].dateAdded <= now
    ensures AllAddedFirst(SetStatusIn(gs, id, s, now))
  {
    SetStatusInFrame(gs, id, s, now);
    forall k | 0 <= k < |gs| && gs[k].id == id
      ensures AddedFirst(SetStatusIn(gs, id, s, now)[k])
    {
      WithStatusKeepsAddedFirst(gs[k], s, now);
    }
  }

  /** An update touches only records with that id; an unknown id is a no-op. */
  lemma UpdateInFrame(gs: seq<Game>, id: string, u: GameUpdate)
    ensures |UpdateIn(gs, id, u)| == |gs|
    ensures forall k :: 0 <= k < |gs| && gs[k].id != id ==> UpdateIn(gs, id, u)[k] == gs[k]
    ensures forall k :: 0 <= k < |gs| && gs[k].id == id ==> UpdateIn(gs, id, u)[k] == Merge(gs[k], u)
    ensures FreshId(gs, id) ==> UpdateIn(gs, id, u) == gs
    ensures u.id.Keep? && UniqueIds(gs) ==> UniqueIds(UpdateIn(gs, id, u))
  {
    if u.id.Keep? {
      assert forall k :: 0 <= k < |gs| ==> UpdateIn(gs, id, u)[k].id == gs[k].id;
    }
  }

  /** An update that carries no stamps leaves every stamp in the collection
      alone, whatever status it sets. */
  lemma UpdateInKeepsStamps(gs: seq<Game>, id: string, u: GameUpdate)
    requires u.dateStarted.Keep? && u.dateCompleted.Keep?
    ensures forall k :: 0 <= k < |gs| ==>
      UpdateIn(gs, id, u)[k].dateStarted == gs[k].dateStarted
      && UpdateIn(gs, id, u)[k].dateCompleted == gs[k].dateCompleted
  {
  }

  /** An update that sets no stamp and no `dateAdded` keeps the whole
      collection in stamp order. */
  lemma UpdateInKeepsAddedFirst(gs: seq<Game>, id: string, u: GameUpdate)
    requires AllAddedFirst(gs)
    requires u.dateAdded.Keep? && u.dateStarted.Keep? && u.dateCompleted.Keep?
    ensures AllAddedFirst(UpdateIn(gs, id, u))
  {
    forall k | 0 <= k < |gs| && gs[k].id == id
      ensures AddedFirst(UpdateIn(gs, id, u)[k])
    {
      MergeKeepsAddedFirst(gs[k], u);
    }
  }

  /** Adding a game from a draft without stamps keeps the collection in
      stamp order. */
  lemma AddKeepsAddedFirst(gs: seq<Game>, d: GameDraft, id: string, now: Timestamp)
    requires AllAddedFirst(gs)
    requires d.dateStarted.None? && d.dateCompleted.None?
    ensures AllAddedFirst(gs + [NewGame(d, id, now)])
  {
    NewGameAddedFirst(d, id, now);
  }

  /** Deleting keeps, in order, exactly the records with another id. */
  lemma RemoveIdSpec(gs: seq<Game>, id: string)
    ensures IsSubseq(RemoveId(gs, id), gs)
    ensures forall k :: 0 <= k < |RemoveId(gs, id)| ==> RemoveId(gs, id)[k].id != id
    ensures forall k :: 0 <= k < |gs| && gs[k].id != id ==> gs[k] in RemoveId(gs, id)
    ensures FreshId(gs, id) ==> RemoveId(gs, id) == gs
    ensures forall g :: multiset(RemoveId(gs, id))[g] == if g.id != id then multiset(gs)[g] else 0
  {
    FilterIsSubseq(gs, (g: Game) => g.id != id);
    FilterMultiset(gs, (g: Game) => g.id != id);
    if FreshId(gs, id) {
      FilterKeepsAll(gs, (g: Game) => g.id != id);
    }
  }

  /** Deleting a record whose id occurs removes at least one record. */
  lemma RemoveIdShrinks(gs: seq<Game>, id: string, k: nat)
    requires k < |gs| && gs[k].id == id
    ensures |RemoveId(gs, id)| < |gs|
  {
    FilterFullIff(gs, (g: Game) => g.id != id);
  }

  /** Deleting keeps the rest of the collection in stamp order. */
  lemma RemoveIdKeepsAddedFirst(gs: seq<Game>, id: string)
    requires AllAddedFirst(gs)
    ensures AllAddedFirst(RemoveId(gs, id))
  {
    RemoveIdSpec(gs, id);
    forall k | 0 <= k < |RemoveId(gs, id)| ensures AddedFirst(RemoveId(gs, id)[k]) {
      assert RemoveId(gs, id)[k] in gs;
    }
  }

  // ------------------------------------------------------------ views

  function GamesByStatus(gs: seq<Game>, s: GameStatus): seq<Game> {
    Filter(gs, (g: Game) => g.status == s)
  }

  function GamesByPlatform(gs: seq<Game>, p: Platform): seq<Game> {
    Filter(gs, (g: Game) => g.platform == p)
  }

  function CurrentlyPlaying(gs: seq<Game>): seq<Game> {
    Filter(gs, (g: Game) => g.status == Playing)
  }

  function BacklogCount(gs: seq<Game>): nat {
    |Filter(gs, (g: Game) => g.status == Backlog)|
  }

  function CompletedCount(gs: seq<Game>): nat {
    |Filter(gs, (g: Game) => g.status == Finished || g.status == Completed)|
  }

  /** The counts and the currently-playing list agree with the by-status view. */
  lemma ViewsAgree(gs: seq<Game>)
    ensures CurrentlyPlaying(gs) == GamesByStatus(gs, Playing)
    ensures BacklogCount(gs) == |GamesByStatus(gs, Backlog)|
    ensures CompletedCount(gs) == |GamesByStatus(gs, Finished)| + |GamesByStatus(gs, Completed)|
  {
    FilterExt(gs, (g: Game) => g.status == Playing, (g: Game) => g.status == Playing);
    FilterExt(gs, (g: Game) => g.status == Backlog, (g: Game) => g.status == Backlog);
    FilterDisjointCount(gs, (g: Game) => g.status == Finished, (g: Game) => g.status == Completed,
                        (g: Game) => g.status == Finished || g.status == Completed);
  }

  /** Each view is a stable filter: in order, all with the property, none missing. */
  lemma ViewsAreStableFilters(gs: seq<Game>, s: GameStatus, p: Platform)
    ensures IsSubseq(GamesByStatus(gs, s), gs)
    ensures forall k :: 0 <= k < |GamesByStatus(gs, s)| ==> GamesByStatus(gs, s)[k].status == s
    ensures forall k :: 0 <= k < |gs| && gs[k].status == s ==> gs[k] in GamesByStatus(gs, s)
    ensures IsSubseq(GamesByPlatform(gs, p), gs)
    ensures forall k :: 0 <= k < |GamesByPlatform(gs, p)| ==> GamesByPlatform(gs, p)[k].platform == p
    ensures forall k :: 0 <= k < |gs| && gs[k].platform == p ==> gs[k] in GamesByPlatform(gs, p)
    ensures forall g :: multiset(GamesByStatus(gs, s))[g] == if g.status == s then multiset(gs)[g] else 0
    ensures forall g :: multiset(GamesByPlatform(gs, p))[g] == if g.platform == p then multiset(gs)[g] else 0
  {
    FilterIsSubseq(gs, (g: Game) => g.status == s);
    FilterIsSubseq(gs, (g: Game) => g.platform == p);
    FilterMultiset(gs, (g: Game) => g.status == s);
    FilterMultiset(gs, (g: Game) => g.platform == p);
  }

  /** After a delete no view lists the deleted id. */
  lemma DeletedGameLeavesViews(gs: seq<Game>, id: string, s: GameStatus, p: Platform)
    ensures forall g :: g in GamesByStatus(RemoveId(gs, id), s) ==> g.id != id
    ensures forall g :: g in GamesByPlatform(RemoveId(gs, id), p) ==> g.id != id
    ensures forall g :: g in CurrentlyPlaying(RemoveId(gs, id)) ==> g.id != id
  {
  }

  // ------------------------------------------------------- persistence

  /** A `Date` after `JSON.stringify`: its ISO-8601 text, which `new Date`
      reads back to the same instant. */
  datatype DateText = Iso(millis: int)

  /** A stored goal: `createdAt` is text. */
  datatype RawGoal = RawGoal(id: string, description: string, completed: bool, createdAt: DateText)

  /** A stored game as `JSON.parse` returns it: dates are text, and `goals`
      may be missing from a hand-edited or foreign record. */
  datatype RawGame = RawGame(
    id: string,
    title: string,
    platform: Platform,
    status: GameStatus,
    genre: seq<Genre>,
    imageUrl: Option<string>,
    howLongToBeat: Option<int>,
    metacriticScore: Option<int>,
    userScore: Option<int>,
    goals: Option<seq<RawGoal>>,
    dateAdded: DateText,
    dateStarted: Option<DateText>,
    dateCompleted: Option<DateText>,
    notes: Option<string>)

  /** The text in the storage slot: empty, text that is not a JSON array, or
      a JSON array of records. */
  datatype StoredText = EmptyText | Unparsable | Records(items: seq<RawGame>)

  function GoalToRaw(g: GameGoal): RawGoal {
    RawGoal(g.id, g.description, g.completed, Iso(g.createdAt))
  }

  function GoalFromRaw(r: RawGoal): GameGoal {
    GameGoal(r.id, r.description, r.completed, r.createdAt.millis)
  }

  function DateToRaw(d: Option<Timestamp>): Option<DateText> {
    match d
    case Some(t) => Some(Iso(t))
    case None => None
  }

  /** `game.dateX ? new Date(game.dateX) : undefined`. */
  function DateFromRaw(d: Option<DateText>): Option<Timestamp> {
    match d
    case Some(t) => Some(t.millis)
    case None => None
  }

  function GameToRaw(g: Game): RawGame {
    RawGame(g.id, g.title, g.platform, g.status, g.genre, g.imageUrl, g.howLongToBeat,
            g.metacriticScore, g.userScore, Some(seq(|g.goals|, k requires 0 <= k < |g.goals| => GoalToRaw(g.goals[k]))),
            Iso(g.dateAdded), DateToRaw(g.dateStarted), DateToRaw(g.dateCompleted), g.notes)
  }

  /** The load map for one record; `game.goals.map` throws when goals are missing. */
  function GameFromRaw(r: RawGame): Option<Game> {
    match r.goals
    case None => None
    case Some(goals) =>
      Some(Game(r.id, r.title, r.platform, r.status, r.genre, r.imageUrl, r.howLongToBeat,
                r.metacriticScore, r.userScore, seq(|goals|, k requires 0 <= k < |goals| => GoalFromRaw(goals[k])),
                r.dateAdded.millis, DateFromRaw(r.dateStarted), DateFromRaw(r.dateCompleted), r.notes))
  }

  /** `JSON.stringify(games)`. */
  function Serialize(gs: seq<Game>): StoredText {
    Records(seq(|gs|, k requires 0 <= k < |gs| => GameToRaw(gs[k])))
  }

  /** The whole `JSON.parse(...).map(...)`: one failing record fails it all. */
  function Parse(items: seq<RawGame>): (r: Option<seq<Game>>)
    ensures r.Some? <==> forall k :: 0 <= k < |items| ==> items[k].goals.Some?
    ensures r.Some? ==> |r.value| == |items|
    ensures r.Some? ==> forall k :: 0 <= k < |items| ==> GameFromRaw(items[k]) == Some(r.value[k])
  {
    if forall k :: 0 <= k < |items| ==> items[k].goals.Some?
    then Some(seq(|items|, k requires 0 <= k < |items| => GameFromRaw(items[k]).value))
    else None
  }

  /** The collection after the mount effect: the parsed slot when it holds
      text that parses, and otherwise the collection as it was. */
  function LoadedGames(storage: map<string, StoredText>, current: seq<Game>): seq<Game> {
    if StorageKey !in storage then current
    else match storage[StorageKey]
      case EmptyText => current
      case Unparsable => current
      case Records(items) =>
        match Parse(items)
        case Some(gs) => gs
        case None => current
  }

  /** Reading a record back gives the game that was written. */
  lemma GameRoundTrip(g: Game)
    ensures GameFromRaw(GameToRaw(g)) == Some(g)
  {
    var goals := GameToRaw(g).goals.value;
    assert seq(|goals|, k requires 0 <= k < |goals| => GoalFromRaw(goals[k])) == g.goals;
    assert DateFromRaw(DateToRaw(g.dateStarted)) == g.dateStarted;
    assert DateFromRaw(DateToRaw(g.dateCompleted)) == g.dateCompleted;
  }

  /** Saving and then loading restores the collection exactly, whatever was
      in memory before the load. */
  lemma {:induction false} SaveLoadRoundTrip(gs: seq<Game>, storage: map<string, StoredText>, current: seq<Game>)
    ensures LoadedGames(storage[StorageKey := Serialize(gs)], current) == gs
  {
    var items := Serialize(gs).items;
    forall k | 0 <= k < |gs| ensures GameFromRaw(items[k]) == Some(gs[k]) {
      GameRoundTrip(gs[k]);
    }
    assert Parse(items).Some?;
    assert Parse(items).value == gs;
  }

  /** A missing, empty, unparsable or partly malformed slot leaves the
      collection as it was; at mount that is the empty collection. */
  lemma LoadFailureKeepsCurrent(storage: map<string, StoredText>, current: seq<Game>)
    requires StorageKey !in storage || !storage[StorageKey].Records?
             || exists k :: 0 <= k < |storage[StorageKey].items| && storage[StorageKey].items[k].goals.None?
    ensures LoadedGames(storage, current) == current
  {
  }

  // ------------------------------------------------------------ the store

  /** The `useGameLibrary` hook: its `games` and `loading` state and the
      browser's local storage it reads and writes. */
  class Library {
    var games: seq<Game>
    var loading: bool
    var storage: map<string, StoredText>

    /** First render: no games yet, still loading. */
    constructor (storage: map<string, StoredText>)
      ensures games == [] && loading && this.storage == storage
    {
      games := [];
      loading := true;
      this.storage := storage;
    }

    /** The mount effect: read the slot, rebuild dates, and stop loading
        whether the slot was missing, parsed, or failed to parse. */
    method LoadEffect()
      modifies this`games, this`loading
      ensures !loading
      ensures games == LoadedGames(storage, old(games))
    {
      if StorageKey in storage {
        match storage[StorageKey]
        case EmptyText =>
        case Unparsable =>
        case Records(items) =>
          var parsed := Parse(items);
          if parsed.Some? {
            games := parsed.value;
          }
      }
      loading := false;
    }

    /** The save effect, run after each change of `games` or `loading`:
        nothing while loading, otherwise the whole collection under the key. */
    method SaveEffect()
      modifies this`storage
      ensures old(loading) ==> storage == old(storage)
      ensures !old(loading) ==> storage == old(storage)[StorageKey := Serialize(games)]
    {
      if !loading {
        storage := storage[StorageKey := Serialize(games)];
      }
    }

    /** `addGame(draft)` with `id` from the id generator and `now` from the clock. */
    method AddGame(draft: GameDraft, id: string, now: Timestamp)
      modifies this`games
      ensures games == old(games) + [NewGame(draft, id, now)]
    {
      games := games + [NewGame(draft, id, now)];
    }

    method UpdateGameStatus(id: string, status: GameStatus, now: Timestamp)
      modifies this`games
      ensures games == SetStatusIn(old(games), id, status, now)
    {
      games := SetStatusIn(games, id, status, now);
    }

    method UpdateGame(id: string, updates: GameUpdate)
      modifies this`games
      ensures games == UpdateIn(old(games), id, updates)
    {
      games := UpdateIn(games, id, updates);
    }

    method DeleteGame(id: string)
      modifies this`games
      ensures games == RemoveId(old(games), id)
    {
      games := RemoveId(games, id);
    }
  }

  /** A later session opened on the storage this one saved to sees the same
      collection. */
  method Reopen(lib: Library) returns (next: Library)
    requires !lib.loading
    modifies lib`storage
    ensures fresh(next) && !next.loading
    ensures next.games == lib.games
    ensures next.storage == lib.storage == old(lib.storage)[StorageKey := Serialize(lib.games)]
  {
    lib.SaveEffect();
    next := new Library(lib.storage);
    next.LoadEffect();
    SaveLoadRoundTrip(lib.games, old(lib.storage), []);
  }

  /** Mounting on a slot that holds a record without `goals`: the load fails,
      the collection stays empty, and the save effect that runs once
      loading ends writes the empty collection over the stored records. */
  method MountOverMalformedSlot(storage: map<string, StoredText>, k: nat) returns (lib: Library)
    requires StorageKey in storage && storage[StorageKey].Records?
    requires k < |storage[StorageKey].items| && storage[StorageKey].items[k].goals.None?
    ensures lib.games == [] && !lib.loading
    ensures lib.storage == storage[StorageKey := Records([])]
    ensures lib.storage[StorageKey] != storage[StorageKey]
  {
    lib := new Library(storage);
    lib.SaveEffect();
    lib.LoadEffect();
    lib.SaveEffect();
    assert Serialize([]) == Records([]);
  }
}
