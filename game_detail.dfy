/** The game detail dialog: the updates its handlers send through the
    store's generic `updateGame`, and the goal-list edits behind them. */
module GameDetail {
  import opened Wrappers
  import opened Seqs
  import opened Text
  import opened GameTypes
  import opened GameLibrary

  /** The status buttons send only `{status}`. */
  function StatusChange(s: GameStatus): (u: GameUpdate)
    ensures u.status == Set(s)
    ensures u.(status := Keep) == NoChanges()
  {
    NoChanges().(status := Set(s))
  }

  /** Through this path a status change stamps no dates: the record only
      takes the new status. */
  lemma StatusChangeSkipsStamps(g: Game, s: GameStatus)
    ensures Merge(g, StatusChange(s)) == g.(status := s)
  {
  }

  /** So entering `playing` from the dialog does not record a start, while
      the store's dedicated status path does. */
  lemma StatusPathsDiffer(g: Game, now: Timestamp)
    requires g.dateStarted.None?
    ensures Merge(g, StatusChange(Playing)).dateStarted.None?
    ensures WithStatus(g, Playing, now).dateStarted == Some(now)
  {
  }

  /** Over the whole collection: the dialog's status change leaves every
      stamp of every record as it was. */
  lemma StatusChangeInCollection(gs: seq<Game>, id: string, s: GameStatus)
    ensures forall k :: 0 <= k < |gs| ==>
      UpdateIn(gs, id, StatusChange(s))[k].dateStarted == gs[k].dateStarted
      && UpdateIn(gs, id, StatusChange(s))[k].dateCompleted == gs[k].dateCompleted
    ensures forall k :: 0 <= k < |gs| && gs[k].id == id ==> UpdateIn(gs, id, StatusChange(s))[k].status == s
  {
    UpdateInKeepsStamps(gs, id, StatusChange(s));
  }

  /** None of the dialog's updates carries a stamp or `dateAdded`, so each
      keeps the collection in stamp order. */
  lemma DialogUpdatesKeepAddedFirst(gs: seq<Game>, id: string, s: GameStatus, parsed: Option<int>,
                                    text: string, goals: seq<GameGoal>)
    requires AllAddedFirst(gs)
    ensures AllAddedFirst(UpdateIn(gs, id, StatusChange(s)))
    ensures ScoreUpdate(parsed).Some? ==> AllAddedFirst(UpdateIn(gs, id, ScoreUpdate(parsed).value))
    ensures AllAddedFirst(UpdateIn(gs, id, NotesUpdate(text)))
    ensures AllAddedFirst(UpdateIn(gs, id, NoChanges().(goals := Set(goals))))
  {
    UpdateInKeepsAddedFirst(gs, id, StatusChange(s));
    if ScoreUpdate(parsed).Some? {
      UpdateInKeepsAddedFirst(gs, id, ScoreUpdate(parsed).value);
    }
    UpdateInKeepsAddedFirst(gs, id, NotesUpdate(text));
    UpdateInKeepsAddedFirst(gs, id, NoChanges().(goals := Set(goals)));
  }

  // ------------------------------------------------------------- score

  /** The score guard as written: `score && (score < 1 || score > 10)` is
      false for a missing score and for 0, so both reach the update. `parsed`
      is the parsed input, `None` for an empty field. */
  function ScoreUpdateAsWritten(parsed: Option<int>): (r: Option<GameUpdate>)
    ensures r.None? <==> parsed.Some? && parsed.value != 0 && (parsed.value < 1 || parsed.value > 10)
    ensures r.Some? ==> r.value.userScore == Set(parsed) && r.value.(userScore := Keep) == NoChanges()
  {
    if parsed.Some? && parsed.value != 0 && (parsed.value < 1 || parsed.value > 10) then None
    else Some(NoChanges().(userScore := Set(parsed)))
  }

  /** A parsed 0 passes the guard and is stored, out of the documented range. */
  lemma ZeroScorePassesGuard(g: Game)
    ensures ScoreUpdateAsWritten(Some(0)).Some?
    ensures Merge(g, ScoreUpdateAsWritten(Some(0)).value).userScore == Some(0)
    ensures !ScoreInRange(Merge(g, ScoreUpdateAsWritten(Some(0)).value))
  {
  }

  /** The guard as intended: reject every parsed score outside 1..10; an
      empty field clears the score. */
  function ScoreUpdate(parsed: Option<int>): (r: Option<GameUpdate>)
    ensures r.None? <==> parsed.Some? && (parsed.value < 1 || parsed.value > 10)
    ensures r.Some? ==> r.value == NoChanges().(userScore := Set(parsed))
  {
    if parsed.Some? && (parsed.value < 1 || parsed.value > 10) then None
    else Some(NoChanges().(userScore := Set(parsed)))
  }

  /** Every score the intended guard lets through keeps the game in range,
      and it agrees with the written guard everywhere except at 0. */
  lemma ScoreUpdateKeepsRange(g: Game, parsed: Option<int>)
    ensures ScoreUpdate(parsed).Some? ==> ScoreInRange(Merge(g, ScoreUpdate(parsed).value))
    ensures parsed != Some(0) ==> ScoreUpdate(parsed) == ScoreUpdateAsWritten(parsed)
    ensures ScoreUpdate(None) == Some(NoChanges().(userScore := Set(None)))
  {
  }

  // ------------------------------------------------------------- notes

  /** `{notes: notes.trim() || undefined}`. */
  function NotesUpdate(text: string): (u: GameUpdate)
    ensures u.(notes := Keep) == NoChanges()
    ensures u.notes.Set?
    ensures u.notes.value.None? <==> AllSpace(text)
    ensures u.notes.value.Some? ==> u.notes.value.value == Trim(text) && Trim(text) != []
  {
    TrimEmptyIff(text);
    var t := Trim(text);
    NoChanges().(notes := Set(if t == [] then None else Some(t)))
  }

  /** The dialog is mounted before any game is chosen, so its score and
      notes boxes start empty; saving either box untouched clears the
      game's score or notes. */
  lemma UntouchedBoxesClear(g: Game)
    ensures ScoreUpdateAsWritten(None).Some?
    ensures Merge(g, ScoreUpdateAsWritten(None).value).userScore.None?
    ensures Merge(g, NotesUpdate("")).notes.None?
    ensures Merge(g, NotesUpdate("")).(notes := g.notes) == g
  {
  }

  // ------------------------------------------------------------- goals

  /** The new goal list of the add-goal handler, or `None` when it returns
      early on blank input. */
  function AddGoal(goals: seq<GameGoal>, text: string, id: string, now: Timestamp): (r: Option<seq<GameGoal>>)
    ensures r.None? <==> AllSpace(text)
    ensures r.Some? ==> |r.value| == |goals| + 1 && r.value[..|goals|] == goals
    ensures r.Some? ==> r.value[|goals|] == GameGoal(id, Trim(text), false, now)
    ensures r.Some? ==> Trim(text) != [] && !IsSpace(Trim(text)[0])
  {
    TrimEmptyIff(text);
    TrimSpec(text);
    if Trim(text) == [] then None
    else Some(goals + [GameGoal(id, Trim(text), false, now)])
  }

  /** `goals.map(g => g.id === goalId ? {...g, completed: !g.completed} : g)`. */
  function ToggleGoal(goals: seq<GameGoal>, goalId: string): (r: seq<GameGoal>)
    ensures |r| == |goals|
    ensures forall k :: 0 <= k < |goals| && goals[k].id != goalId ==> r[k] == goals[k]
    ensures forall k :: 0 <= k < |goals| && goals[k].id == goalId ==>
      r[k].completed == !goals[k].completed && r[k].(completed := goals[k].completed) == goals[k]
  {
    seq(|goals|, k requires 0 <= k < |goals| =>
      if goals[k].id == goalId then goals[k].(completed := !goals[k].completed) else goals[k])
  }

  /** Toggling the same goal twice restores the list. */
  lemma ToggleTwice(goals: seq<GameGoal>, goalId: string)
    ensures ToggleGoal(ToggleGoal(goals, goalId), goalId) == goals
  {
    var once := ToggleGoal(goals, goalId);
    assert forall k :: 0 <= k < |goals| ==> once[k].id == goals[k].id;
  }

  /** `goals.filter(g => g.id !== goalId)`. */
  function DeleteGoal(goals: seq<GameGoal>, goalId: string): seq<GameGoal> {
    Filter(goals, (g: GameGoal) => g.id != goalId)
  }

  /** Deleting keeps, in order, exactly the goals with another id. */
  lemma DeleteGoalSpec(goals: seq<GameGoal>, goalId: string)
    ensures IsSubseq(DeleteGoal(goals, goalId), goals)
    ensures forall k :: 0 <= k < |DeleteGoal(goals, goalId)| ==> DeleteGoal(goals, goalId)[k].id != goalId
    ensures forall k :: 0 <= k < |goals| && goals[k].id != goalId ==> goals[k] in DeleteGoal(goals, goalId)
    ensures (forall k :: 0 <= k < |goals| ==> goals[k].id != goalId) ==> DeleteGoal(goals, goalId) == goals
    ensures forall g :: multiset(DeleteGoal(goals, goalId))[g] == if g.id != goalId then multiset(goals)[g] else 0
  {
    FilterIsSubseq(goals, (g: GameGoal) => g.id != goalId);
    FilterMultiset(goals, (g: GameGoal) => g.id != goalId);
    if forall k :: 0 <= k < |goals| ==> goals[k].id != goalId {
      FilterKeepsAll(goals, (g: GameGoal) => g.id != goalId);
    }
  }

  /** `goals.filter(g => g.completed).length`. */
  function CompletedGoals(goals: seq<GameGoal>): (n: nat)
    ensures n <= |goals|
  {
    |Filter(goals, (g: GameGoal) => g.completed)|
  }

  /** The count reaches the number of goals exactly when all are done, and is
      zero exactly when none is. */
  lemma CompletedGoalsExtremes(goals: seq<GameGoal>)
    ensures CompletedGoals(goals) == |goals| <==> forall k :: 0 <= k < |goals| ==> goals[k].completed
    ensures CompletedGoals(goals) == 0 <==> forall k :: 0 <= k < |goals| ==> !goals[k].completed
  {
    FilterFullIff(goals, (g: GameGoal) => g.completed);
    FilterEmptyIff(goals, (g: GameGoal) => g.completed);
  }

  /** The count splits into the first goal and the rest. */
  lemma CompletedGoalsCons(goals: seq<GameGoal>)
    requires goals != []
    ensures CompletedGoals(goals) == (if goals[0].completed then 1 else 0) + CompletedGoals(goals[1..])
  {
    assert goals == [goals[0]] + goals[1..];
  }

  /** Toggling a goal that appears once moves the count by exactly one. */
  lemma {:induction false} ToggleMovesCount(goals: seq<GameGoal>, goalId: string, k: nat)
    requires k < |goals| && goals[k].id == goalId
    requires forall j :: 0 <= j < |goals| && j != k ==> goals[j].id != goalId
    ensures CompletedGoals(ToggleGoal(goals, goalId))
            == if goals[k].completed then CompletedGoals(goals) - 1 else CompletedGoals(goals) + 1
    decreases |goals|
  {
    var t := ToggleGoal(goals, goalId);
    CompletedGoalsCons(goals);
    CompletedGoalsCons(t);
    assert t[1..] == ToggleGoal(goals[1..], goalId);
    if k == 0 {
      assert forall j :: 0 <= j < |goals[1..]| ==> goals[1..][j].id != goalId;
      assert ToggleGoal(goals[1..], goalId) == goals[1..];
    } else {
      ToggleMovesCount(goals[1..], goalId, k - 1);
    }
  }

  // ------------------------------------------------------------ handlers

  /** The detail dialog. The page mounts it once, before any game is chosen,
      and never unmounts it: `game` is the record the page passes in (`None`
      while the dialog is closed), and the three input boxes keep their text
      from one opening to the next, whatever game is shown. The score box is
      held as its parsed value. */
  class DetailModal {
    var game: Option<Game>
    var scoreBox: Option<int>
    var notesBox: string
    var newGoal: string

    /** Mounted with no game chosen, so every box starts empty. */
    constructor ()
      ensures game == None && scoreBox == None && notesBox == "" && newGoal == ""
    {
      game := None;
      scoreBox := None;
      notesBox := "";
      newGoal := "";
    }

    /** The page opens the dialog on a record, or closes it with `None`;
        the boxes keep their text. */
    method Show(g: Option<Game>)
      modifies this`game
      ensures game == g
    {
      game := g;
    }

    method SetScore(parsed: Option<int>)
      modifies this`scoreBox
      ensures scoreBox == parsed
    {
      scoreBox := parsed;
    }

    method SetNotes(text: string)
      modifies this`notesBox
      ensures notesBox == text
    {
      notesBox := text;
    }

    method SetNewGoal(text: string)
      modifies this`newGoal
      ensures newGoal == text
    {
      newGoal := text;
    }

    /** A status button: `{status}` for the shown game. */
    method HandleStatusChange(s: GameStatus) returns (emitted: (string, GameUpdate))
      requires game.Some?
      ensures emitted.0 == game.value.id
      ensures emitted.1.status == Set(s) && emitted.1.(status := Keep) == NoChanges()
    {
      emitted := (game.value.id, StatusChange(s));
    }

    /** Save Score: the score box through the corrected guard `ScoreUpdate`;
        whatever is sent keeps the shown game's score in range. */
    method HandleScoreUpdate() returns (emitted: Option<(string, GameUpdate)>)
      requires game.Some?
      ensures emitted.None? <==> scoreBox.Some? && (scoreBox.value < 1 || scoreBox.value > 10)
      ensures emitted.Some? ==> emitted.value.0 == game.value.id
      ensures emitted.Some? ==> emitted.value.1 == NoChanges().(userScore := Set(scoreBox))
      ensures emitted.Some? ==> ScoreInRange(Merge(game.value, emitted.value.1))
    {
      var u := ScoreUpdate(scoreBox);
      if u.None? {
        emitted := None;
      } else {
        ScoreUpdateKeepsRange(game.value, scoreBox);
        emitted := Some((game.value.id, u.value));
      }
    }

    /** Save Notes: the trimmed notes box, or `undefined` when it is blank. */
    method HandleNotesUpdate() returns (emitted: (string, GameUpdate))
      requires game.Some?
      ensures emitted.0 == game.value.id
      ensures emitted.1.(notes := Keep) == NoChanges()
      ensures emitted.1.notes == Set(if AllSpace(notesBox) then None else Some(Trim(notesBox)))
    {
      emitted := (game.value.id, NotesUpdate(notesBox));
    }

    /** Add the typed goal with a fresh `id` and the time `now`: emit the
        goal list of the shown record with the goal appended, and clear the
        input; blank input emits nothing and keeps the input. */
    method HandleAddGoal(id: string, now: Timestamp) returns (emitted: Option<(string, GameUpdate)>)
      requires game.Some?
      modifies this`newGoal
      ensures emitted.None? <==> AllSpace(old(newGoal))
      ensures emitted.None? ==> newGoal == old(newGoal)
      ensures emitted.Some? ==> newGoal == "" && emitted.value.0 == game.value.id
      ensures emitted.Some? ==>
        emitted.value.1 == NoChanges().(goals := Set(AddGoal(game.value.goals, old(newGoal), id, now).value))
    {
      var goals := AddGoal(game.value.goals, newGoal, id, now);
      if goals.None? {
        emitted := None;
      } else {
        emitted := Some((game.value.id, NoChanges().(goals := Set(goals.value))));
        newGoal := "";
      }
    }

    /** A goal's checkbox: the shown record's goals with that goal flipped. */
    method HandleToggleGoal(goalId: string) returns (emitted: (string, GameUpdate))
      requires game.Some?
      ensures emitted.0 == game.value.id
      ensures emitted.1 == NoChanges().(goals := Set(ToggleGoal(game.value.goals, goalId)))
    {
      emitted := (game.value.id, NoChanges().(goals := Set(ToggleGoal(game.value.goals, goalId))));
    }

    /** A goal's delete button: the shown record's goals without that goal. */
    method HandleDeleteGoal(goalId: string) returns (emitted: (string, GameUpdate))
      requires game.Some?
      ensures emitted.0 == game.value.id
      ensures emitted.1 == NoChanges().(goals := Set(DeleteGoal(game.value.goals, goalId)))
    {
      emitted := (game.value.id, NoChanges().(goals := Set(DeleteGoal(game.value.goals, goalId))));
    }
  }

  /** The dialog keeps the record it was opened with, so a second goal added
      in the same session is appended to the original list: the update it
      sends no longer holds the first goal. */
  method TwoGoalsInOneSession(m: DetailModal, text1: string, text2: string,
                              id1: string, id2: string, t1: Timestamp, t2: Timestamp)
      returns (first: Option<(string, GameUpdate)>, second: Option<(string, GameUpdate)>)
    requires m.game.Some?
    requires !AllSpace(text1) && !AllSpace(text2)
    modifies m
    ensures m.game == old(m.game)
    ensures first.Some? && first.value.1.goals.Set?
    ensures second.Some? && second.value.1.goals.Set?
    ensures GameGoal(id1, Trim(text1), false, t1) in first.value.1.goals.value
    ensures second.value.1.goals.value == m.game.value.goals + [GameGoal(id2, Trim(text2), false, t2)]
    ensures id1 != id2 && (forall g :: g in m.game.value.goals ==> g.id != id1) ==>
      forall g :: g in second.value.1.goals.value ==> g.id != id1
  {
    m.SetNewGoal(text1);
    first := m.HandleAddGoal(id1, t1);
    assert first.value.1.goals.value[|m.game.value.goals|] == GameGoal(id1, Trim(text1), false, t1);
    m.SetNewGoal(text2);
    second := m.HandleAddGoal(id2, t2);
  }

  /** The boxes outlive a session: notes saved on one game and left in the
      box are saved onto the next game opened, when Save Notes is pressed
      there without typing. */
  method NotesCarryToNextGame(a: Game, b: Game) returns (first: (string, GameUpdate), second: (string, GameUpdate))
    ensures first == (a.id, NoChanges().(notes := Set(Some("great"))))
    ensures second == (b.id, NoChanges().(notes := Set(Some("great"))))
    ensures Merge(b, second.1).notes == Some("great")
  {
    var m := new DetailModal();
    m.Show(Some(a));
    m.SetNotes("great");
    first := m.HandleNotesUpdate();
    m.Show(None);
    m.Show(Some(b));
    second := m.HandleNotesUpdate();
    assert !IsSpace("great"[0]);
    assert Trim("great") == "great";
  }
}
