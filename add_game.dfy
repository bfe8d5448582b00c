/** The add-game dialog: its platform and notes inputs, and the draft it
    builds from a picked search hit and hands to the store. */
module AddGame {
  import opened Wrappers
  import opened Text
  import opened GameTypes
  import opened GameLibrary
  import opened GameSearch
  import opened GameDatabase

  /** The draft built from the picked hit, the dialog's platform and its notes. */
  function DraftFromSelection(data: SelectionData, platform: Platform, notes: string): (d: GameDraft)
    ensures d.status == Backlog && d.goals == []
    ensures d.platform == platform
    ensures d.title == data.title && d.genre == data.genre && d.imageUrl == data.imageUrl
    ensures d.howLongToBeat == data.howLongToBeat && d.metacriticScore == data.metacriticScore
    ensures d.userScore.None? && d.dateStarted.None? && d.dateCompleted.None?
    ensures d.notes.None? <==> AllSpace(notes)
    ensures d.notes.Some? ==> d.notes.value == Trim(notes)
  {
    TrimEmptyIff(notes);
    GameDraft(data.title, platform, Backlog, data.genre, data.imageUrl, data.howLongToBeat,
              data.metacriticScore, None, [], None, None,
              if Trim(notes) == [] then None else Some(Trim(notes)))
  }

  /** The platform in the hit's data plays no part in the draft. */
  lemma DraftIgnoresSelectionPlatform(data: SelectionData, other: Platform, platform: Platform, notes: string)
    ensures DraftFromSelection(data.(platform := other), platform, notes) == DraftFromSelection(data, platform, notes)
  {
  }

  /** From a search hit to the stored record: the store adds the id and the
      date; the rest comes from the hit, the dialog or the defaults. */
  lemma PickedHitBecomesBacklogGame(r: SearchResult, searchPlatform: Platform, platform: Platform,
                                    notes: string, id: string, now: Timestamp)
    ensures NewGame(DraftFromSelection(Selection(r, searchPlatform), platform, notes), id, now).status == Backlog
    ensures NewGame(DraftFromSelection(Selection(r, searchPlatform), platform, notes), id, now).platform == platform
    ensures NewGame(DraftFromSelection(Selection(r, searchPlatform), platform, notes), id, now).title == r.name
    ensures NewGame(DraftFromSelection(Selection(r, searchPlatform), platform, notes), id, now).genre == MapGenres(r.genres)
    ensures NewGame(DraftFromSelection(Selection(r, searchPlatform), platform, notes), id, now).goals == []
    ensures NewGame(DraftFromSelection(Selection(r, searchPlatform), platform, notes), id, now).id == id
    ensures NewGame(DraftFromSelection(Selection(r, searchPlatform), platform, notes), id, now).dateAdded == now
  {
  }

  /** The dialog's state. */
  class AddGameModal {
    var open: bool
    var platform: Platform
    var notes: string

    constructor ()
      ensures !open && platform == Steam && notes == ""
    {
      open := false;
      platform := Steam;
      notes := "";
    }

    method SetOpen(value: bool)
      modifies this`open
      ensures open == value
    {
      open := value;
    }

    method SetPlatform(value: Platform)
      modifies this`platform
      ensures platform == value
    {
      platform := value;
    }

    method SetNotes(value: string)
      modifies this`notes
      ensures notes == value
    {
      notes := value;
    }

    /** A hit was picked: build the draft, clear the notes, close the dialog.
        The platform choice stays for the next addition. */
    method HandleGameSelect(data: SelectionData) returns (draft: GameDraft)
      modifies this`notes, this`open
      ensures draft == DraftFromSelection(data, old(platform), old(notes))
      ensures notes == "" && !open
    {
      draft := DraftFromSelection(data, platform, notes);
      notes := "";
      open := false;
    }
  }
}
