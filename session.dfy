/**
 * The journal session controller: the module-level state of the renderer
 * (prompt cursor, writing mode, saved entries, flower count) together with
 * the parts of the page the handlers read and write (which screen shows,
 * the passphrase box and its error line, the three writing areas, the
 * prompt and penny displays, the progress line).
 */
module Session {
  import opened Text
  import opened Catalog
  import opened Progress
  import opened Prompts
  import opened Gate
  import opened Entries

  datatype Screen = VaultScreen | GardenScreen | JournalScreen

  /** The heading shown above the writing area of each mode; never empty. */
  function Title(mode: Mode): (r: string)
    requires mode != Unset
    ensures r != ""
  {
    match mode
    case Guided => "Guided Journey"
    case Free => "Free Writing"
    case Penny => "Penny for Thoughts"
  }

  /** Each mode has a heading of its own. */
  lemma TitleIdentifiesMode(a: Mode, b: Mode)
    requires a != Unset && b != Unset
    ensures Title(a) == Title(b) <==> a == b
  {
    if a != b {
      assert Title(a)[0] != Title(b)[0];
    }
  }

  class Journal {
    var screen: Screen
    var mode: Mode
    var promptIndex: nat
    var entries: seq<Entry>
    var flowerCount: int

    var passwordInput: string
    var errorMessage: string
    var pads: Pads
    var title: string
    var shownPrompt: string
    var pennyFace: char
    var pennyPromptText: string
    var flipping: bool
    var progress: string

    /** The cursor always names a prompt of the catalog. */
    ghost predicate Valid()
      reads this
    {
      promptIndex < |JournalPrompts|
    }

    /**
     * Start-up: entries and count as loaded from storage, the vault showing,
     * no mode chosen, the cursor on the first prompt, and the progress line
     * drawn once for the loaded count.
     */
    constructor (storedEntries: seq<Entry>, storedCount: int)
      ensures Valid()
      ensures screen == VaultScreen && mode == Unset && promptIndex == 0
      ensures entries == storedEntries && flowerCount == storedCount
      ensures progress == ProgressText(storedCount)
      ensures pads == Pads("", "", "") && passwordInput == "" && errorMessage == "" && !flipping
    {
      var display := RenderProgress(storedCount);
      screen := VaultScreen;
      mode := Unset;
      promptIndex := 0;
      entries := storedEntries;
      flowerCount := storedCount;
      passwordInput := "";
      errorMessage := "";
      pads := Pads("", "", "");
      title := "";
      shownPrompt := "";
      pennyFace := HeadsFace;
      pennyPromptText := PennyIdleText;
      flipping := false;
      progress := display;
    }

    /** Shows the garden and redraws the progress line. */
    method ShowGardenScreen()
      modifies this`screen, this`progress
      ensures screen == GardenScreen && progress == ProgressText(flowerCount)
    {
      screen := GardenScreen;
      progress := RenderProgress(flowerCount);
    }

    /**
     * The unlock handler. An accepted passphrase clears the error line and
     * opens the garden; any other leaves the screen as it is, shows the error
     * line and empties the passphrase box.
     */
    method Unlock() returns (unlocked: bool)
      modifies this`screen, this`progress, this`errorMessage, this`passwordInput
      ensures unlocked == Unlocks(old(passwordInput))
      ensures unlocked ==> screen == GardenScreen && progress == ProgressText(flowerCount)
                           && errorMessage == "" && passwordInput == old(passwordInput)
      ensures !unlocked ==> screen == old(screen) && progress == old(progress)
                            && errorMessage == WrongKeyMessage && passwordInput == ""
    {
      unlocked := Unlocks(passwordInput);
      if unlocked {
        errorMessage := "";
        ShowGardenScreen();
      } else {
        errorMessage := WrongKeyMessage;
        passwordInput := "";
      }
    }

    /**
     * Choosing a path in the garden: records the mode, shows the guided prompt
     * under the (unchanged) cursor or resets the penny, and opens the journal.
     */
    method StartJournalingMode(m: Mode)
      requires Valid() && m != Unset
      modifies this`mode, this`title, this`shownPrompt, this`pennyFace, this`pennyPromptText, this`screen
      ensures Valid() && promptIndex == old(promptIndex)
      ensures mode == m && title == Title(m) && screen == JournalScreen
      ensures shownPrompt == (if m == Guided then JournalPrompts[promptIndex] else old(shownPrompt))
      ensures m == Penny ==> pennyFace == HeadsFace && pennyPromptText == PennyIdleText
      ensures m != Penny ==> pennyFace == old(pennyFace) && pennyPromptText == old(pennyPromptText)
    {
      mode := m;
      title := Title(m);
      if m == Guided {
        LoadCurrentPrompt();
      } else if m == Penny {
        ResetPenny();
      }
      screen := JournalScreen;
    }

    /** Shows the guided prompt under the cursor. */
    method LoadCurrentPrompt()
      requires Valid()
      modifies this`shownPrompt
      ensures shownPrompt == JournalPrompts[promptIndex]
    {
      shownPrompt := JournalPrompts[promptIndex];
    }

    /** Moves the cursor one prompt on, wrapping after the last, and shows that prompt. */
    method NextPrompt()
      requires Valid()
      modifies this`promptIndex, this`shownPrompt
      ensures Valid()
      ensures promptIndex == NextPromptIndex(old(promptIndex))
      ensures shownPrompt == JournalPrompts[promptIndex]
    {
      promptIndex := NextPromptIndex(promptIndex);
      LoadCurrentPrompt();
    }

    /** Puts the penny display back to its unflipped state. */
    method ResetPenny()
      modifies this`pennyFace, this`pennyPromptText
      ensures pennyFace == HeadsFace && pennyPromptText == PennyIdleText
    {
      pennyFace := HeadsFace;
      pennyPromptText := PennyIdleText;
    }

    /**
     * A press of the flip button. While a flip is settling the button is
     * disabled and the press does nothing; otherwise the flip starts.
     */
    method PressFlip() returns (started: bool)
      modifies this`flipping
      ensures started == !old(flipping) && flipping
    {
      started := !flipping;
      flipping := true;
    }

    /** The end of a flip: shows the face and the prompt drawn, and enables the button again. */
    method SettleFlip(sideDraw: real, promptDraw: real)
      requires 0.0 <= sideDraw < 1.0 && 0.0 <= promptDraw < 1.0
      modifies this`pennyFace, this`pennyPromptText, this`flipping
      ensures pennyFace == Flip(sideDraw, promptDraw).face
      ensures pennyPromptText == Flip(sideDraw, promptDraw).prompt
      ensures !flipping
    {
      var result := Flip(sideDraw, promptDraw);
      pennyFace := result.face;
      pennyPromptText := result.prompt;
      flipping := false;
    }

    /**
     * The save handler; `id` and `date` are the clock readings. A blank
     * selected area (or no mode at all) changes nothing. Otherwise exactly one
     * entry is appended, the flower count goes up by one, the area is emptied
     * and the progress line redrawn; a count that matched the number of
     * entries still does.
     */
    method SaveCurrentEntry(id: int, date: string) returns (saved: bool)
      requires Valid()
      modifies this`entries, this`flowerCount, this`pads, this`progress
      ensures var e := NewEntry(mode, SelectedText(mode, old(pads)), promptIndex, id, date);
              && saved == e.Some?
              && (saved ==> entries == old(entries) + [e.value] && flowerCount == old(flowerCount) + 1
                            && pads == ClearPad(mode, old(pads)) && progress == ProgressText(flowerCount))
              && (!saved ==> entries == old(entries) && flowerCount == old(flowerCount)
                             && pads == old(pads) && progress == old(progress))
      ensures old(flowerCount) == |old(entries)| ==> flowerCount == |entries|
    {
      var content := SelectedText(mode, pads);
      var entry := NewEntry(mode, content, promptIndex, id, date);
      saved := entry.Some?;
      if saved {
        entries := entries + [entry.value];
        flowerCount := flowerCount + 1;
        pads := ClearPad(mode, pads);
        progress := RenderProgress(flowerCount);
      }
    }

    /** Start-up draft restore: each area takes its stored draft only if it is still empty. */
    method LoadDrafts(guidedDraft: Option<string>, freeDraft: Option<string>, pennyDraft: Option<string>)
      modifies this`pads
      ensures pads == Pads(RestoreDraft(old(pads.guided), guidedDraft),
                           RestoreDraft(old(pads.free), freeDraft),
                           RestoreDraft(old(pads.penny), pennyDraft))
    {
      pads := Pads(RestoreDraft(pads.guided, guidedDraft),
                   RestoreDraft(pads.free, freeDraft),
                   RestoreDraft(pads.penny, pennyDraft));
    }

    /** Whether closing the window should be held back: some area has more than whitespace. */
    method UnloadGuard() returns (warn: bool)
      ensures warn <==> !AllWhitespace(pads.guided) || !AllWhitespace(pads.free) || !AllWhitespace(pads.penny)
    {
      var areas := [pads.guided, pads.free, pads.penny];
      warn := HasUnsavedText(areas);
      assert areas[0] == pads.guided && areas[1] == pads.free && areas[2] == pads.penny;
    }
  }
}
