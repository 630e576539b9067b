/**
 * Journal entries and the rules around the writing areas: which text a save
 * reads, the entry a save builds, the draft-restore rule and the check made
 * before the window closes.
 */
module Entries {
  import opened Text
  import opened Catalog

  datatype Option<T> = None | Some(value: T)

  /** The writing mode; `Unset` is the empty mode the session starts in. */
  datatype Mode = Unset | Guided | Free | Penny

  /**
   * A saved entry. `id` and `date` come from the clock at save time
   * (`Date.now()` and an ISO timestamp) and are taken as given.
   */
  datatype Entry = Entry(id: int, date: string, mode: Mode, content: string, prompt: Option<string>)

  /** The three writing areas, one per mode. */
  datatype Pads = Pads(guided: string, free: string, penny: string)

  /** The text a save reads: the area of the current mode, or nothing when no mode is chosen. */
  function SelectedText(mode: Mode, pads: Pads): (r: string)
    ensures mode == Unset ==> r == ""
    ensures mode == Guided ==> r == pads.guided
    ensures mode == Free ==> r == pads.free
    ensures mode == Penny ==> r == pads.penny
  {
    match mode
    case Guided => pads.guided
    case Free => pads.free
    case Penny => pads.penny
    case Unset => ""
  }

  /** The areas after a save clears the one belonging to `mode`. */
  function ClearPad(mode: Mode, pads: Pads): (r: Pads)
    ensures SelectedText(mode, r) == ""
    ensures forall m :: m != mode ==> SelectedText(m, r) == SelectedText(m, pads)
  {
    match mode
    case Guided => pads.(guided := "")
    case Free => pads.(free := "")
    case Penny => pads.(penny := "")
    case Unset => pads
  }

  /**
   * The entry a save builds from the text `raw` of the current area, or
   * None when that text is blank and nothing is saved.
   */
  function NewEntry(mode: Mode, raw: string, promptIndex: nat, id: int, date: string): (r: Option<Entry>)
    requires promptIndex < |JournalPrompts|
    ensures r.Some? <==> !AllWhitespace(raw)
    ensures r.Some? ==> r.value.content != [] && Tight(r.value.content)
  {
    BlankIffAllWhitespace(raw);
    if IsBlank(raw) then None
    else Some(Entry(id, date, mode, Trim(raw), if mode == Guided then Some(JournalPrompts[promptIndex]) else None))
  }

  /**
   * A save produces an entry exactly when the selected area holds something
   * besides whitespace, so never before a mode is chosen. The entry records
   * the mode, the trimmed text of the area (non-empty, unchanged by trimming
   * again, and what is left of the area once whitespace at both ends is
   * dropped), and the guided prompt under the cursor in guided mode only.
   */
  lemma SaveOutcome(mode: Mode, pads: Pads, promptIndex: nat, id: int, date: string)
    requires promptIndex < |JournalPrompts|
    ensures var raw := SelectedText(mode, pads);
            var r := NewEntry(mode, raw, promptIndex, id, date);
            && (r.Some? <==> !AllWhitespace(raw))
            && (mode == Unset ==> r == None)
            && (r.Some? ==> r.value.mode == mode && mode != Unset
                            && r.value.content == Trim(raw)
                            && r.value.content != [] && Trim(r.value.content) == r.value.content
                            && (exists pre, post :: AllWhitespace(pre) && AllWhitespace(post)
                                                    && raw == pre + r.value.content + post)
                            && r.value.id == id && r.value.date == date
                            && r.value.prompt == (if mode == Guided then Some(JournalPrompts[promptIndex]) else None))
  {
    var raw := SelectedText(mode, pads);
    BlankIffAllWhitespace(raw);
    TrimIdempotent(raw);
    var pre, post := TrimSplit(raw);
    assert AllWhitespace(pre) && AllWhitespace(post) && raw == pre + Trim(raw) + post;
  }

  /**
   * The draft-restore rule for one writing area: a stored draft fills the
   * area only when the draft is non-empty and the area is empty, so typed
   * text is never overwritten.
   */
  function RestoreDraft(current: string, draft: Option<string>): (r: string)
    ensures current != "" ==> r == current
    ensures current == "" ==> r == (if draft.Some? then draft.value else "")
  {
    if draft.Some? && draft.value != "" && current == "" then draft.value else current
  }

  /**
   * The check made before the window closes: it walks the writing areas and
   * stops at the first that holds something besides whitespace.
   */
  method HasUnsavedText(areas: seq<string>) returns (warn: bool)
    ensures warn <==> exists i :: 0 <= i < |areas| && !AllWhitespace(areas[i])
  {
    var i := 0;
    while i < |areas|
      invariant 0 <= i <= |areas|
      invariant forall j :: 0 <= j < i ==> AllWhitespace(areas[j])
    {
      BlankIffAllWhitespace(areas[i]);
      if !IsBlank(areas[i]) {
        return true;
      }
      i := i + 1;
    }
    return false;
  }
}
