# The Secret Garden journal: session controller model

The Secret Garden is a desktop journal. A passphrase opens a "vault" onto a
garden screen. From the garden the writer picks one of three paths: guided
prompts, free writing, or a "penny for your thoughts" flip that draws a
random prompt. Every saved entry grows a flower, and the garden shows the
flowers as a progress line.

This project models the renderer's session controller in `app.js` in Dafny:

- `text.dfy` (module `Text`): ECMAScript `trim` over the exact WhiteSpace and
  LineTerminator set, passphrase lower-casing, and the decimal form of a
  count in a template literal, with its parser as the partner.
- `catalog.dfy` (module `Catalog`): the twelve guided prompts, the two
  seven-prompt penny catalogs, the five-flower palette and the fixed messages.
- `progress.dfy` (module `Progress`): the progress line as a function of the
  flower count, and the rendering loop proved against it.
- `prompts.dfy` (module `Prompts`): the cyclic guided-prompt cursor, and the
  penny flip as a function of the two `Math.random()` draws it makes.
- `gate.dfy` (module `Gate`): the passphrase check.
- `entries.dfy` (module `Entries`): entries, which text a save reads, the entry
  it builds, the draft-restore rule and the check made before the window closes.
- `session.dfy` (module `Session`): class `Journal`. It holds the module-level
  state (`currentPromptIndex`, `currentJournalMode`, `journalEntries`,
  `flowerCount`) and the page state the handlers read and write. Each handler
  is a method with a field-precise `modifies` frame.

Things the model takes as inputs:

- the clock readings of a save (`id`, `date`);
- the two `Math.random()` values of a flip, as reals in `[0, 1)`;
- the entries and count loaded from storage at start-up;
- the stored drafts.

Typing into the passphrase box or a writing area is a plain field write on
`Journal`.

The flower glyphs in `app.js` read as UTF-8 bytes shown in Windows-1252. For
example, the first flower's bytes are F0 9F 8C B8. The model uses the code
points those bytes encode: U+1F338, U+1F33A, U+1F33B, U+1F337 and U+1F339 for
the flowers, and U+1FA99 and U+1F319 for the coin faces.

A stored flower count of zero or less shows the placeholder, not only a
count of exactly zero: the loop draws nothing, no suffix is added, and the
empty string falls back to the placeholder (app.js:318-325).

## Model

| member | source | states |
|---|---|---|
| `Text.Trim` | app.js:97 | the trimmed text neither starts nor ends with whitespace and is no longer than the input |
| `Text.Lower` | app.js:97 | lower-casing keeps the length, turns each capital A-Z into its own small letter, and leaves every other character as it was |
| `Text.TrimSplit` | app.js:266 | every string is some whitespace, then its trimmed text, then some whitespace: `trim` removes only whitespace and only from the ends |
| `Text.TrimPadded` | app.js:97 | surrounding a string that has no whitespace at either end with whitespace on both sides leaves `trim` returning that string |
| `Text.TrimIdempotent` | app.js:266 | trimming saved content again changes nothing |
| `Text.BlankIffAllWhitespace` | app.js:260 | `content.trim()` is empty exactly when every character is whitespace |
| `Text.Decimal` | app.js:323 | the count printed in the suffix: a non-empty string of decimal digits with no leading zero (except for 0 itself) |
| `Text.DecimalRoundTrip` | app.js:323 | the decimal digits printed for the hidden count parse back to that count |
| `Progress.ProgressText` | app.js:317-325 | the indicator text for a flower count: never empty, and the placeholder exactly when the count is 0 or less |
| `Progress.Bouquet` | app.js:318-321 | the loop's glyph string for `k` flowers has exactly `k` characters |
| `Progress.BouquetGlyphs` | app.js:318-321 | flower `i` is palette entry `i mod 5` |
| `Progress.ProgressShape` | app.js:314-327 | placeholder for a count of 0 or less; for 1..20, exactly that many glyphs cycling through the palette; above 20, twenty glyphs followed by `" (+" + (n-20) + " more!)"` |
| `Progress.OverflowReadsBack` | app.js:322-323 | above twenty, the count beyond twenty can be read back from the suffix |
| `Progress.RenderProgress` | app.js:317-325 | the `Math.min(flowerCount, 20)` loop, the suffix and the placeholder fallback compute exactly `ProgressText(flowerCount)` |
| `Prompts.NextPromptIndex` | app.js:194 | the advanced cursor is always inside the 12-prompt catalog |
| `Prompts.AdvanceByIsModular` | app.js:193-195 | from a valid cursor, `k` presses of "next prompt" move it to `(i + k) mod 12` |
| `Prompts.FullCycle` | app.js:194 | twelve presses return the cursor to its start, and no smaller positive number of presses does |
| `Prompts.PennyIndex` | app.js:220 | `Math.floor(r * prompts.length)` for `r` in `[0, 1)` is a valid index into the side's catalog |
| `Prompts.Flip` | app.js:218-224 | heads exactly when the first draw exceeds 0.5; the face matches the side; the prompt comes from that side's catalog only |
| `Prompts.PennyIndexInterval` | app.js:220 | prompt `j` is chosen exactly when the draw lies in `[j/7, (j+1)/7)`, so each prompt gets an interval of equal width |
| `Prompts.EveryPennyPromptReachable` | app.js:218-220 | every prompt of either catalog is produced by some pair of draws |
| `Gate.Unlocks` | app.js:97-100 | whether the lower-cased, trimmed input is `garden`, `secret` or `bloom`; an input shorter than five characters never unlocks |
| `Gate.UnlocksPadded` | app.js:97-100 | for input = whitespace + core + whitespace, unlocking succeeds exactly when the lower-cased core is `garden`, `secret` or `bloom` |
| `Gate.UnlocksIgnoresCase` | app.js:97-100 | an input unlocks exactly when its lower-cased form does, so the letter case of the passphrase never matters |
| `Gate.UnlocksIffTrimmedWord` | app.js:97-100 | any input unlocks exactly when its trimmed, lower-cased text is one of the three words |
| `Entries.SelectedText` | app.js:244-258 | the text a save reads: the guided area in guided mode, the free area in free mode, the penny area in penny mode, and the empty string when no mode is chosen |
| `Entries.NewEntry` | app.js:260-268 | builds an entry exactly when the text holds something besides whitespace; its content is then non-empty with no whitespace at either end |
| `Entries.ClearPad` | app.js:282 | a save empties the writing area of the current mode and leaves the other areas as they were |
| `Entries.SaveOutcome` | app.js:244-268 | a save builds an entry exactly when the selected area holds something besides whitespace, never with no mode chosen; the entry has the mode; its content is exactly `Trim` of the selected text, non-empty, and that text is some whitespace, the content, then some whitespace; it carries the guided prompt under the cursor in guided mode and no prompt otherwise |
| `Entries.RestoreDraft` | app.js:352-355 | an area holding text keeps it; an empty area takes the stored draft if there is one |
| `Entries.HasUnsavedText` | app.js:384-393 | the early-exit loop warns exactly when some writing area holds something besides whitespace |
| `Session.Title` | app.js:163-168 | the heading of each of the three modes, never empty |
| `Session.TitleIdentifiesMode` | app.js:163-168 | two modes share a heading only if they are the same mode |
| `Session.Journal.constructor` | app.js:42-45 | start-up state: vault screen, no mode, cursor 0, the loaded entries and count, and the progress line drawn for that count |
| `Session.Journal.ShowGardenScreen` | app.js:141-144 | shows the garden and redraws the progress line from the flower count |
| `Session.Journal.Unlock` | app.js:96-107 | success exactly when `Unlocks` holds of the typed text: success opens the garden and clears the error; failure keeps the screen, shows the error and empties the passphrase box |
| `Session.Journal.StartJournalingMode` | app.js:150-177 | sets the mode and title and opens the journal; the cursor is unchanged; guided mode shows the prompt under the cursor; penny mode resets the coin display |
| `Session.Journal.LoadCurrentPrompt` | app.js:188-191 | shows the catalog prompt under the cursor |
| `Session.Journal.NextPrompt` | app.js:193-196 | cursor becomes `(i + 1) mod 12` and stays valid; the prompt shown is the new one; entries and count are outside its frame |
| `Session.Journal.ResetPenny` | app.js:235-241 | coin face and prompt text return to the unflipped display |
| `Session.Journal.PressFlip` | app.js:210-211 | a press starts a flip only when none is settling; afterwards the button is disabled |
| `Session.Journal.SettleFlip` | app.js:217-231 | shows the face and prompt of `Flip` for the two draws and enables the button again |
| `Session.Journal.SaveCurrentEntry` | app.js:243-290 | blank content (or no mode) changes nothing; otherwise the new entry list is the old one with exactly the built entry appended, the flower count is one higher, the mode's area is emptied and the progress line redrawn; a count equal to the number of entries stays equal |
| `Session.Journal.LoadDrafts` | app.js:349-357 | each of the three areas becomes `RestoreDraft` of its old text and its stored draft |
| `Session.Journal.UnloadGuard` | app.js:384-393 | closing is held back exactly when one of the three areas holds something besides whitespace |

## Left out

- Text.Lower: only `A`-`Z` are lower-cased, not the full Unicode mapping of `toLowerCase`. For the passphrase test this makes no difference. The only non-ASCII characters that lower-case to ASCII letters are U+212A (to `k`) and U+0130 (to `i` plus a combining dot). None of the accepted words contains `k` or `i`. Lower-casing never turns a character into whitespace or the reverse.
- Strings are sequences of Unicode code points, while JavaScript strings are UTF-16. Each flower is one character here but two UTF-16 units there, so the lengths in `Progress.ProgressShape` count flowers, not UTF-16 units.
- Timers are collapsed or left out, because they are presentation only:
  - the 1.5 s vault-door animation before the garden shows;
  - the 3 s clearing of the error line;
  - the 2 s "Saved!" / "Nothing to save" button flash, of which `SaveCurrentEntry` keeps only the `saved` result;
  - the prompt fade;
  - the textarea focus delay.
- The one-second settle of a flip is split into `PressFlip` (button disabled) and `SettleFlip` (the timer callback). A press while disabled does nothing, because the browser does not deliver clicks on a disabled button.
- The DOM itself is not modelled: element lookups, class toggles and focus.
- Storage is not modelled: the `localStorage` writes after a save and the start-up `JSON.parse(...) || default` load. The constructor takes the loaded entries and count as inputs. A stored count that is not an integer is not modelled.
- `setupAutoSave` and `debounce` are not modelled. They are timer scheduling over storage writes.
- `formatDate` is not modelled. Its output depends on the locale.
- Session.Journal.SaveCurrentEntry: assumes both `localStorage.setItem` calls succeed. If the first one throws (for example when the storage quota is full), the source has already pushed the entry (app.js:271) but never reaches `flowerCount++`, the textarea clear or the progress redraw (app.js:272-285). The entry is then in memory with the count not raised, so a count that matched the number of entries no longer does. The model does not capture that outcome.
- Text.Decimal: JavaScript numbers are IEEE doubles, and the model uses unbounded integers. From 2^53 on, `flowerCount++` (app.js:275) no longer changes the count, and from 1e21 on, `${flowerCount - 20}` (app.js:323) prints in exponent form. The model's `flowerCount == old(flowerCount) + 1` and its plain-digit `Decimal` differ from the source at those sizes.
- `Session.Journal.StartJournalingMode` requires one of the three modes. The page only offers those three. For any other mode, `getElementById` returns null and the handler throws.
- `Prompts.Flip` uses exact real arithmetic for `Math.random()`, not IEEE doubles. `Math.floor(r * 7)` stays below 7 for every double below 1, so the catalog bound holds either way.
- The global `error` handler is not modelled. It only logs.
- `main.js` and `preload.js` are not modelled. They hold the Electron window, menu, IPC, file dialogs and file I/O. Export and import only stringify or parse a file, and no code applies imported data to the journal.
