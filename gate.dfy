/**
 * The vault's passphrase check: the typed text is lower-cased, trimmed and
 * compared with three fixed words.
 */
module Gate {
  import opened Text

  const AcceptedWords: set<string> := {"garden", "secret", "bloom"}

  /**
   * Whether `input.toLowerCase().trim()` is one of the accepted words; an
   * input shorter than the shortest word never unlocks.
   */
  predicate Unlocks(input: string)
    ensures Unlocks(input) ==> |input| >= 5
  {
    Trim(Lower(input)) in AcceptedWords
  }

  /**
   * For an input split into whitespace, a core without whitespace at either
   * end, and whitespace: it unlocks exactly when the lower-cased core is an
   * accepted word. The padding and the letter case never matter.
   */
  lemma UnlocksPadded(pre: string, core: string, post: string)
    requires AllWhitespace(pre) && AllWhitespace(post) && Tight(core)
    ensures Unlocks(pre + core + post) <==> Lower(core) in AcceptedWords
  {
    LowerAppend(pre + core, post);
    LowerAppend(pre, core);
    LowerShape(pre);
    LowerShape(post);
    LowerShape(core);
    TrimPadded(pre, Lower(core), post);
  }

  /**
   * The letter case of the input never matters: an input unlocks exactly
   * when its lower-cased form does, so `GARDEN` unlocks like `garden`.
   */
  lemma UnlocksIgnoresCase(input: string)
    ensures Unlocks(Lower(input)) <==> Unlocks(input)
  {
    assert Lower(Lower(input)) == Lower(input);
  }

  /** Trimming and lower-casing commute here: an input unlocks exactly when its trimmed, lower-cased text is accepted. */
  lemma UnlocksIffTrimmedWord(input: string)
    ensures Unlocks(input) <==> Lower(Trim(input)) in AcceptedWords
  {
    var pre, post := TrimSplit(input);
    UnlocksPadded(pre, Trim(input), post);
  }
}
