/**
 * Where a writing prompt comes from: the guided-prompt cursor, which walks
 * the catalog cyclically, and the penny flip, which picks a side and then a
 * prompt of that side from two random numbers.
 */
module Prompts {
  import opened Catalog

  /** The cursor after one "next prompt": one step on, wrapping at the end of the catalog. */
  function NextPromptIndex(i: nat): (r: nat)
    ensures r < |JournalPrompts|
  {
    (i + 1) % |JournalPrompts|
  }

  /** The cursor after `k` presses of "next prompt". */
  function AdvanceBy(i: nat, k: nat): nat
  {
    if k == 0 then i else NextPromptIndex(AdvanceBy(i, k - 1))
  }

  /** From a valid cursor, `k` presses move it `k` places round the catalog. */
  lemma {:induction false} AdvanceByIsModular(i: nat, k: nat)
    requires i < |JournalPrompts|
    ensures AdvanceBy(i, k) == (i + k) % |JournalPrompts|
  {
    if k > 0 {
      AdvanceByIsModular(i, k - 1);
      StepMod(i + k - 1);
    }
  }

  lemma StepMod(x: nat)
    ensures (x % 12 + 1) % 12 == (x + 1) % 12
  {
    var q, m := x / 12, x % 12;
    assert x == 12 * q + m;
    if m < 11 {
      assert x + 1 == 12 * q + (m + 1);
    } else {
      assert x + 1 == 12 * (q + 1);
    }
  }

  /** Twelve presses bring the cursor back to where it started, and no fewer do. */
  lemma FullCycle(i: nat)
    requires i < |JournalPrompts|
    ensures AdvanceBy(i, |JournalPrompts|) == i
    ensures forall k :: 0 < k < |JournalPrompts| ==> AdvanceBy(i, k) != i
  {
    AdvanceByIsModular(i, |JournalPrompts|);
    forall k | 0 < k < |JournalPrompts|
      ensures AdvanceBy(i, k) != i
    {
      AdvanceByIsModular(i, k);
    }
  }

  datatype Side = Heads | Tails

  /** The catalog each side of the penny draws from. */
  function SidePrompts(side: Side): seq<string>
  {
    match side
    case Heads => HeadsPrompts
    case Tails => TailsPrompts
  }

  /** What a settled flip reveals: the side, the face glyph shown for it, and the prompt. */
  datatype PennyResult = PennyResult(side: Side, face: char, prompt: string)

  /** `Math.floor(r * prompts.length)` for a `Math.random()` value `r`. */
  function PennyIndex(side: Side, r: real): (j: nat)
    requires 0.0 <= r < 1.0
    ensures j < |SidePrompts(side)|
  {
    (r * |SidePrompts(side)| as real).Floor
  }

  /**
   * A flip, given the two `Math.random()` values it draws: the first decides
   * the side (heads only when it exceeds one half), the second the prompt.
   */
  function Flip(sideDraw: real, promptDraw: real): (p: PennyResult)
    requires 0.0 <= sideDraw < 1.0 && 0.0 <= promptDraw < 1.0
    ensures p.side == Heads <==> sideDraw > 0.5
    ensures p.face == (if p.side == Heads then HeadsFace else TailsFace)
    ensures p.prompt in SidePrompts(p.side)
  {
    var side := if sideDraw > 0.5 then Heads else Tails;
    var prompts := SidePrompts(side);
    PennyResult(side, if side == Heads then HeadsFace else TailsFace, prompts[PennyIndex(side, promptDraw)])
  }

  /**
   * Prompt `j` of a side is chosen exactly when the second draw falls in
   * `[j/7, (j+1)/7)`: every prompt gets an interval of the same width.
   */
  lemma PennyIndexInterval(side: Side, r: real, j: nat)
    requires 0.0 <= r < 1.0
    ensures var n := |SidePrompts(side)| as real;
            PennyIndex(side, r) == j <==> j as real / n <= r < (j + 1) as real / n
  {
    var n := |SidePrompts(side)| as real;
    assert n == 7.0;
    var x := r * n;
    assert j as real / n <= r <==> j as real <= x;
    assert r < (j + 1) as real / n <==> x < (j + 1) as real;
  }

  /** Every prompt of either catalog can come up: the draw `j/7` picks prompt `j`. */
  lemma EveryPennyPromptReachable(side: Side, j: nat)
    requires j < |SidePrompts(side)|
    ensures var r := j as real / |SidePrompts(side)| as real;
            0.0 <= r < 1.0 && Flip(if side == Heads then 0.75 else 0.25, r).prompt == SidePrompts(side)[j]
  {
    var n := |SidePrompts(side)| as real;
    var r := j as real / n;
    PennyIndexInterval(side, r, j);
  }
}
