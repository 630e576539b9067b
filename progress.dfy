/**
 * The garden's progress indicator: a string that depends on the flower
 * count alone.
 */
module Progress {
  import opened Text
  import opened Catalog

  /** The glyph drawn at position `i`: the palette, cycled. */
  function Glyph(i: nat): char
  {
    Palette[i % |Palette|]
  }

  /** The first `k` flowers of the indicator, one glyph per flower. */
  function Bouquet(k: nat): (r: string)
    ensures |r| == k
  {
    if k == 0 then [] else Bouquet(k - 1) + [Glyph(k - 1)]
  }

  /** The text after the twentieth flower when there are more than twenty. */
  function Overflow(extra: nat): string
  {
    " (+" + Decimal(extra) + " more!)"
  }

  /**
   * What the indicator shows for a given flower count. It is never empty, and
   * it is the placeholder exactly when there is no flower to draw.
   */
  function ProgressText(flowerCount: int): (r: string)
    ensures r != []
    ensures r == ProgressPlaceholder <==> flowerCount <= 0
  {
    if flowerCount <= 0 then ProgressPlaceholder
    else if flowerCount <= MaxFlowers then
      BouquetGlyphs(flowerCount);
      Bouquet(flowerCount)
    else
      BouquetGlyphs(MaxFlowers);
      assert (Bouquet(MaxFlowers) + Overflow(flowerCount - MaxFlowers))[0] == Bouquet(MaxFlowers)[0];
      Bouquet(MaxFlowers) + Overflow(flowerCount - MaxFlowers)
  }

  /** Flower `i` of a bouquet is palette entry `i mod 5`. */
  lemma {:induction false} BouquetGlyphs(k: nat)
    ensures forall i :: 0 <= i < k ==> Bouquet(k)[i] == Palette[i % 5]
  {
    if k > 0 {
      BouquetGlyphs(k - 1);
    }
  }

  /**
   * The indicator's three shapes: the placeholder for a count of zero (or
   * less), exactly `n` cycling glyphs for `1 <= n <= 20`, and twenty glyphs
   * followed by " (+k more!)" above twenty.
   */
  lemma ProgressShape(n: int)
    ensures n <= 0 ==> ProgressText(n) == ProgressPlaceholder
    ensures 0 < n <= 20 ==>
              |ProgressText(n)| == n &&
              forall i :: 0 <= i < n ==> ProgressText(n)[i] == Palette[i % 5]
    ensures n > 20 ==>
              |ProgressText(n)| > 20 &&
              (forall i :: 0 <= i < 20 ==> ProgressText(n)[i] == Palette[i % 5]) &&
              ProgressText(n)[20..] == " (+" + Decimal(n - 20) + " more!)"
  {
    if n > 0 {
      BouquetGlyphs(if n <= 20 then n else 20);
    }
  }

  /** Above twenty, the hidden part of the count can be read back from the suffix. */
  lemma OverflowReadsBack(n: int)
    requires n > 20
    ensures var t := ProgressText(n);
            |t| > 30 && ParseDecimal(t[23..|t| - 7]) == n - 20
  {
    var t := ProgressText(n);
    var d := Decimal(n - 20);
    assert t == Bouquet(20) + " (+" + d + " more!)";
    assert t[23..|t| - 7] == d;
    DecimalRoundTrip(n - 20);
  }

  /** The rendering loop of the indicator, with `Math.min(flowerCount, 20)` as its bound. */
  method RenderProgress(flowerCount: int) returns (display: string)
    ensures display == ProgressText(flowerCount)
  {
    display := "";
    var limit := if flowerCount < MaxFlowers then flowerCount else MaxFlowers;
    var i := 0;
    while i < limit
      invariant 0 <= i <= (if limit < 0 then 0 else limit)
      invariant display == Bouquet(i)
    {
      display := display + [Palette[i % |Palette|]];
      i := i + 1;
    }
    assert display == Bouquet(if flowerCount <= 0 then 0 else limit);
    if flowerCount > MaxFlowers {
      display := display + Overflow(flowerCount - MaxFlowers);
    }
    if display == "" {
      display := ProgressPlaceholder;
    }
  }
}
