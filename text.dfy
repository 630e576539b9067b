/**
 * String primitives the journal controller relies on: ECMAScript
 * `String.prototype.trim`, lower-casing of the passphrase, and the decimal
 * rendering of a count inside a template literal.
 */
module Text {

  /** ECMAScript WhiteSpace and LineTerminator code points, the set `trim` removes. */
  predicate IsWhitespace(c: char)
  {
    var n := c as int;
    n == 0x09 || n == 0x0A || n == 0x0B || n == 0x0C || n == 0x0D || n == 0x20 ||
    n == 0xA0 || n == 0x1680 || (0x2000 <= n <= 0x200A) ||
    n == 0x2028 || n == 0x2029 || n == 0x202F || n == 0x205F || n == 0x3000 || n == 0xFEFF
  }

  predicate AllWhitespace(s: string)
  {
    forall i :: 0 <= i < |s| ==> IsWhitespace(s[i])
  }

  /** Neither end of `s` is whitespace (vacuously true of the empty string). */
  predicate Tight(s: string)
  {
    s == [] || (!IsWhitespace(s[0]) && !IsWhitespace(s[|s| - 1]))
  }

  /** How many whitespace characters `s` starts with. */
  function LeadingSpace(s: string): (k: nat)
    ensures k <= |s|
    ensures forall i :: 0 <= i < k ==> IsWhitespace(s[i])
    ensures k < |s| ==> !IsWhitespace(s[k])
  {
    if s != [] && IsWhitespace(s[0]) then 1 + LeadingSpace(s[1..]) else 0
  }

  /** How many whitespace characters `s` ends with. */
  function TrailingSpace(s: string): (k: nat)
    ensures k <= |s|
    ensures forall i :: |s| - k <= i < |s| ==> IsWhitespace(s[i])
    ensures k < |s| ==> !IsWhitespace(s[|s| - k - 1])
  {
    if s != [] && IsWhitespace(s[|s| - 1]) then 1 + TrailingSpace(s[..|s| - 1]) else 0
  }

  /** `s.trim()`: whitespace removed from both ends (TrimSplit says what was removed). */
  function Trim(s: string): (r: string)
    ensures |r| <= |s|
    ensures Tight(r)
  {
    var t := s[LeadingSpace(s)..];
    t[..|t| - TrailingSpace(t)]
  }

  /** JavaScript falsiness of `s.trim()`: nothing but whitespace. */
  predicate IsBlank(s: string)
  {
    Trim(s) == []
  }

  lemma {:induction false} LeadingSpacePadded(pre: string, w: string)
    requires AllWhitespace(pre) && (w == [] || !IsWhitespace(w[0]))
    ensures LeadingSpace(pre + w) == |pre|
    decreases |pre|
  {
    if pre != [] {
      assert (pre + w)[1..] == pre[1..] + w;
      LeadingSpacePadded(pre[1..], w);
    } else {
      assert pre + w == w;
    }
  }

  lemma {:induction false} TrailingSpacePadded(w: string, post: string)
    requires AllWhitespace(post) && (w == [] || !IsWhitespace(w[|w| - 1]))
    ensures TrailingSpace(w + post) == |post|
    decreases |post|
  {
    if post != [] {
      assert (w + post)[..|w + post| - 1] == w + post[..|post| - 1];
      TrailingSpacePadded(w, post[..|post| - 1]);
    } else {
      assert w + post == w;
    }
  }

  /** Surrounding a tight string with whitespace on either side makes no difference to `trim`. */
  lemma TrimPadded(pre: string, w: string, post: string)
    requires AllWhitespace(pre) && AllWhitespace(post) && Tight(w)
    ensures Trim(pre + w + post) == w
  {
    var s := pre + w + post;
    if w == [] {
      assert s == (pre + post) + [];
      LeadingSpacePadded(pre + post, []);
    } else {
      assert s == pre + (w + post);
      LeadingSpacePadded(pre, w + post);
      assert s[|pre|..] == w + post;
      TrailingSpacePadded(w, post);
    }
  }

  /** Every string is its trimmed text with whitespace before and after it. */
  lemma TrimSplit(s: string) returns (pre: string, post: string)
    ensures s == pre + Trim(s) + post
    ensures AllWhitespace(pre) && AllWhitespace(post)
  {
    var t;
    pre, t := LeadingPart(s);
    post := TrailingPart(t);
    var r := Trim(s);
    assert r == t[..|t| - TrailingSpace(t)];
    calc {
      s;
      pre + t;
      pre + (r + post);
      pre + r + post;
    }
  }

  /** The leading whitespace of `s`, split off from the rest. */
  lemma LeadingPart(s: string) returns (pre: string, t: string)
    ensures s == pre + t && t == s[LeadingSpace(s)..]
    ensures AllWhitespace(pre)
  {
    var k := LeadingSpace(s);
    pre, t := s[..k], s[k..];
    forall i | 0 <= i < |pre| ensures IsWhitespace(pre[i]) {
      assert pre[i] == s[i];
    }
  }

  /** The trailing whitespace of `t`, split off. */
  lemma TrailingPart(t: string) returns (post: string)
    ensures t == t[..|t| - TrailingSpace(t)] + post
    ensures AllWhitespace(post)
  {
    var m := TrailingSpace(t);
    post := t[|t| - m..];
    forall i | 0 <= i < |post| ensures IsWhitespace(post[i]) {
      assert post[i] == t[|t| - m + i];
    }
  }

  /** Trimming twice is trimming once. */
  lemma TrimIdempotent(s: string)
    ensures Trim(Trim(s)) == Trim(s)
  {
    var r := Trim(s);
    assert [] + r + [] == r;
    TrimPadded([], r, []);
  }

  /** A string is blank exactly when every character of it is whitespace. */
  lemma BlankIffAllWhitespace(s: string)
    ensures IsBlank(s) <==> AllWhitespace(s)
  {
    if AllWhitespace(s) {
      assert s + [] + [] == s;
      TrimPadded(s, [], []);
    }
  }

  /** Lower-cases the ASCII letters A-Z and leaves every other character alone. */
  function LowerChar(c: char): (d: char)
  {
    if 'A' <= c <= 'Z' then (c as int + 32) as char else c
  }

  /**
   * `toLowerCase` restricted to ASCII: same length, no capital A-Z left,
   * each capital becomes its own small letter, and nothing else changes.
   */
  function Lower(s: string): (r: string)
    ensures |r| == |s|
    ensures forall i :: 0 <= i < |r| ==> !('A' <= r[i] <= 'Z')
    ensures forall i :: 0 <= i < |s| && 'A' <= s[i] <= 'Z' ==> r[i] == (s[i] as int + 32) as char
    ensures forall i :: 0 <= i < |s| && r[i] != s[i] ==> 'A' <= s[i] <= 'Z'
  {
    seq(|s|, i requires 0 <= i < |s| => LowerChar(s[i]))
  }

  /** Lower-casing keeps the length, maps each character on its own and never touches whitespace. */
  lemma LowerShape(s: string)
    ensures |Lower(s)| == |s|
    ensures forall i :: 0 <= i < |s| ==> IsWhitespace(Lower(s)[i]) == IsWhitespace(s[i])
    ensures Tight(s) ==> Tight(Lower(s))
    ensures AllWhitespace(s) ==> Lower(s) == s
  {
  }

  lemma LowerAppend(a: string, b: string)
    ensures Lower(a + b) == Lower(a) + Lower(b)
  {
    assert forall i :: 0 <= i < |a + b| ==> Lower(a + b)[i] == (Lower(a) + Lower(b))[i];
  }

  /** Decimal digits of a natural number, most significant first, as JavaScript prints an integer. */
  function Decimal(n: nat): (r: string)
    ensures r != []
    ensures forall i :: 0 <= i < |r| ==> '0' <= r[i] <= '9'
    ensures r[0] == '0' ==> n == 0
  {
    if n < 10 then [('0' as int + n) as char]
    else Decimal(n / 10) + [('0' as int + n % 10) as char]
  }

  /** Reads a string of decimal digits back as a number (the inverse of Decimal). */
  function ParseDecimal(s: string): nat
    requires forall i :: 0 <= i < |s| ==> '0' <= s[i] <= '9'
  {
    if s == [] then 0
    else 10 * ParseDecimal(s[..|s| - 1]) + (s[|s| - 1] as int - '0' as int)
  }

  /** Decimal loses nothing: parsing its digits gives back the number. */
  lemma {:induction false} DecimalRoundTrip(n: nat)
    ensures ParseDecimal(Decimal(n)) == n
  {
    if n >= 10 {
      DecimalRoundTrip(n / 10);
      var d := Decimal(n);
      assert d[..|d| - 1] == Decimal(n / 10);
    }
  }
}
