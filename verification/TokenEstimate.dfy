/** How many tokens the chunker takes a text to be (internal/ingest/tokens.go). */
module TokenEstimate {
  import opened Prelude

  type Rune = r: int | 0 <= r <= 0x10FFFF

  /** Text here is runes: the file has already been checked to be UTF-8. */
  type Text = seq<Rune>

  const CJK_RANGES: seq<(int, int)> := [
    (0x3000, 0x303F), (0x3040, 0x309F), (0x30A0, 0x30FF), (0x3400, 0x4DBF), (0x4E00, 0x9FFF),
    (0xAC00, 0xD7AF), (0xF900, 0xFAFF), (0xFF00, 0xFFEF), (0x20000, 0x2A6DF), (0x2A700, 0x2EBEF)]

  predicate IsCJK(r: Rune) {
    exists i :: 0 <= i < |CJK_RANGES| && CJK_RANGES[i].0 <= r <= CJK_RANGES[i].1
  }

  /** Twelfths of a token: two thirds of one for a CJK rune, a quarter for any other. */
  function RuneWeight(r: Rune): nat { if IsCJK(r) then 8 else 3 }

  function Weight(s: Text): nat {
    if s == [] then 0 else Weight(s[..|s| - 1]) + RuneWeight(s[|s| - 1])
  }

  /** Twelfths of a token, to whole tokens: the ceiling. */
  function Tokens(s: Text): nat { (Weight(s) + 11) / 12 }

  /** The ideographs with their punctuation and compatibility forms, kana, Hangul and the fullwidth forms. */
  lemma CJKIsTheRanges(r: Rune)
    ensures IsCJK(r) <==>
      || 0x3000 <= r < 0x3100 || 0x3400 <= r < 0x4DC0 || 0x4E00 <= r < 0xA000 || 0xAC00 <= r < 0xD7B0
      || 0xF900 <= r < 0xFB00 || 0xFF00 <= r < 0xFFF0 || 0x20000 <= r < 0x2A6E0 || 0x2A700 <= r < 0x2EBF0
  {
    assert CJK_RANGES[0] == (0x3000, 0x303F) && CJK_RANGES[1] == (0x3040, 0x309F) && CJK_RANGES[2] == (0x30A0, 0x30FF);
    assert CJK_RANGES[3] == (0x3400, 0x4DBF) && CJK_RANGES[4] == (0x4E00, 0x9FFF) && CJK_RANGES[5] == (0xAC00, 0xD7AF);
    assert CJK_RANGES[6] == (0xF900, 0xFAFF) && CJK_RANGES[7] == (0xFF00, 0xFFEF);
    assert CJK_RANGES[8] == (0x20000, 0x2A6DF) && CJK_RANGES[9] == (0x2A700, 0x2EBEF);
  }

  function CJKIn(s: Text): (n: nat)
    ensures n <= |s|
  {
    if s == [] then 0 else CJKIn(s[..|s| - 1]) + (if IsCJK(s[|s| - 1]) then 1 else 0)
  }

  /** Eight twelfths for each CJK rune and three for each other. */
  lemma {:induction false} WeightCountsRunes(s: Text)
    ensures Weight(s) == 8 * CJKIn(s) + 3 * (|s| - CJKIn(s))
  {
    hide IsCJK;
    if s == [] {
    } else {
      WeightCountsRunes(s[..|s| - 1]);
    }
  }

  /** A text's size, twelve to the token. */
  function Twelfths(s: Text): nat { 8 * CJKIn(s) + 3 * (|s| - CJKIn(s)) }

  method EstimateTokens(s: Text) returns (tokens: nat)
    ensures tokens == Tokens(s)
    ensures 12 * (tokens - 1) < Twelfths(s) <= 12 * tokens
  {
    var weight: nat := 0;
    for i := 0 to |s|
      invariant weight == Weight(s[..i])
    {
      assert s[..i + 1][..i] == s[..i];
      weight := weight + RuneWeight(s[i]);
    }
    assert s[..|s|] == s;
    WeightCountsRunes(s);
    tokens := (weight + 11) / 12;
  }

  lemma {:induction false} WeightOfConcat(a: Text, b: Text)
    ensures Weight(a + b) == Weight(a) + Weight(b)
  {
    if b == [] {
      assert a + b == a;
    } else {
      var n := |b| - 1;
      assert (a + b)[..|a + b| - 1] == a + b[..n];
      WeightOfConcat(a, b[..n]);
    }
  }
}
