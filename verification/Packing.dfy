/**
  Packing one section's units into chunks at unit boundaries (internal/ingest/chunk.go), and why the
  greedy choice yields the fewest chunks.
*/
module Packing {
  import opened Prelude
  import opened TokenEstimate
  import opened Parse
  import opened GreedyPacking

  datatype Chunk = Chunk(index: nat, headingPath: Text, content: Text, tokens: nat)

  /** A chunk's content under the heading path `p`; without one it is the body alone. */
  function Embedded(p: Text, body: Text): Text { if p == [] then body else p + BLANK_LINE + body }

  function TrimLeft(s: Text): Text { if s != [] && s[0] == NEWLINE then TrimLeft(s[1..]) else s }

  function TrimRight(s: Text): Text {
    if s != [] && s[|s| - 1] == NEWLINE then TrimRight(s[..|s| - 1]) else s
  }

  /** Blank lines at the ends go; the indentation of the first line stays. */
  function NewChunk(index: nat, p: Text, body: Text): Chunk {
    var content := Embedded(p, TrimRight(TrimLeft(body)));
    Chunk(index, p, content, Tokens(content))
  }

  // ---------------------------------------------------------------- what a chunk says

  /** `inner` is `text` without the newlines it starts and ends with. */
  ghost predicate Trimmed(inner: Text, text: Text) {
    && (inner != [] ==> inner[0] != 10 && inner[|inner| - 1] != 10)
    && exists i: nat, j: nat :: TrimmedAt(inner, text, i, j)
  }

  predicate TrimmedAt(inner: Text, text: Text, i: nat, j: nat) {
    && i <= j <= |text| && inner == text[i..j]
    && (forall k :: 0 <= k < i ==> text[k] == 10) && forall k :: j <= k < |text| ==> text[k] == 10
  }

  lemma {:induction false} TrimLeftDropsNewlines(s: Text)
    ensures |TrimLeft(s)| <= |s| && TrimLeft(s) == s[|s| - |TrimLeft(s)|..]
    ensures forall k :: 0 <= k < |s| - |TrimLeft(s)| ==> s[k] == NEWLINE
    ensures TrimLeft(s) != [] ==> TrimLeft(s)[0] != NEWLINE
  {
    if s != [] && s[0] == NEWLINE {
      TrimLeftDropsNewlines(s[1..]);
      assert forall k :: 0 < k < |s| ==> s[k] == s[1..][k - 1];
    } else {
    }
  }

  lemma {:induction false} TrimRightDropsNewlines(s: Text)
    ensures TrimRight(s) <= s
    ensures forall i :: |TrimRight(s)| <= i < |s| ==> s[i] == NEWLINE
    ensures TrimRight(s) != [] ==> TrimRight(s)[|TrimRight(s)| - 1] != NEWLINE
    decreases |s|
  {
    if s != [] && s[|s| - 1] == NEWLINE {
      TrimRightDropsNewlines(s[..|s| - 1]);
    } else {
    }
  }

  lemma TrimmingTrims(s: Text)
    ensures Trimmed(TrimRight(TrimLeft(s)), s)
  {
    hide TrimLeft, TrimRight;
    var left := TrimLeft(s);
    var inner, i := TrimRight(left), |s| - |left|;
    TrimLeftDropsNewlines(s);
    TrimRightDropsNewlines(left);
    assert forall k :: 0 <= k < |left| ==> left[k] == s[i + k];
    assert inner == s[i..i + |inner|];
    assert TrimmedAt(inner, s, i, i + |inner|);
  }

  /** The path, a blank line and the text, without the newlines that text starts and ends with. */
  ghost predicate Tells(c: Chunk, p: Text, text: Text) {
    && c.headingPath == p && 12 * (c.tokens - 1) < Twelfths(c.content) <= 12 * c.tokens
    && exists inner :: Trimmed(inner, text) && c.content == if p == [] then inner else p + [10, 10] + inner
  }

  lemma NewChunkTells(index: nat, p: Text, body: Text)
    ensures NewChunk(index, p, body).index == index && Tells(NewChunk(index, p, body), p, body)
  {
    hide TrimLeft, TrimRight, Trimmed, Weight;
    TrimmingTrims(body);
    WeightCountsRunes(NewChunk(index, p, body).content);
  }

  /** The text under its path is at most `target` tokens. */
  predicate HasRoom(p: Text, text: Text, target: int) {
    Twelfths(if p == [] then text else p + [10, 10] + text) <= 12 * target
  }

  lemma RoomIsFit(p: Text, body: Text, target: int)
    ensures HasRoom(p, body, target) <==> TextFits(p, body, target)
  {
    hide Weight;
    WeightCountsRunes(Embedded(p, body));
  }

  predicate TextFits(p: Text, body: Text, target: int) { Tokens(Embedded(p, body)) <= target }

  /** Whether a run of units, joined under a path, is within the target. */
  function Fits(p: Text, target: int): seq<Unit> -> bool { us => TextFits(p, JoinUnits(us), target) }

  // ---------------------------------------------------------------- the estimate grows with the text

  lemma LighterTextFits(p: Text, light: Text, heavy: Text, target: int)
    requires Weight(light) <= Weight(heavy) && TextFits(p, heavy, target)
    ensures TextFits(p, light, target)
  {
    if p != [] {
      WeightOfConcat(p + BLANK_LINE, light);
      WeightOfConcat(p + BLANK_LINE, heavy);
    }
  }

  lemma {:induction false} TrimmingIsLighter(s: Text)
    ensures Weight(TrimLeft(s)) <= Weight(s) && Weight(TrimRight(s)) <= Weight(s)
    decreases |s|
  {
    if s == [] {
    } else {
      WeightOfConcat([s[0]], s[1..]);
      assert s == [s[0]] + s[1..];
      TrimmingIsLighter(s[1..]);
      TrimmingIsLighter(s[..|s| - 1]);
    }
  }

  /** What fits while packing also fits once it is a chunk. */
  lemma FittingTextMakesAFittingChunk(index: nat, p: Text, body: Text, target: int)
    requires TextFits(p, body, target)
    ensures NewChunk(index, p, body).tokens <= target
  {
    TrimmingIsLighter(body);
    TrimmingIsLighter(TrimLeft(body));
    LighterTextFits(p, TrimRight(TrimLeft(body)), body, target);
  }

  lemma OneMoreUnitIsHeavier(us: seq<Unit>)
    requires us != []
    ensures Weight(JoinUnits(us[..|us| - 1])) <= Weight(JoinUnits(us))
  {
    var n := |us| - 1;
    if n > 0 {
      WeightOfConcat(JoinUnits(us[..n]), Separator(us[n - 1], us[n]));
      WeightOfConcat(JoinUnits(us[..n]) + Separator(us[n - 1], us[n]), us[n].text);
    }
  }

  lemma {:induction false} DroppingTheFirstUnitIsLighter(us: seq<Unit>)
    requires us != []
    ensures Weight(JoinUnits(us[1..])) <= Weight(JoinUnits(us))
  {
    var n := |us| - 1;
    if n == 0 {
    } else {
      var sep := Separator(us[n - 1], us[n]);
      DroppingTheFirstUnitIsLighter(us[..n]);
      WeightOfConcat(JoinUnits(us[..n]), sep);
      WeightOfConcat(JoinUnits(us[..n]) + sep, us[n].text);
      if n > 1 {
        var tail := us[1..];
        assert tail[..n - 1] == us[..n][1..];
        WeightOfConcat(JoinUnits(us[..n][1..]), sep);
        WeightOfConcat(JoinUnits(us[..n][1..]) + sep, us[n].text);
      }
    }
  }

  lemma {:induction false} PrefixIsLighter(us: seq<Unit>, hi: nat)
    requires hi <= |us|
    ensures Weight(JoinUnits(us[..hi])) <= Weight(JoinUnits(us))
    decreases |us|
  {
    if hi < |us| {
      var front := us[..|us| - 1];
      OneMoreUnitIsHeavier(us);
      PrefixIsLighter(front, hi);
      assert front[..hi] == us[..hi];
    } else {
      assert us[..hi] == us;
    }
  }

  lemma {:induction false} SuffixIsLighter(us: seq<Unit>, lo: nat)
    requires lo <= |us|
    ensures Weight(JoinUnits(us[lo..])) <= Weight(JoinUnits(us))
    decreases |us|
  {
    if lo > 0 {
      DroppingTheFirstUnitIsLighter(us);
      SuffixIsLighter(us[1..], lo - 1);
      assert us[1..][lo - 1..] == us[lo..];
    } else {
      assert us[lo..] == us;
    }
  }

  /** The estimate is monotone over ranges. */
  lemma SubRangeIsLighter(us: seq<Unit>, lo: nat, hi: nat)
    requires lo <= hi <= |us|
    ensures Weight(JoinUnits(us[lo..hi])) <= Weight(JoinUnits(us))
  {
    PrefixIsLighter(us, hi);
    SuffixIsLighter(us[..hi], lo);
    assert us[..hi][lo..] == us[lo..hi];
  }

  lemma FitsIsMonotone(p: Text, target: int)
    ensures Monotone(Fits(p, target))
  {
    var fits := Fits(p, target);
    forall s: seq<Unit>, lo, hi | 0 <= lo <= hi <= |s| && fits(s) ensures fits(s[lo..hi]) {
      SubRangeIsLighter(s, lo, hi);
      LighterTextFits(p, JoinUnits(s[lo..hi]), JoinUnits(s), target);
    }
  }

  /**
    No way of cutting a section's units into consecutive parts, each of which fits or is a single
    unit, yields fewer chunks than the packer's.
  */
  lemma PackingIsOptimal(p: Text, us: seq<Unit>, parts: seq<seq<Unit>>, target: int)
    requires Flatten(parts) == us
    requires forall k :: 0 <= k < |parts| ==> |parts[k]| <= 1 || HasRoom(p, JoinUnits(parts[k]), target)
    ensures |Greedy(Fits(p, target), us)| <= |parts|
  {
    hide TextFits, HasRoom;
    forall k | 0 <= k < |parts| ensures Allowed(Fits(p, target), parts[k]) {
      RoomIsFit(p, JoinUnits(parts[k]), target);
    }
    FitsIsMonotone(p, target);
    GreedyIsOptimal(Fits(p, target), us, parts);
  }

  // ---------------------------------------------------------------- the packer

  function ChunkOfPart(start: nat, p: Text): (nat, seq<Unit>) -> Chunk {
    (k: nat, part: seq<Unit>) => NewChunk(start + k, p, JoinUnits(part))
  }

  function ChunksOf(start: nat, p: Text, parts: seq<seq<Unit>>): seq<Chunk> {
    ClosedParts(ChunkOfPart(start, p), parts)
  }

  method PackUnits(start: nat, p: Text, us: seq<Unit>, target: int) returns (out: seq<Chunk>)
    ensures out == ChunksOf(start, p, Greedy(Fits(p, target), us))
  {
    FitsIsMonotone(p, target);
    out := Pack(us, Fits(p, target), ChunkOfPart(start, p));
  }
}
