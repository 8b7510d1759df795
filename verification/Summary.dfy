/**
  The cap on an observation, applied by the tool server, the context builder and the store
  (internal/summary/summary.go, internal/opsmcp/result.go).
*/
module Summary {
  import opened Prelude

  const LIMIT_BYTES: nat := 8 * 1024

  // ---------------------------------------------------------------- UTF-8, sections 3 and 4 of RFC 3629

  predicate Tail(b: Byte) { 0x80 <= b <= 0xBF }

  predicate In(b: Byte, lo: int, hi: int) { lo <= b <= hi }

  /** The length of the well-formed sequence at the front of s, or 0 when there is none. */
  function RuneLength(s: Bytes): (n: nat)
    ensures n <= |s| && n <= 4
  {
    if |s| >= 1 && s[0] <= 0x7F then 1
    else if |s| >= 2 && In(s[0], 0xC2, 0xDF) && Tail(s[1]) then 2
    else if |s| >= 3 && ThreeByteHead(s[0], s[1]) && Tail(s[2]) then 3
    else if |s| >= 4 && FourByteHead(s[0], s[1]) && Tail(s[2]) && Tail(s[3]) then 4
    else 0
  }

  predicate ThreeByteHead(a: Byte, b: Byte) {
    || (a == 0xE0 && In(b, 0xA0, 0xBF))
    || (In(a, 0xE1, 0xEC) && Tail(b))
    || (a == 0xED && In(b, 0x80, 0x9F))
    || (In(a, 0xEE, 0xEF) && Tail(b))
  }

  predicate FourByteHead(a: Byte, b: Byte) {
    || (a == 0xF0 && In(b, 0x90, 0xBF))
    || (In(a, 0xF1, 0xF3) && Tail(b))
    || (a == 0xF4 && In(b, 0x80, 0x8F))
  }

  predicate WellFormed(s: Bytes)
    decreases |s|
  {
    s == [] || (RuneLength(s) > 0 && WellFormed(s[RuneLength(s)..]))
  }

  /** utf8.RuneStart: anything but a continuation byte. */
  predicate RuneStart(b: Byte) { !Tail(b) }

  /** In well-formed text the rune boundaries are the bytes that can start one. */
  lemma {:induction false} BoundariesAreRuneStarts(s: Bytes, k: nat)
    requires WellFormed(s) && k <= |s|
    ensures WellFormed(s[..k]) <==> k == |s| || RuneStart(s[k])
    decreases |s|
  {
    if k == |s| {
      assert s[..k] == s;
    } else {
      var n := RuneLength(s);
      if k < n {
        assert k > 0 ==> RuneLength(s[..k]) == 0;
      } else {
        BoundariesAreRuneStarts(s[n..], k - n);
        assert s[..k][n..] == s[n..][..k - n] && s[n..][k - n] == s[k];
        assert RuneLength(s[..k]) == n;
      }
    }
  }

  // ---------------------------------------------------------------- the cap

  /** The last position at or below `limit` where a cut does not fall inside a rune. */
  ghost predicate IsCut(s: Bytes, limit: nat, cut: nat)
    requires limit < |s|
  {
    && cut <= limit
    && (cut == 0 || RuneStart(s[cut]))
    && forall k :: cut < k <= limit ==> Tail(s[k])
  }

  function Cut(s: Bytes, limit: nat): (cut: nat)
    requires limit < |s|
    ensures IsCut(s, limit, cut)
  {
    if limit == 0 || RuneStart(s[limit]) then limit else Cut(s, limit - 1)
  }

  function Capped(s: Bytes, limit: int): Bytes {
    var limit := Max(limit, 0);
    if |s| <= limit then s else s[..Cut(s, limit)]
  }

  lemma CutIsUnique(s: Bytes, limit: nat, a: nat, b: nat)
    requires limit < |s| && IsCut(s, limit, a) && IsCut(s, limit, b)
    ensures a == b
  {
  }

  method CapAt(s: Bytes, limit: int) returns (text: Bytes, originalBytes: nat, truncated: bool)
    ensures text == Capped(s, limit) && IsCap(text, s, Max(limit, 0))
    ensures originalBytes == |s|
    ensures truncated <==> |s| > Max(limit, 0)
  {
    CappedIsCap(s, Max(limit, 0));
    var limit := limit;
    if limit < 0 {
      limit := 0;
    }
    if |s| <= limit {
      return s, |s|, false;
    }
    var cut := limit;
    while cut > 0 && !RuneStart(s[cut])
      invariant 0 <= cut <= limit
      invariant forall k :: cut < k <= limit ==> Tail(s[k])
    {
      cut := cut - 1;
    }
    CutIsUnique(s, limit, cut, Cut(s, limit));
    return s[..cut], |s|, true;
  }

  method Cap(s: Bytes) returns (text: Bytes, originalBytes: nat, truncated: bool)
    ensures text == Capped(s, LIMIT_BYTES) && IsCap(text, s, 8192)
    ensures originalBytes == |s|
    ensures truncated <==> |s| > LIMIT_BYTES
  {
    text, originalBytes, truncated := CapAt(s, LIMIT_BYTES);
  }

  /** On well-formed text the cap is the longest well-formed prefix within the limit. */
  lemma CapIsTheLongestWellFormedPrefix(s: Bytes, limit: nat)
    requires WellFormed(s)
    ensures var c := Capped(s, limit);
            && c <= s && |c| <= limit && WellFormed(c)
            && forall k: nat :: k <= |s| && k <= limit && WellFormed(s[..k]) ==> k <= |c|
  {
    if |s| > limit {
      var cut := Cut(s, limit);
      BoundariesAreRuneStarts(s, 0);
      BoundariesAreRuneStarts(s, cut);
      forall k: nat | k <= |s| && k <= limit && WellFormed(s[..k]) ensures k <= cut {
        BoundariesAreRuneStarts(s, k);
      }
    }
  }

  /**
    `c` is `s` when that is within the limit, and otherwise what of it comes before the last byte at or
    below the limit that can start a rune: of UTF-8, the longest well-formed prefix.
  */
  ghost predicate IsCap(c: Bytes, s: Bytes, limit: nat) {
    && c <= s && |c| <= limit && (|s| <= limit ==> c == s)
    && (|s| > limit ==> (c == [] || !(0x80 <= s[|c|] <= 0xBF)) && forall k :: |c| < k <= limit ==> 0x80 <= s[k] <= 0xBF)
    && (WellFormed(s) ==> WellFormed(c) && forall k: nat :: k <= |s| && k <= limit && WellFormed(s[..k]) ==> k <= |c|)
  }

  lemma CappedIsCap(s: Bytes, limit: nat)
    ensures IsCap(Capped(s, limit), s, limit)
  {
    if WellFormed(s) {
      CapIsTheLongestWellFormedPrefix(s, limit);
    }
  }

  /** Capping twice is capping once at the smaller limit, on any bytes at all. */
  lemma CapsCompose(s: Bytes, a: int, b: int)
    ensures Capped(Capped(s, a), b) == Capped(s, Min(a, b))
  {
    var a', b' := Max(a, 0), Max(b, 0);
    var t := Capped(s, a);
    if |s| > a' && |s| > b' {
      var cut := Cut(s, Min(a', b'));
      if |t| <= b' {
        assert IsCut(s, Min(a', b'), |t|);
        CutIsUnique(s, Min(a', b'), |t|, cut);
      } else {
        assert IsCut(s, b', Cut(t, b'));
        CutIsUnique(s, b', Cut(t, b'), cut);
        assert t[..cut] == s[..cut];
      }
    }
  }

  // ---------------------------------------------------------------- what the tool server emits

  /** "\n\n[truncated]" */
  const TRUNCATION_MARKER: Bytes := [10, 10, 91, 116, 114, 117, 110, 99, 97, 116, 101, 100, 93]

  function OkText(text: Bytes): Bytes {
    if |text| <= LIMIT_BYTES then text
    else Capped(text, LIMIT_BYTES - |TRUNCATION_MARKER|) + TRUNCATION_MARKER
  }

  method Ok(text: Bytes) returns (capped: Bytes, originalBytes: nat, truncated: bool)
    ensures capped == OkText(text) && originalBytes == |text|
    ensures truncated <==> capped != text
    ensures |text| <= 8192 ==> capped == text
    ensures |text| > 8192 ==>
              exists kept :: IsCap(kept, text, 8179) &&
                capped == kept + [10, 10, 91, 116, 114, 117, 110, 99, 97, 116, 101, 100, 93]
  {
    OkTextIs(text);
    capped, originalBytes, truncated := Cap(text);
    if truncated {
      var room, _, _ := CapAt(text, LIMIT_BYTES - |TRUNCATION_MARKER|);
      capped := room + TRUNCATION_MARKER;
      OkTextFits(text);
    }
  }

  lemma RuneLengthLooksAtItsRune(a: Bytes, b: Bytes)
    requires RuneLength(a) > 0
    ensures RuneLength(a + b) == RuneLength(a)
  {
    forall i | 0 <= i < |a| ensures (a + b)[i] == a[i] {
    }
  }

  lemma RuneThenWellFormed(s: Bytes, n: nat, rest: Bytes)
    requires 0 < n == RuneLength(s) && s[n..] == rest && WellFormed(rest)
    ensures WellFormed(s)
  {
  }

  lemma FirstRune(s: Bytes) returns (n: nat, rest: Bytes)
    requires WellFormed(s) && s != []
    ensures 0 < n == RuneLength(s) && rest == s[n..] && WellFormed(rest)
  {
    n := RuneLength(s);
    rest := s[n..];
  }

  lemma {:induction false} WellFormedConcat(a: Bytes, b: Bytes)
    requires WellFormed(a) && WellFormed(b)
    ensures WellFormed(a + b)
    decreases |a|
  {
    if a == [] {
      assert a + b == b;
    } else {
      hide *;
      var n, rest := FirstRune(a);
      assert (a + b)[n..] == rest + b;
      WellFormedConcat(rest, b);
      RuneLengthLooksAtItsRune(a, b);
      RuneThenWellFormed(a + b, n, rest + b);
    }
  }

  /** The text itself when it fits; otherwise its longest prefix with room for "\n\n[truncated]", and that. */
  lemma OkTextIs(text: Bytes)
    ensures |text| <= 8192 ==> OkText(text) == text
    ensures |text| > 8192 ==>
              exists kept :: IsCap(kept, text, 8179) &&
                OkText(text) == kept + [10, 10, 91, 116, 114, 117, 110, 99, 97, 116, 101, 100, 93]
  {
    if |text| > 8192 {
      CappedIsCap(text, 8179);
    }
  }

  lemma OkTextFits(text: Bytes)
    ensures |OkText(text)| <= LIMIT_BYTES
  {
  }

  lemma {:induction false} AsciiIsWellFormed(s: Bytes)
    requires forall i :: 0 <= i < |s| ==> s[i] <= 0x7F
    ensures WellFormed(s)
  {
    if s == [] {
    } else {
      assert RuneLength(s) == 1;
      AsciiIsWellFormed(s[1..]);
    }
  }

  /**
    What leaves the tool server is at most 8 KiB and still UTF-8, so the two caps after it, the
    context builder's and the store's, hand on exactly the same text.
  */
  lemma LaterCapsLeaveOkTextAlone(text: Bytes)
    requires WellFormed(text)
    ensures |OkText(text)| <= LIMIT_BYTES && WellFormed(OkText(text))
    ensures Capped(OkText(text), LIMIT_BYTES) == OkText(text)
    ensures |text| > LIMIT_BYTES ==>
      forall k: nat :: k <= |text| && WellFormed(text[..k]) && |text[..k] + TRUNCATION_MARKER| <= LIMIT_BYTES
        ==> k + |TRUNCATION_MARKER| <= |OkText(text)|
  {
    hide RuneLength, Cut, IsCut;
    OkTextFits(text);
    if |text| > LIMIT_BYTES {
      CapIsTheLongestWellFormedPrefix(text, LIMIT_BYTES - |TRUNCATION_MARKER|);
      AsciiIsWellFormed(TRUNCATION_MARKER);
      WellFormedConcat(Capped(text, LIMIT_BYTES - |TRUNCATION_MARKER|), TRUNCATION_MARKER);
    }
  }
}
