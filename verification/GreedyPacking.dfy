/**
  Filling consecutive parts greedily, for any notion of fitting that every run within a fitting run
  shares: nothing is lost or split, and no other cut into consecutive parts has fewer.
*/
module GreedyPacking {
  /** How far the first part reaches, given that it already holds n. */
  function Longest<T>(fits: seq<T> -> bool, s: seq<T>, n: nat): (r: nat)
    requires 0 < n <= |s|
    ensures n <= r <= |s|
    decreases |s| - n
  {
    if n < |s| && fits(s[..n + 1]) then Longest(fits, s, n + 1) else n
  }

  function Greedy<T>(fits: seq<T> -> bool, s: seq<T>): seq<seq<T>>
    decreases |s|
  {
    if s == [] then []
    else
      var n := Longest(fits, s, 1);
      [s[..n]] + Greedy(fits, s[n..])
  }

  function Flatten<T>(parts: seq<seq<T>>): seq<T> { if parts == [] then [] else parts[0] + Flatten(parts[1..]) }

  lemma {:induction false} FlattenConcat<T>(a: seq<seq<T>>, b: seq<seq<T>>)
    ensures Flatten(a + b) == Flatten(a) + Flatten(b)
  {
    if a == [] {
      assert a + b == b;
    } else {
      assert (a + b)[1..] == a[1..] + b;
      FlattenConcat(a[1..], b);
    }
  }

  /** Any run within one that fits also fits. */
  ghost predicate Monotone<T(!new)>(fits: seq<T> -> bool) {
    forall s, lo, hi {:trigger fits(s[lo..hi])} :: 0 <= lo <= hi <= |s| && fits(s) ==> fits(s[lo..hi])
  }

  /** A part may exceed the target only by being a single element. */
  predicate Allowed<T>(fits: seq<T> -> bool, part: seq<T>) { |part| <= 1 || fits(part) }

  predicate AllAllowed<T>(fits: seq<T> -> bool, parts: seq<seq<T>>) {
    forall k :: 0 <= k < |parts| ==> Allowed(fits, parts[k])
  }

  lemma {:induction false} LongestIsAllowed<T>(fits: seq<T> -> bool, s: seq<T>, n: nat)
    requires 0 < n <= |s| && Allowed(fits, s[..n])
    ensures Allowed(fits, s[..Longest(fits, s, n)])
    decreases |s| - n
  {
    if n < |s| && fits(s[..n + 1]) {
      LongestIsAllowed(fits, s, n + 1);
    }
  }

  /** `parts` cuts s into nonempty consecutive parts, of which only single elements may not fit. */
  predicate Partitions<T(==)>(fits: seq<T> -> bool, parts: seq<seq<T>>, s: seq<T>) {
    Flatten(parts) == s && AllAllowed(fits, parts) && forall k :: 0 <= k < |parts| ==> parts[k] != []
  }

  lemma OnePartMore<T>(fits: seq<T> -> bool, first: seq<T>, rest: seq<seq<T>>, s: seq<T>)
    requires Partitions(fits, rest, s) && Allowed(fits, first) && first != []
    ensures Partitions(fits, [first] + rest, first + s)
  {
    var parts := [first] + rest;
    assert parts[1..] == rest;
    forall k | 0 <= k < |parts| ensures Allowed(fits, parts[k]) && parts[k] != [] {
      if k > 0 { assert parts[k] == rest[k - 1]; }
    }
  }

  /** Packing loses, repeats and splits nothing, and only a single element may exceed the target. */
  lemma {:induction false} GreedyPartitions<T>(fits: seq<T> -> bool, s: seq<T>)
    ensures Partitions(fits, Greedy(fits, s), s)
    decreases |s|
  {
    if s == [] {
    } else {
      var n := Longest(fits, s, 1);
      LongestIsAllowed(fits, s, 1);
      GreedyPartitions(fits, s[n..]);
      OnePartMore(fits, s[..n], Greedy(fits, s[n..]), s[n..]);
      assert s == s[..n] + s[n..];
    }
  }

  /** The first part reaches at least as far as any run from the start that fits. */
  lemma {:induction false} LongestReaches<T(!new)>(fits: seq<T> -> bool, s: seq<T>, n: nat, m: nat)
    requires Monotone(fits) && 0 < n <= m <= |s| && fits(s[..m])
    ensures Longest(fits, s, n) >= m
    decreases m - n
  {
    if n == m {
    } else {
      assert s[..m][0..n + 1] == s[..n + 1];
      LongestReaches(fits, s, n + 1, m);
    }
  }

  /** No range that holds an element too big by itself can fit. */
  lemma MisfitHasNoCompany<T(!new)>(fits: seq<T> -> bool, s: seq<T>, i: nat)
    requires Monotone(fits) && i < |s| && !fits([s[i]])
    ensures i + 1 < |s| ==> !fits([s[i]] + [s[i + 1]])
  {
    if i + 1 < |s| {
      assert ([s[i]] + [s[i + 1]])[0..1] == [s[i]];
    }
  }

  lemma FirstPart<T>(fits: seq<T> -> bool, parts: seq<seq<T>>, s: seq<T>)
    requires Flatten(parts) == s && AllAllowed(fits, parts) && parts != []
    ensures |parts[0]| <= |s| && s[..|parts[0]|] == parts[0] && s[|parts[0]|..] == Flatten(parts[1..])
    ensures Allowed(fits, parts[0]) && AllAllowed(fits, parts[1..])
  {
    hide Allowed;
    assert s == parts[0] + Flatten(parts[1..]);
  }

  lemma NextPart<T>(fits: seq<T> -> bool, s: seq<T>)
    requires s != []
    ensures var n := Longest(fits, s, 1); Greedy(fits, s) == [s[..n]] + Greedy(fits, s[n..])
  {
  }

  lemma NoParts<T>(fits: seq<T> -> bool, s: seq<T>, parts: seq<seq<T>>, cut: nat)
    requires Flatten(parts) == s && cut <= |s|
    ensures cut == |s| ==> s[cut..] == [] && Greedy(fits, s[cut..]) == []
    ensures cut < |s| ==> parts != []
  {
  }

  /** Greedy's first part from a cut inside the first allowed part reaches the end of it. */
  lemma FirstPartIsReached<T(!new)>(fits: seq<T> -> bool, s: seq<T>, m: nat, cut: nat)
    requires Monotone(fits) && cut < m <= |s| && Allowed(fits, s[..m])
    ensures cut + Longest(fits, s[cut..], 1) >= m
  {
    if m > cut + 1 {
      assert s[..m][cut..m] == s[cut..][..m - cut];
      LongestReaches(fits, s[cut..], 1, m - cut);
    }
  }

  /** Starting further along never costs greedy a part: it stays ahead of any allowed partition. */
  lemma {:induction false} GreedyStaysAhead<T(!new)>(fits: seq<T> -> bool, s: seq<T>, parts: seq<seq<T>>, cut: nat)
    requires Monotone(fits) && Flatten(parts) == s && AllAllowed(fits, parts) && cut <= |s|
    ensures |Greedy(fits, s[cut..])| <= |parts|
    decreases |parts|
  {
    hide Greedy, Flatten, AllAllowed, Allowed, Monotone, Longest;
    NoParts(fits, s, parts, cut);
    if cut == |s| {
    } else {
      var m := |parts[0]|;
      FirstPart(fits, parts, s);
      if m <= cut {
        GreedyStaysAhead(fits, s[m..], parts[1..], cut - m);
        assert s[m..][cut - m..] == s[cut..];
      } else {
        var left := s[cut..];
        var n := Longest(fits, left, 1);
        FirstPartIsReached(fits, s, m, cut);
        GreedyStaysAhead(fits, s[m..], parts[1..], cut + n - m);
        assert s[m..][cut + n - m..] == left[n..];
        NextPart(fits, left);
      }
    }
  }

  /** No cut into consecutive parts, each of which fits or is a single element, has fewer parts. */
  lemma GreedyIsOptimal<T(!new)>(fits: seq<T> -> bool, s: seq<T>, parts: seq<seq<T>>)
    requires Monotone(fits) && Flatten(parts) == s && AllAllowed(fits, parts)
    ensures |Greedy(fits, s)| <= |parts|
  {
    GreedyStaysAhead(fits, s, parts, 0);
    assert s[0..] == s;
  }

  // ---------------------------------------------------------------- packing one element at a time

  /** The cut agrees with the greedy one up to `left`, and elements left..i are the part in hand. */
  ghost predicate InHand<T>(fits: seq<T> -> bool, s: seq<T>, parts: seq<seq<T>>, left: nat, i: nat) {
    && left <= i <= |s|
    && Greedy(fits, s) == parts + Greedy(fits, s[left..])
    && (left < i ==> Longest(fits, s[left..], 1) == Longest(fits, s[left..], i - left))
  }

  lemma Taken<T>(fits: seq<T> -> bool, s: seq<T>, parts: seq<seq<T>>, left: nat, i: nat)
    requires InHand(fits, s, parts, left, i) && i < |s| && (left == i || fits(s[left..i + 1]))
    ensures InHand(fits, s, parts, left, i + 1)
  {
    assert s[left..][..i + 1 - left] == s[left..i + 1];
  }

  lemma Closed<T>(fits: seq<T> -> bool, s: seq<T>, parts: seq<seq<T>>, left: nat, i: nat)
    requires InHand(fits, s, parts, left, i) && left < i
    requires Longest(fits, s[left..], i - left) == i - left
    ensures InHand(fits, s, parts + [s[left..i]], i, i)
  {
    var rest := s[left..];
    assert rest[..i - left] == s[left..i] && rest[i - left..] == s[i..];
    assert Greedy(fits, rest) == [s[left..i]] + Greedy(fits, s[i..]);
  }

  lemma ClosedBeforeAMisfit<T>(fits: seq<T> -> bool, s: seq<T>, parts: seq<seq<T>>, left: nat, i: nat)
    requires InHand(fits, s, parts, left, i) && left < i && (i < |s| ==> !fits(s[left..i + 1]))
    ensures InHand(fits, s, parts + [s[left..i]], i, i)
  {
    if i < |s| {
      assert s[left..][..i + 1 - left] == s[left..i + 1];
    }
    Closed(fits, s, parts, left, i);
  }

  /** Part k, closed as the k-th of its kind. */
  function ClosedParts<T, C>(close: (nat, seq<T>) -> C, parts: seq<seq<T>>): (r: seq<C>)
    ensures |r| == |parts| && forall k :: 0 <= k < |parts| ==> r[k] == close(k, parts[k])
  {
    seq(|parts|, k requires 0 <= k < |parts| => close(k, parts[k]))
  }

  /** The packer's state after i elements: the parts closed so far, and those from `left` on in hand. */
  ghost predicate Packed<T, C>(s: seq<T>, fits: seq<T> -> bool, close: (nat, seq<T>) -> C, i: nat,
                               out: seq<C>, cur: seq<T>, parts: seq<seq<T>>, left: nat) {
    InHand(fits, s, parts, left, i) && cur == s[left..i] && out == ClosedParts(close, parts)
  }

  /** Closes the part in hand. */
  method Flush<T(!new), C>(ghost s: seq<T>, ghost fits: seq<T> -> bool, close: (nat, seq<T>) -> C, ghost i: nat,
                     out: seq<C>, cur: seq<T>, ghost parts: seq<seq<T>>, ghost left: nat)
    returns (r: seq<C>)
    requires Packed(s, fits, close, i, out, cur, parts, left)
    requires cur != [] && (i < |s| ==> !fits(cur + [s[i]]))
    ensures Packed(s, fits, close, i, r, [], parts + [cur], i)
  {
    r := out + [close(|out|, cur)];
    if i < |s| {
      assert s[left..i + 1] == cur + [s[i]];
    }
    ClosedBeforeAMisfit(fits, s, parts, left, i);
  }

  lemma Joined<T, C>(s: seq<T>, fits: seq<T> -> bool, close: (nat, seq<T>) -> C, i: nat,
                     out: seq<C>, cur: seq<T>, parts: seq<seq<T>>, left: nat)
    requires Packed(s, fits, close, i, out, cur, parts, left) && i < |s|
    requires cur == [] || fits(cur + [s[i]])
    ensures Packed(s, fits, close, i + 1, out, cur + [s[i]], parts, left)
  {
    assert s[left..i + 1] == cur + [s[i]];
    Taken(fits, s, parts, left, i);
  }

  lemma AllPacked<T, C>(s: seq<T>, fits: seq<T> -> bool, close: (nat, seq<T>) -> C,
                        out: seq<C>, parts: seq<seq<T>>, left: nat)
    requires Packed(s, fits, close, |s|, out, [], parts, left)
    ensures out == ClosedParts(close, Greedy(fits, s))
  {
    assert s[left..] == [];
  }

  /** The packing loop: an element joins the part in hand if they fit together, or else starts another. */
  method Pack<T(!new), C>(s: seq<T>, fits: seq<T> -> bool, close: (nat, seq<T>) -> C) returns (out: seq<C>)
    requires Monotone(fits)
    ensures out == ClosedParts(close, Greedy(fits, s))
  {
    out := [];
    var cur: seq<T> := [];
    ghost var parts: seq<seq<T>>, left: nat := [], 0;
    for i := 0 to |s|
      invariant Packed(s, fits, close, i, out, cur, parts, left)
    {
      if cur != [] && !fits(cur + [s[i]]) {
        out := Flush(s, fits, close, i, out, cur, parts, left);
        parts, left, cur := parts + [cur], i, [];
      }
      Joined(s, fits, close, i, out, cur, parts, left);
      if cur != [] {
        cur := cur + [s[i]];
      } else {
        cur := [s[i]];
        if !fits(cur) {
          MisfitHasNoCompany(fits, s, i);
          out := Flush(s, fits, close, i + 1, out, cur, parts, left);
          parts, left, cur := parts + [cur], i + 1, [];
        }
      }
    }
    if cur != [] {
      out := Flush(s, fits, close, |s|, out, cur, parts, left);
      parts, left := parts + [cur], |s|;
    }
    AllPacked(s, fits, close, out, parts, left);
  }
}
