/**
  Splitting a document into sections under heading paths. The markdown library's block sequence is
  taken as given (internal/ingest/parse.go).
*/
module Parse {
  import opened Prelude
  import opened TokenEstimate

  /** The least text that stays whole. List items are `tight`: no blank line comes between two of them. */
  datatype Unit = Unit(text: Text, tight: bool)

  datatype Section = Section(level: nat, title: Text, path: seq<Text>, units: seq<Unit>)

  datatype Block = Heading(level: nat, title: Text) | Content(units: seq<Unit>)

  const NEWLINE: Rune := 10
  const BLANK_LINE: Text := [NEWLINE, NEWLINE]

  // ---------------------------------------------------------------- joining units

  function Separator(a: Unit, b: Unit): Text { if a.tight && b.tight then [NEWLINE] else BLANK_LINE }

  function JoinUnits(us: seq<Unit>): Text {
    if us == [] then []
    else if |us| == 1 then us[0].text
    else
      var n := |us| - 1;
      JoinUnits(us[..n]) + Separator(us[n - 1], us[n]) + us[n].text
  }

  predicate Stands(text: Text, part: Text, lo: nat) { lo + |part| <= |text| && text[lo..lo + |part|] == part }

  predicate Fills(text: Text, gap: Text, lo: nat, hi: nat) { lo <= hi <= |text| && text[lo..hi] == gap }

  /** The texts stand at the places `at`, from one end to the other, with the gaps between them. */
  ghost predicate StrungAt(text: Text, texts: seq<Text>, gaps: seq<Text>, at: seq<nat>) {
    && |at| == |texts| && |gaps| + 1 == |texts|
    && at[0] == 0 && at[|texts| - 1] + |texts[|texts| - 1]| == |text|
    && (forall k :: 0 <= k < |texts| ==> Stands(text, texts[k], at[k]))
    && forall k :: 0 <= k < |gaps| ==> Fills(text, gaps[k], at[k] + |texts[k]|, at[k + 1])
  }

  ghost predicate Strung(text: Text, texts: seq<Text>, gaps: seq<Text>) {
    if texts == [] then text == [] else exists at: seq<nat> :: StrungAt(text, texts, gaps, at)
  }

  lemma StrungOne(text: Text)
    ensures Strung(text, [text], [])
  {
    assert StrungAt(text, [text], [], [0]);
  }

  lemma StandsStill(text: Text, more: Text, part: Text, lo: nat)
    requires Stands(text, part, lo)
    ensures Stands(text + more, part, lo)
  {
  }

  lemma FillsStill(text: Text, more: Text, gap: Text, lo: nat, hi: nat)
    requires Fills(text, gap, lo, hi)
    ensures Fills(text + more, gap, lo, hi)
  {
  }

  lemma AtTheEnd(text: Text, gap: Text, next: Text)
    ensures text + gap + next == text + (gap + next)
    ensures Fills(text + gap + next, gap, |text|, |text| + |gap|) && Stands(text + gap + next, next, |text| + |gap|)
  {
  }

  lemma StrungOneMore(text: Text, texts: seq<Text>, gaps: seq<Text>, gap: Text, next: Text)
    requires texts != [] && Strung(text, texts, gaps)
    ensures Strung(text + gap + next, texts + [next], gaps + [gap])
  {
    var at: seq<nat> :| StrungAt(text, texts, gaps, at);
    StrungFarther(text, texts, gaps, at, gap, next);
  }

  lemma StrungFarther(text: Text, texts: seq<Text>, gaps: seq<Text>, at: seq<nat>, gap: Text, next: Text)
    requires texts != [] && StrungAt(text, texts, gaps, at)
    ensures StrungAt(text + gap + next, texts + [next], gaps + [gap], at + [|text| + |gap|])
  {
    hide Stands, Fills;
    var longer, at' := text + gap + next, at + [|text| + |gap|];
    AtTheEnd(text, gap, next);
    forall k | 0 <= k <= |texts| ensures Stands(longer, (texts + [next])[k], at'[k]) {
      if k < |texts| {
        StandsStill(text, gap + next, texts[k], at[k]);
      }
    }
    forall k | 0 <= k <= |gaps| ensures Fills(longer, (gaps + [gap])[k], at'[k] + |(texts + [next])[k]|, at'[k + 1]) {
      if k < |gaps| {
        FillsStill(text, gap + next, gaps[k], at[k] + |texts[k]|, at[k + 1]);
      }
    }
  }

  function Texts(us: seq<Unit>): (r: seq<Text>)
    ensures |r| == |us| && forall k :: 0 <= k < |us| ==> r[k] == us[k].text
  {
    seq(|us|, k requires 0 <= k < |us| => us[k].text)
  }

  /** Between two list items a newline, between any other two units a blank line. */
  function Gaps(us: seq<Unit>): (r: seq<Text>)
    ensures |r| == Max(|us| - 1, 0)
    ensures forall k :: 0 <= k < |us| - 1 ==> r[k] == if us[k].tight && us[k + 1].tight then [10] else [10, 10]
  {
    seq(Max(|us| - 1, 0), k requires 0 <= k < |us| - 1 => if us[k].tight && us[k + 1].tight then [10] else [10, 10])
  }

  /** The text is the units' texts, all of them in order, with those gaps between and nothing else. */
  ghost predicate Spells(text: Text, us: seq<Unit>) { Strung(text, Texts(us), Gaps(us)) }

  lemma {:induction false} JoiningSpells(us: seq<Unit>)
    ensures Spells(JoinUnits(us), us)
  {
    hide Strung, Texts, Gaps, Separator;
    if us == [] {
      FewUnits(us);
    } else if |us| == 1 {
      FewUnits(us);
      StrungOne(us[0].text);
    } else {
      var n := |us| - 1;
      JoiningSpells(us[..n]);
      JoinedUnits(us);
      StrungOneMore(JoinUnits(us[..n]), Texts(us[..n]), Gaps(us[..n]), Separator(us[n - 1], us[n]), us[n].text);
    }
  }

  lemma FewUnits(us: seq<Unit>)
    requires |us| <= 1
    ensures Strung([], [], [])
    ensures Texts(us) == (if us == [] then [] else [us[0].text]) && Gaps(us) == []
  {
  }

  lemma JoinedUnits(us: seq<Unit>)
    requires |us| > 1
    ensures var n := |us| - 1;
            && Texts(us) == Texts(us[..n]) + [us[n].text] && Texts(us[..n]) != []
            && Gaps(us) == Gaps(us[..n]) + [Separator(us[n - 1], us[n])]
  {
  }

  method Join(us: seq<Unit>) returns (text: Text)
    ensures text == JoinUnits(us) && Spells(text, us)
  {
    text := [];
    for i := 0 to |us|
      invariant text == JoinUnits(us[..i])
    {
      assert us[..i + 1][..i] == us[..i];
      if i > 0 {
        if us[i].tight && us[i - 1].tight {
          text := text + [NEWLINE];
        } else {
          text := text + BLANK_LINE;
        }
      }
      text := text + us[i].text;
    }
    assert us[..|us|] == us;
    JoiningSpells(us);
  }

  // ---------------------------------------------------------------- the stack of open headings

  predicate AreHeadings(blocks: seq<Block>, open: seq<nat>) {
    forall x :: 0 <= x < |open| ==> open[x] < |blocks| && blocks[open[x]].Heading?
  }

  /** The open headings left when one of this `level` closes, from the innermost, those as deep as itself. */
  function Popped(blocks: seq<Block>, open: seq<nat>, level: nat): (r: seq<nat>)
    requires AreHeadings(blocks, open)
    ensures r <= open
  {
    if open != [] && blocks[open[|open| - 1]].level >= level then Popped(blocks, open[..|open| - 1], level)
    else open
  }

  /** The positions on the stack once the first i blocks have been read. */
  function OpenAt(blocks: seq<Block>, i: nat): (open: seq<nat>)
    requires i <= |blocks|
    ensures AreHeadings(blocks, open)
  {
    if i == 0 then []
    else
      var open := OpenAt(blocks, i - 1);
      if blocks[i - 1].Content? then open
      else Popped(blocks, open, blocks[i - 1].level) + [i - 1]
  }

  /** Block j is a heading before i that no heading between them closes. */
  ghost predicate StillOpen(blocks: seq<Block>, j: nat, i: nat)
    requires i <= |blocks|
  {
    && j < i && blocks[j].Heading?
    && forall k :: j < k < i && blocks[k].Heading? ==> blocks[j].level < blocks[k].level
  }

  ghost predicate Nested(blocks: seq<Block>, open: seq<nat>) {
    && AreHeadings(blocks, open)
    && forall x, y :: 0 <= x < y < |open| ==> open[x] < open[y] && blocks[open[x]].level < blocks[open[y]].level
  }

  lemma NestedPrefix(blocks: seq<Block>, open: seq<nat>, n: nat)
    requires Nested(blocks, open) && n <= |open|
    ensures AreHeadings(blocks, open) && Nested(blocks, open[..n])
  {
  }

  lemma TheTopIsTheDeepest(blocks: seq<Block>, open: seq<nat>, level: nat)
    requires Nested(blocks, open) && (open != [] ==> blocks[open[|open| - 1]].level < level)
    ensures forall x :: 0 <= x < |open| ==> blocks[open[x]].level < level
  {
  }

  lemma {:induction false} PoppedKeepsTheShallower(blocks: seq<Block>, open: seq<nat>, level: nat)
    requires Nested(blocks, open)
    ensures var r := Popped(blocks, open, level);
            && Nested(blocks, r)
            && (forall x :: 0 <= x < |r| ==> blocks[r[x]].level < level)
            && forall x :: |r| <= x < |open| ==> blocks[open[x]].level >= level
  {
    var n := |open| - 1;
    if open != [] && blocks[open[n]].level >= level {
      NestedPrefix(blocks, open, n);
      PoppedKeepsTheShallower(blocks, open[..n], level);
      hide Nested;
      forall x | |Popped(blocks, open, level)| <= x < |open| ensures blocks[open[x]].level >= level {
        assert x < n ==> open[..n][x] == open[x];
      }
    } else {
      TheTopIsTheDeepest(blocks, open, level);
    }
  }

  lemma StillOpenAfterOneMore(blocks: seq<Block>, j: nat, i: nat)
    requires 0 < i <= |blocks|
    ensures StillOpen(blocks, j, i) <==>
            if blocks[i - 1].Content? then StillOpen(blocks, j, i - 1)
            else j == i - 1 || (StillOpen(blocks, j, i - 1) && blocks[j].level < blocks[i - 1].level)
  {
    if j < i - 1 && StillOpen(blocks, j, i - 1) && (blocks[i - 1].Content? || blocks[j].level < blocks[i - 1].level) {
      forall k | j < k < i && blocks[k].Heading? ensures blocks[j].level < blocks[k].level {
        if k == i - 1 {
        } else {
          assert j < k < i - 1;
        }
      }
    }
  }

  /** `open` is exactly the headings among the first i blocks that are still open, nested. */
  ghost predicate HoldsTheOpen(blocks: seq<Block>, open: seq<nat>, i: nat)
    requires i <= |blocks|
  {
    && Nested(blocks, open)
    && (forall x :: 0 <= x < |open| ==> StillOpen(blocks, open[x], i))
    && forall j: nat :: StillOpen(blocks, j, i) ==> j in open
  }

  lemma AfterContent(blocks: seq<Block>, open: seq<nat>, i: nat)
    requires 0 < i <= |blocks| && blocks[i - 1].Content? && HoldsTheOpen(blocks, open, i - 1)
    ensures HoldsTheOpen(blocks, open, i)
  {
    forall j: nat ensures StillOpen(blocks, j, i) <==> StillOpen(blocks, j, i - 1) {
      StillOpenAfterOneMore(blocks, j, i);
    }
  }

  lemma NestedOneDeeper(blocks: seq<Block>, r: seq<nat>, i: nat)
    requires Nested(blocks, r) && 0 < i <= |blocks| && blocks[i - 1].Heading?
    requires forall x :: 0 <= x < |r| ==> r[x] < i - 1 && blocks[r[x]].level < blocks[i - 1].level
    ensures Nested(blocks, r + [i - 1])
  {
  }

  /** What is left of the stack, and the new heading, are still open. */
  lemma LeftAreStillOpen(blocks: seq<Block>, open: seq<nat>, r: seq<nat>, i: nat, x: nat)
    requires 0 < i <= |blocks| && blocks[i - 1].Heading? && r <= open && x <= |r|
    requires forall y :: 0 <= y < |open| ==> StillOpen(blocks, open[y], i - 1)
    requires forall y :: 0 <= y < |r| ==> r[y] < |blocks| && blocks[r[y]].Heading? && blocks[r[y]].level < blocks[i - 1].level
    ensures StillOpen(blocks, (r + [i - 1])[x], i)
  {
    hide StillOpen;
    var j := (r + [i - 1])[x];
    if x < |r| {
      assert r[x] == open[x];
    }
    StillOpenAfterOneMore(blocks, j, i);
  }

  /** What is still open is left, or is the new heading. */
  lemma StillOpenAreLeft(blocks: seq<Block>, open: seq<nat>, r: seq<nat>, i: nat, j: nat)
    requires 0 < i <= |blocks| && blocks[i - 1].Heading? && r <= open && AreHeadings(blocks, open)
    requires forall k: nat :: StillOpen(blocks, k, i - 1) ==> k in open
    requires forall y :: |r| <= y < |open| ==> blocks[open[y]].level >= blocks[i - 1].level
    requires StillOpen(blocks, j, i)
    ensures j in r + [i - 1]
  {
    StillOpenAfterOneMore(blocks, j, i);
    if j != i - 1 {
      assert j in open;
      hide StillOpen, AreHeadings;
      var x :| 0 <= x < |open| && open[x] == j;
      assert x < |r| && (r + [i - 1])[x] == j;
    }
  }

  lemma AfterHeading(blocks: seq<Block>, open: seq<nat>, i: nat)
    requires 0 < i <= |blocks| && blocks[i - 1].Heading? && HoldsTheOpen(blocks, open, i - 1)
    ensures HoldsTheOpen(blocks, Popped(blocks, open, blocks[i - 1].level) + [i - 1], i)
  {
    hide Popped, Nested, StillOpen;
    NestedPrefix(blocks, open, |open|);
    var level := blocks[i - 1].level;
    var r := Popped(blocks, open, level);
    var after := r + [i - 1];
    NestedPrefix(blocks, open, |r|);
    PoppedKeepsTheShallower(blocks, open, level);
    forall x | 0 <= x < |r| ensures r[x] < i - 1 {
      assert r[x] == open[x];
      OpenIsEarlier(blocks, open[x], i - 1);
    }
    NestedOneDeeper(blocks, r, i);
    forall x | 0 <= x < |after| ensures StillOpen(blocks, after[x], i) {
      LeftAreStillOpen(blocks, open, r, i, x);
    }
    forall j: nat | StillOpen(blocks, j, i) ensures j in after {
      StillOpenAreLeft(blocks, open, r, i, j);
    }
  }

  lemma OpenIsEarlier(blocks: seq<Block>, j: nat, i: nat)
    requires i <= |blocks| && StillOpen(blocks, j, i)
    ensures j < i
  {
  }

  /**
    The stack holds exactly the headings that no later heading at their level or above has closed,
    in document order and at strictly increasing levels.
  */
  lemma {:induction false} StackHoldsTheOpenHeadings(blocks: seq<Block>, i: nat)
    requires i <= |blocks|
    ensures HoldsTheOpen(blocks, OpenAt(blocks, i), i)
  {
    if i == 0 {
    } else {
      StackHoldsTheOpenHeadings(blocks, i - 1);
      if blocks[i - 1].Content? {
        AfterContent(blocks, OpenAt(blocks, i - 1), i);
      } else {
        AfterHeading(blocks, OpenAt(blocks, i - 1), i);
      }
    }
  }

  // ---------------------------------------------------------------- sections

  /** The titles of the open headings, outermost first; one without a title is passed over. */
  function PathOf(blocks: seq<Block>, open: seq<nat>): (path: seq<Text>)
    requires AreHeadings(blocks, open)
    ensures forall x :: 0 <= x < |path| ==> path[x] != []
  {
    if open == [] then []
    else
      var n := |open| - 1;
      PathOf(blocks, open[..n]) + (if blocks[open[n]].title == [] then [] else [blocks[open[n]].title])
  }

  const PREAMBLE := Section(0, [], [], [])

  function SectionOf(blocks: seq<Block>, i: nat): Section
    requires i < |blocks| && blocks[i].Heading?
  {
    Section(blocks[i].level, blocks[i].title, PathOf(blocks, OpenAt(blocks, i + 1)), [])
  }

  /** The sections once the first i blocks have been read; the last is still being filled. */
  function SectionsAt(blocks: seq<Block>, i: nat): (r: seq<Section>)
    requires i <= |blocks|
    ensures r != []
  {
    if i == 0 then [PREAMBLE]
    else
      var before := SectionsAt(blocks, i - 1);
      var n := |before| - 1;
      if blocks[i - 1].Content? then before[n := before[n].(units := before[n].units + blocks[i - 1].units)]
      else before + [SectionOf(blocks, i - 1)]
  }

  datatype HeadingRef = HeadingRef(level: nat, title: Text)

  /** The references on the stack name the headings at `open`. */
  ghost predicate Names(blocks: seq<Block>, open: seq<nat>, stack: seq<HeadingRef>) {
    && AreHeadings(blocks, open) && |stack| == |open|
    && forall x :: 0 <= x < |stack| ==> stack[x] == HeadingRef(blocks[open[x]].level, blocks[open[x]].title)
  }

  method Pop(stack: seq<HeadingRef>, level: nat, ghost blocks: seq<Block>, ghost open: seq<nat>)
    returns (left: seq<HeadingRef>)
    requires Names(blocks, open, stack)
    ensures Names(blocks, Popped(blocks, open, level), left)
  {
    left := stack;
    ghost var rest := open;
    while left != [] && left[|left| - 1].level >= level
      invariant Names(blocks, rest, left)
      invariant Popped(blocks, rest, level) == Popped(blocks, open, level)
    {
      left := left[..|left| - 1];
      rest := rest[..|rest| - 1];
    }
  }

  method PathTitles(stack: seq<HeadingRef>, ghost blocks: seq<Block>, ghost open: seq<nat>) returns (path: seq<Text>)
    requires Names(blocks, open, stack)
    ensures path == PathOf(blocks, open)
  {
    path := [];
    for x := 0 to |stack|
      invariant AreHeadings(blocks, open[..x]) && path == PathOf(blocks, open[..x])
    {
      assert open[..x + 1][..x] == open[..x];
      if stack[x].title != [] {
        path := path + [stack[x].title];
      }
    }
    assert open[..|stack|] == open;
  }

  method ParseMarkdown(blocks: seq<Block>) returns (sections: seq<Section>)
    ensures sections == SectionsAt(blocks, |blocks|)
  {
    var cur := PREAMBLE;
    sections := [];
    var stack: seq<HeadingRef> := [];
    for i := 0 to |blocks|
      invariant Names(blocks, OpenAt(blocks, i), stack)
      invariant sections + [cur] == SectionsAt(blocks, i)
    {
      match blocks[i]
      case Content(units) =>
        ghost var done := sections + [cur];
        cur := cur.(units := cur.units + units);
        assert sections + [cur] == done[|done| - 1 := cur];
      case Heading(level, title) =>
        sections := sections + [cur];
        stack := Pop(stack, level, blocks, OpenAt(blocks, i));
        stack := stack + [HeadingRef(level, title)];
        var path := PathTitles(stack, blocks, OpenAt(blocks, i + 1));
        cur := Section(level, title, path, []);
    }
    sections := sections + [cur];
  }

  function AllUnits(sections: seq<Section>): seq<Unit> {
    if sections == [] then [] else AllUnits(sections[..|sections| - 1]) + sections[|sections| - 1].units
  }

  function ContentUnits(blocks: seq<Block>): seq<Unit> {
    if blocks == [] then []
    else
      var n := |blocks| - 1;
      ContentUnits(blocks[..n]) + (if blocks[n].Content? then blocks[n].units else [])
  }

  lemma AllUnitsOfOneMore(sections: seq<Section>, s: Section)
    ensures AllUnits(sections + [s]) == AllUnits(sections) + s.units
  {
    assert (sections + [s])[..|sections|] == sections;
  }

  /** A content block fills the last section; a heading opens an empty one. */
  lemma OneBlockMore(blocks: seq<Block>, i: nat)
    requires i < |blocks|
    ensures AllUnits(SectionsAt(blocks, i + 1)) ==
            AllUnits(SectionsAt(blocks, i)) + (if blocks[i].Content? then blocks[i].units else [])
  {
    hide AllUnits, PathOf, OpenAt;
    var before := SectionsAt(blocks, i);
    if blocks[i].Content? {
      var front, last := before[..|before| - 1], before[|before| - 1];
      var filled := last.(units := last.units + blocks[i].units);
      assert before == front + [last] && before[|before| - 1 := filled] == front + [filled];
      AllUnitsOfOneMore(front, last);
      AllUnitsOfOneMore(front, filled);
    } else {
      assert AllUnits(before) + [] == AllUnits(before);
      AllUnitsOfOneMore(before, SectionOf(blocks, i));
    }
  }

  /** Every unit of every block lands in exactly one section, in document order. */
  lemma {:induction false} UnitsLandInOneSection(blocks: seq<Block>, i: nat)
    requires i <= |blocks|
    ensures AllUnits(SectionsAt(blocks, i)) == ContentUnits(blocks[..i])
  {
    if i == 0 {
      assert SectionsAt(blocks, 0) == [] + [PREAMBLE];
      AllUnitsOfOneMore([], PREAMBLE);
    } else {
      hide SectionsAt, AllUnits;
      UnitsLandInOneSection(blocks, i - 1);
      assert blocks[..i][..i - 1] == blocks[..i - 1];
      OneBlockMore(blocks, i - 1);
    }
  }

  /** The section's own heading closes its path. */
  ghost predicate NamesItself(s: Section) {
    s.path != [] && s.path[|s.path| - 1] == s.title
  }

  lemma PathEndsWithATitle(blocks: seq<Block>, open: seq<nat>, i: nat)
    requires AreHeadings(blocks, open) && i < |blocks| && blocks[i].Heading?
    ensures var path := PathOf(blocks, open + [i]);
            (path != [] && path[|path| - 1] == blocks[i].title) <==> blocks[i].title != []
  {
    assert (open + [i])[..|open|] == open;
  }

  lemma NewSectionNames(blocks: seq<Block>, i: nat)
    requires i < |blocks| && blocks[i].Heading?
    ensures NamesItself(SectionOf(blocks, i)) <==> SectionOf(blocks, i).title != []
  {
    var open := Popped(blocks, OpenAt(blocks, i), blocks[i].level);
    PathEndsWithATitle(blocks, open, i);
    assert OpenAt(blocks, i + 1) == open + [i];
  }

  /** A section is the preamble or was opened by a heading; filling it changes only its units. */
  lemma {:induction false} SectionsOpenAtHeadings(blocks: seq<Block>, i: nat, k: nat) returns (h: nat)
    requires i <= |blocks| && k < |SectionsAt(blocks, i)|
    ensures var s := SectionsAt(blocks, i)[k];
            || (k == 0 && s == PREAMBLE.(units := s.units))
            || (h < i && blocks[h].Heading? && s == SectionOf(blocks, h).(units := s.units))
  {
    hide PathOf, OpenAt;
    h := 0;
    if i == 0 {
    } else {
      if k < |SectionsAt(blocks, i - 1)| {
        h := SectionsOpenAtHeadings(blocks, i - 1, k);
      } else {
        h := i - 1;
      }
    }
  }

  /**
    Exactly the titled sections end their path with their own name; the path of an untitled one is
    its ancestors' alone.
  */
  lemma OnlyTitledSectionsNameThemselves(blocks: seq<Block>, i: nat, k: nat)
    requires i <= |blocks| && k < |SectionsAt(blocks, i)|
    ensures NamesItself(SectionsAt(blocks, i)[k]) <==> SectionsAt(blocks, i)[k].title != []
  {
    var h := SectionsOpenAtHeadings(blocks, i, k);
    if h < |blocks| && blocks[h].Heading? {
      NewSectionNames(blocks, h);
    }
  }

  // ---------------------------------------------------------------- which blocks a section is made of

  /** The titles of the headings open at block h, outermost first, the untitled ones left out. */
  ghost predicate IsPathAt(blocks: seq<Block>, h: nat, path: seq<Text>)
    requires h < |blocks|
  {
    exists open: seq<nat> :: TitlesOf(blocks, h, open, path)
  }

  ghost predicate TitlesOf(blocks: seq<Block>, h: nat, open: seq<nat>, path: seq<Text>)
    requires h < |blocks|
  {
    && |path| == |open|
    && (forall x :: 0 <= x < |open| ==>
          StillOpen(blocks, open[x], h + 1) && path[x] == blocks[open[x]].title && path[x] != [])
    && (forall x, y :: 0 <= x < y < |open| ==> open[x] < open[y])
    && forall j: nat :: StillOpen(blocks, j, h + 1) && blocks[j].title != [] ==> j in open
  }

  function Titled(blocks: seq<Block>, open: seq<nat>): seq<nat>
    requires AreHeadings(blocks, open)
  {
    if open == [] then []
    else
      var n := |open| - 1;
      Titled(blocks, open[..n]) + (if blocks[open[n]].title == [] then [] else [open[n]])
  }

  /** The path is the titles of the blocks `t`, which are the titled ones of `open` in order. */
  ghost predicate NamesTheTitled(blocks: seq<Block>, open: seq<nat>, t: seq<nat>, path: seq<Text>)
    requires AreHeadings(blocks, open)
  {
    && |t| == |path|
    && (forall x :: 0 <= x < |t| ==> t[x] in open && path[x] == blocks[t[x]].title && path[x] != [])
    && (forall x, y :: 0 <= x < y < |t| ==> t[x] < t[y])
    && forall j :: j in open && blocks[j].title != [] ==> j in t
  }

  lemma OneHeadingDeeper(blocks: seq<Block>, open: seq<nat>, i: nat, t: seq<nat>, path: seq<Text>)
    requires AreHeadings(blocks, open) && i < |blocks| && blocks[i].Heading? && NamesTheTitled(blocks, open, t, path)
    requires forall x :: x in open ==> x < i
    ensures AreHeadings(blocks, open + [i])
    ensures if blocks[i].title == [] then NamesTheTitled(blocks, open + [i], t, path)
            else NamesTheTitled(blocks, open + [i], t + [i], path + [blocks[i].title])
  {
  }

  lemma OneMoreOpen(blocks: seq<Block>, open: seq<nat>)
    requires Nested(blocks, open) && open != []
    ensures var n := |open| - 1;
            && Nested(blocks, open[..n]) && (forall x :: x in open[..n] ==> x < open[n]) && open == open[..n] + [open[n]]
            && open[n] < |blocks| && blocks[open[n]].Heading?
  {
    NestedPrefix(blocks, open, |open| - 1);
  }

  lemma {:induction false} PathIsOfTheTitled(blocks: seq<Block>, open: seq<nat>)
    requires Nested(blocks, open)
    ensures NamesTheTitled(blocks, open, Titled(blocks, open), PathOf(blocks, open))
  {
    if open == [] {
    } else {
      var n := |open| - 1;
      OneMoreOpen(blocks, open);
      PathIsOfTheTitled(blocks, open[..n]);
      hide NamesTheTitled;
      OneHeadingDeeper(blocks, open[..n], open[n], Titled(blocks, open[..n]), PathOf(blocks, open[..n]));
    }
  }

  lemma PathIsTheOpenTitles(blocks: seq<Block>, h: nat)
    requires h < |blocks|
    ensures IsPathAt(blocks, h, PathOf(blocks, OpenAt(blocks, h + 1)))
  {
    hide PathOf, OpenAt, Titled, StillOpen;
    var open := OpenAt(blocks, h + 1);
    StackHoldsTheOpenHeadings(blocks, h + 1);
    PathIsOfTheTitled(blocks, open);
    assert TitlesOf(blocks, h, Titled(blocks, open), PathOf(blocks, open));
  }

  function HeadingsIn(blocks: seq<Block>): nat {
    if blocks == [] then 0
    else HeadingsIn(blocks[..|blocks| - 1]) + (if blocks[|blocks| - 1].Heading? then 1 else 0)
  }

  /** Section k is the k-th heading's, or the preamble, and holds all and only what follows up to the next. */
  ghost predicate IsSection(blocks: seq<Block>, i: nat, k: nat, s: Section, h: int, e: nat)
    requires i <= |blocks|
  {
    && -1 <= h < e <= i && HeadingsIn(blocks[..h + 1]) == k
    && (if k == 0 then h == -1 && s.level == 0 && s.title == [] && s.path == []
        else h >= 0 && blocks[h].Heading? && s.level == blocks[h].level && s.title == blocks[h].title
             && IsPathAt(blocks, h, s.path))
    && s.units == ContentUnits(blocks[h + 1..e])
    && (forall j :: h < j < e ==> blocks[j].Content?)
    && (e < i ==> blocks[e].Heading?)
  }

  lemma OneMoreCounted(blocks: seq<Block>, i: nat, h: int)
    requires h < i < |blocks| && -1 <= h
    ensures HeadingsIn(blocks[..i + 1]) == HeadingsIn(blocks[..i]) + (if blocks[i].Heading? then 1 else 0)
    ensures ContentUnits(blocks[h + 1..i + 1]) ==
            ContentUnits(blocks[h + 1..i]) + (if blocks[i].Content? then blocks[i].units else [])
  {
    assert blocks[..i + 1][..i] == blocks[..i];
    assert blocks[h + 1..i + 1][..i - h - 1] == blocks[h + 1..i];
  }

  lemma NoBlocks(blocks: seq<Block>)
    ensures HeadingsIn(blocks[..0]) == 0 && ContentUnits(blocks[0..0]) == [] && SectionsAt(blocks, 0) == [PREAMBLE]
  {
    assert blocks[..0] == [] && blocks[0..0] == [];
  }

  lemma NextSections(blocks: seq<Block>, i: nat)
    requires i < |blocks|
    ensures var before, after := SectionsAt(blocks, i), SectionsAt(blocks, i + 1);
            var n := |before| - 1;
            if blocks[i].Content? then after == before[n := before[n].(units := before[n].units + blocks[i].units)]
            else after == before + [SectionOf(blocks, i)]
  {
  }

  /** Every section is its heading's, holds what follows it up to the next, and stands where the heading does. */
  lemma {:induction false} EverySectionIsItsBlocks(blocks: seq<Block>, i: nat, k: nat) returns (h: int, e: nat)
    requires i <= |blocks| && k < |SectionsAt(blocks, i)|
    ensures |SectionsAt(blocks, i)| == HeadingsIn(blocks[..i]) + 1
    ensures -1 <= h < e <= i && IsSection(blocks, i, k, SectionsAt(blocks, i)[k], h, e)
    ensures e == i <==> k == |SectionsAt(blocks, i)| - 1
  {
    hide SectionsAt, IsSection, HeadingsIn, PathOf, OpenAt;
    if i == 0 {
      NoBlocks(blocks);
      ThePreamble(blocks);
      h, e := -1, 0;
    } else {
      var before := SectionsAt(blocks, i - 1);
      NextSections(blocks, i - 1);
      OneMoreCounted(blocks, i - 1, -1);
      if k < |before| {
        h, e := EverySectionIsItsBlocks(blocks, i - 1, k);
        if e == i - 1 && blocks[i - 1].Content? {
          SectionFills(blocks, i, k, before[k], h);
          e := i;
        } else {
          SectionStays(blocks, i, k, before[k], h, e);
        }
      } else {
        var _, _ := EverySectionIsItsBlocks(blocks, i - 1, 0);
        h, e := i - 1, i;
        SectionOpens(blocks, i);
      }
    }
  }

  lemma ThePreamble(blocks: seq<Block>)
    ensures IsSection(blocks, 0, 0, PREAMBLE, -1, 0)
  {
    assert blocks[..0] == [] && blocks[0..0] == [];
  }

  lemma SectionStays(blocks: seq<Block>, i: nat, k: nat, s: Section, h: int, e: nat)
    requires 0 < i <= |blocks| && IsSection(blocks, i - 1, k, s, h, e) && (e < i - 1 || blocks[i - 1].Heading?)
    ensures IsSection(blocks, i, k, s, h, e)
  {
    hide HeadingsIn, ContentUnits, IsPathAt;
  }

  lemma SectionFills(blocks: seq<Block>, i: nat, k: nat, s: Section, h: int)
    requires 0 < i <= |blocks| && IsSection(blocks, i - 1, k, s, h, i - 1) && blocks[i - 1].Content?
    ensures IsSection(blocks, i, k, s.(units := s.units + blocks[i - 1].units), h, i)
  {
    hide HeadingsIn, ContentUnits, IsPathAt;
    OneMoreCounted(blocks, i - 1, h);
  }

  lemma SectionOpens(blocks: seq<Block>, i: nat)
    requires 0 < i <= |blocks| && blocks[i - 1].Heading?
    ensures IsSection(blocks, i, HeadingsIn(blocks[..i - 1]) + 1, SectionOf(blocks, i - 1), i - 1, i)
  {
    hide HeadingsIn, ContentUnits, IsPathAt, PathOf, OpenAt;
    OneMoreCounted(blocks, i - 1, -1);
    PathIsTheOpenTitles(blocks, i - 1);
    assert blocks[i..i] == [];
    NoUnits();
  }

  lemma NoUnits()
    ensures ContentUnits([]) == []
  {
  }

  // ---------------------------------------------------------------- plain text

  /** What counts as white space around a line's text (Unicode's White_Space, as Go reads it). */
  predicate IsSpace(r: Rune) {
    || 9 <= r <= 13 || r == 32 || r == 0x85 || r == 0xA0 || r == 0x1680 || 0x2000 <= r <= 0x200A
    || r == 0x2028 || r == 0x2029 || r == 0x202F || r == 0x205F || r == 0x3000
  }

  predicate Blank(line: Text) { forall k :: 0 <= k < |line| ==> IsSpace(line[k]) }

  /** A line is blank when it holds nothing but the twenty-five white space runes. */
  lemma BlankIs(line: Text)
    ensures Blank(line) <==> forall k :: 0 <= k < |line| ==>
              line[k] in {0x09, 0x0A, 0x0B, 0x0C, 0x0D, 0x20, 0x85, 0xA0, 0x1680, 0x2000, 0x2001, 0x2002, 0x2003, 0x2004,
                          0x2005, 0x2006, 0x2007, 0x2008, 0x2009, 0x200A, 0x2028, 0x2029, 0x202F, 0x205F, 0x3000}
  {
  }

  /** Drops the spaces and tabs a line ends with. */
  function TrimLine(line: Text): (r: Text)
    ensures r <= line && (!Blank(line) ==> !Blank(r))
    ensures forall k :: |r| <= k < |line| ==> line[k] == 32 || line[k] == 9
    ensures r != [] ==> r[|r| - 1] != 32 && r[|r| - 1] != 9
  {
    var n := |line| - 1;
    if line != [] && (line[n] == 32 || line[n] == 9) then
      assert line == line[..n] + [line[n]];
      TrimLine(line[..n])
    else line
  }

  /** A text cut at its newlines, which are dropped. */
  function SplitLines(s: Text): (r: seq<Text>)
    ensures r != []
  {
    if s == [] then [[]]
    else
      var n := |s| - 1;
      var before := SplitLines(s[..n]);
      if s[n] == NEWLINE then before + [[]]
      else before[..|before| - 1] + [before[|before| - 1] + [s[n]]]
  }

  function JoinLines(lines: seq<Text>): Text {
    if lines == [] then []
    else if |lines| == 1 then lines[0]
    else JoinLines(lines[..|lines| - 1]) + [NEWLINE] + lines[|lines| - 1]
  }

  lemma {:induction false} SplitOfOneMoreLine(s: Text, line: Text)
    requires NEWLINE !in line
    ensures SplitLines(s + [NEWLINE] + line) == SplitLines(s) + [line]
  {
    var whole := s + [NEWLINE] + line;
    if line == [] {
      assert whole[..|whole| - 1] == s;
    } else {
      var n := |line| - 1;
      assert whole[..|whole| - 1] == s + [NEWLINE] + line[..n];
      SplitOfOneMoreLine(s, line[..n]);
      assert line == line[..n] + [line[n]];
    }
  }

  lemma {:induction false} SplitOfALine(line: Text)
    requires NEWLINE !in line
    ensures SplitLines(line) == [line]
  {
    if line == [] {
    } else {
      SplitOfALine(line[..|line| - 1]);
      assert line == line[..|line| - 1] + [line[|line| - 1]];
    }
  }

  /** Lines joined and cut again are the same lines. */
  lemma {:induction false} SplittingUndoesJoining(lines: seq<Text>)
    requires lines != [] && forall k :: 0 <= k < |lines| ==> NEWLINE !in lines[k]
    ensures SplitLines(JoinLines(lines)) == lines
  {
    hide SplitLines;
    var n := |lines| - 1;
    if n == 0 {
      SplitOfALine(lines[0]);
    } else {
      SplittingUndoesJoining(lines[..n]);
      SplitOfOneMoreLine(JoinLines(lines[..n]), lines[n]);
      assert lines == lines[..n] + [lines[n]];
    }
  }

  function Newlines(n: nat): (r: seq<Text>)
    ensures |r| == n && forall k :: 0 <= k < n ==> r[k] == [10]
  {
    seq(n, _ => [10])
  }

  /** Joined lines are the lines, one newline between each two. */
  lemma {:induction false} JoiningStringsLines(lines: seq<Text>)
    requires lines != []
    ensures Strung(JoinLines(lines), lines, Newlines(|lines| - 1))
  {
    hide Strung;
    var n := |lines| - 1;
    if n == 0 {
      StrungOne(lines[0]);
      assert Newlines(0) == [] && lines == [lines[0]];
    } else {
      JoiningStringsLines(lines[..n]);
      StrungOneMore(JoinLines(lines[..n]), lines[..n], Newlines(n - 1), [NEWLINE], lines[n]);
      assert Newlines(n) == Newlines(n - 1) + [[NEWLINE]] && lines == lines[..n] + [lines[n]];
    }
  }

  /** A text is its lines, joined again. */
  lemma {:induction false} JoiningUndoesSplitting(s: Text)
    ensures JoinLines(SplitLines(s)) == s
  {
    if s == [] {
    } else {
      var n := |s| - 1;
      var before := SplitLines(s[..n]);
      JoiningUndoesSplitting(s[..n]);
      SplitOneMore(s);
      hide SplitLines, JoinLines;
      assert s == s[..n] + [s[n]];
      if s[n] == NEWLINE {
        JoinedWithAnEmptyLine(before);
      } else {
        JoinedWithALongerLine(before, s[n]);
      }
    }
  }

  lemma SplitOneMore(s: Text)
    requires s != []
    ensures var n := |s| - 1;
            var before := SplitLines(s[..n]);
            SplitLines(s) == if s[n] == NEWLINE then before + [[]]
                             else before[..|before| - 1] + [before[|before| - 1] + [s[n]]]
  {
  }

  lemma JoinedWithOneMore(lines: seq<Text>, line: Text)
    ensures JoinLines(lines + [line]) == if lines == [] then line else JoinLines(lines) + [NEWLINE] + line
  {
    assert (lines + [line])[..|lines|] == lines;
  }

  lemma JoinedWithAnEmptyLine(lines: seq<Text>)
    requires lines != []
    ensures JoinLines(lines + [[]]) == JoinLines(lines) + [NEWLINE]
  {
    JoinedWithOneMore(lines, []);
  }

  lemma JoinedWithALongerLine(lines: seq<Text>, r: Rune)
    requires lines != []
    ensures var m := |lines| - 1; JoinLines(lines[..m] + [lines[m] + [r]]) == JoinLines(lines) + [r]
  {
    hide JoinLines;
    var m := |lines| - 1;
    var before, last := lines[..m], lines[m];
    assert lines == before + [last];
    JoinedWithOneMore(before, last);
    JoinedWithOneMore(before, last + [r]);
    OneRuneMore(JoinLines(before), last, r);
  }

  lemma OneRuneMore(a: Text, line: Text, r: Rune)
    ensures a + [NEWLINE] + (line + [r]) == (a + [NEWLINE] + line) + [r]
  {
  }

  lemma {:induction false} LinesHaveNoNewline(s: Text)
    ensures forall k :: 0 <= k < |SplitLines(s)| ==> NEWLINE !in SplitLines(s)[k]
  {
    if s == [] {
    } else {
      LinesHaveNoNewline(s[..|s| - 1]);
    }
  }

  /** The lines with text on them, without the spaces and tabs they end with. */
  function TextLines(lines: seq<Text>): seq<Text> {
    if lines == [] then []
    else
      var n := |lines| - 1;
      TextLines(lines[..n]) + (if Blank(lines[n]) then [] else [TrimLine(lines[n])])
  }

  /** The paragraphs: runs of lines between blank ones, the last possibly still open. */
  function Paragraphs(lines: seq<Text>): (r: (seq<seq<Text>>, seq<Text>)) {
    if lines == [] then ([], [])
    else
      var n := |lines| - 1;
      var (done, para) := Paragraphs(lines[..n]);
      if Blank(lines[n]) then (Flushed(done, para), []) else (done, para + [TrimLine(lines[n])])
  }

  function Flushed(done: seq<seq<Text>>, para: seq<Text>): seq<seq<Text>> { if para == [] then done else done + [para] }

  /** A text file's packing units: each paragraph's lines, joined again. */
  function TextUnits(s: Text): seq<Unit> {
    var (done, para) := Paragraphs(SplitLines(s));
    ParagraphUnits(Flushed(done, para))
  }

  function ParagraphUnits(paragraphs: seq<seq<Text>>): (r: seq<Unit>)
    ensures |r| == |paragraphs|
    ensures forall k :: 0 <= k < |r| ==> r[k] == Unit(JoinLines(paragraphs[k]), false)
  {
    seq(|paragraphs|, k requires 0 <= k < |paragraphs| => Unit(JoinLines(paragraphs[k]), false))
  }

  function UnitLines(us: seq<Unit>): seq<Text> {
    if us == [] then [] else UnitLines(us[..|us| - 1]) + SplitLines(us[|us| - 1].text)
  }

  predicate TextLine(line: Text) { !Blank(line) && NEWLINE !in line }

  predicate TextParagraph(para: seq<Text>) { forall k :: 0 <= k < |para| ==> TextLine(para[k]) }

  lemma {:induction false} ParagraphsAreText(lines: seq<Text>)
    requires forall k :: 0 <= k < |lines| ==> NEWLINE !in lines[k]
    ensures var (done, para) := Paragraphs(lines);
            TextParagraph(para) && forall k :: 0 <= k < |done| ==> done[k] != [] && TextParagraph(done[k])
  {
    hide Blank, TrimLine;
    if lines == [] {
    } else {
      ParagraphsAreText(lines[..|lines| - 1]);
    }
  }

  lemma OneParagraphMore(done: seq<seq<Text>>, para: seq<Text>)
    requires TextParagraph(para)
    ensures UnitLines(ParagraphUnits(Flushed(done, para))) == UnitLines(ParagraphUnits(done)) + para
  {
    if para != [] {
      SplittingUndoesJoining(para);
      var us := ParagraphUnits(done + [para]);
      assert us[..|done|] == ParagraphUnits(done);
    }
  }

  lemma {:induction false} ParagraphsKeepTheLines(lines: seq<Text>)
    requires forall k :: 0 <= k < |lines| ==> NEWLINE !in lines[k]
    ensures var (done, para) := Paragraphs(lines);
            UnitLines(ParagraphUnits(done)) + para == TextLines(lines)
  {
    hide Blank, TrimLine;
    if lines == [] {
    } else {
      var n := |lines| - 1;
      ParagraphsKeepTheLines(lines[..n]);
      ParagraphsAreText(lines[..n]);
      var (done, para) := Paragraphs(lines[..n]);
      OneParagraphMore(done, para);
    }
  }

  lemma {:induction false} JoinedTextIsNotBlank(para: seq<Text>)
    requires para != [] && TextParagraph(para)
    ensures !Blank(JoinLines(para))
  {
    var n := |para| - 1;
    var text := JoinLines(para);
    var k :| 0 <= k < |para[n]| && !IsSpace(para[n][k]);
    assert text[|text| - |para[n]| + k] == para[n][k];
  }

  /** No line with text on it is lost, repeated or moved, and no unit is without text. */
  lemma TextUnitsKeepTheLines(s: Text)
    ensures UnitLines(TextUnits(s)) == TextLines(SplitLines(s))
    ensures forall k :: 0 <= k < |TextUnits(s)| ==> !Blank(TextUnits(s)[k].text)
  {
    hide Blank, TrimLine, Paragraphs, TextLines, SplitLines, JoinLines, UnitLines;
    var lines := SplitLines(s);
    LinesHaveNoNewline(s);
    ParagraphsAreText(lines);
    ParagraphsKeepTheLines(lines);
    var (done, para) := Paragraphs(lines);
    OneParagraphMore(done, para);
    forall k | 0 <= k < |TextUnits(s)| ensures !Blank(TextUnits(s)[k].text) {
      JoinedTextIsNotBlank(Flushed(done, para)[k]);
    }
  }

  /** Each line without the spaces and tabs it ends with. */
  function TrimmedLines(lines: seq<Text>): (r: seq<Text>)
    ensures |r| == |lines| && forall k :: 0 <= k < |lines| ==> r[k] == TrimLine(lines[k])
  {
    seq(|lines|, k requires 0 <= k < |lines| => TrimLine(lines[k]))
  }

  /** Lines lo..hi are all text, and a blank line or the start is before them. */
  predicate TextFrom(lines: seq<Text>, lo: nat, hi: nat) {
    && lo <= hi <= |lines|
    && (forall j :: lo <= j < hi ==> !Blank(lines[j]))
    && (lo > 0 ==> Blank(lines[lo - 1]))
  }

  predicate InASpan(spans: seq<(nat, nat)>, j: nat) { exists k :: 0 <= k < |spans| && spans[k].0 <= j < spans[k].1 }

  /** The paragraph is the lines of its span: a run of text lines ended by a blank one before `open`. */
  predicate IsParagraph(lines: seq<Text>, para: seq<Text>, span: (nat, nat), open: nat) {
    && TextFrom(lines, span.0, span.1) && span.0 < span.1 < |lines| && Blank(lines[span.1])
    && span.1 < open && para == TrimmedLines(lines[span.0..span.1])
  }

  /** The paragraphs are the lines of the spans, in order, and no text line before `open` is left out. */
  ghost predicate SpansTheText(lines: seq<Text>, paragraphs: seq<seq<Text>>, spans: seq<(nat, nat)>, open: nat) {
    && |spans| == |paragraphs| && open <= |lines|
    && (forall k :: 0 <= k < |spans| ==> IsParagraph(lines, paragraphs[k], spans[k], open))
    && (forall k, l :: 0 <= k < l < |spans| ==> spans[k].1 < spans[l].0)
    && forall j: nat :: j < open && !Blank(lines[j]) ==> InASpan(spans, j)
  }

  lemma SpansStay(lines: seq<Text>, line: Text, paragraphs: seq<seq<Text>>, spans: seq<(nat, nat)>, open: nat)
    requires SpansTheText(lines, paragraphs, spans, open)
    ensures SpansTheText(lines + [line], paragraphs, spans, open)
  {
    hide Blank, InASpan;
    forall k | 0 <= k < |spans| ensures IsParagraph(lines + [line], paragraphs[k], spans[k], open) {
      assert IsParagraph(lines, paragraphs[k], spans[k], open);
      assert (lines + [line])[spans[k].0..spans[k].1] == lines[spans[k].0..spans[k].1];
    }
  }

  lemma SpanCloses(lines: seq<Text>, paragraphs: seq<seq<Text>>, spans: seq<(nat, nat)>, open: nat, end: nat)
    requires SpansTheText(lines, paragraphs, spans, open) && TextFrom(lines, open, end)
    requires end + 1 == |lines| && Blank(lines[end])
    ensures SpansTheText(lines, if open == end then paragraphs else paragraphs + [TrimmedLines(lines[open..end])],
                         if open == end then spans else spans + [(open, end)], |lines|)
  {
    hide Blank, TrimmedLines, InASpan;
    forall k | 0 <= k < |spans| ensures IsParagraph(lines, paragraphs[k], spans[k], |lines|) {
      assert IsParagraph(lines, paragraphs[k], spans[k], open);
    }
    if open == end {
      NoneBetween(lines, spans, open, end, spans);
    } else {
      NoneBetween(lines, spans, open, end, spans + [(open, end)]);
      forall k | 0 <= k < |spans| ensures spans[k].1 < open {
        assert IsParagraph(lines, paragraphs[k], spans[k], open);
      }
    }
  }

  lemma NoneBetween(lines: seq<Text>, spans: seq<(nat, nat)>, open: nat, end: nat, after: seq<(nat, nat)>)
    requires open <= end && end + 1 == |lines| && Blank(lines[end])
    requires forall j: nat :: j < open && !Blank(lines[j]) ==> InASpan(spans, j)
    requires after == if open == end then spans else spans + [(open, end)]
    ensures forall j: nat :: j < |lines| && !Blank(lines[j]) ==> InASpan(after, j)
  {
    hide Blank;
    forall j: nat | j < |lines| && !Blank(lines[j]) ensures InASpan(after, j) {
      if j < open {
        assert InASpan(spans, j);
        var k :| 0 <= k < |spans| && spans[k].0 <= j < spans[k].1;
        assert after[k] == spans[k];
      } else {
        assert after[|spans|] == (open, end);
      }
    }
  }

  lemma {:induction false} ParagraphsSpanTheText(lines: seq<Text>) returns (spans: seq<(nat, nat)>, open: nat)
    ensures var (done, para) := Paragraphs(lines);
            && SpansTheText(lines, done, spans, open)
            && TextFrom(lines, open, |lines|) && para == TrimmedLines(lines[open..])
  {
    hide Blank, TrimLine, SpansTheText, TrimmedLines, TextFrom;
    if lines == [] {
      spans, open := [], 0;
      NothingSpanned();
    } else {
      var n := |lines| - 1;
      spans, open := ParagraphsSpanTheText(lines[..n]);
      var (done, para) := Paragraphs(lines[..n]);
      assert lines == lines[..n] + [lines[n]];
      SpansStay(lines[..n], lines[n], done, spans, open);
      LastLine(lines, open);
      if Blank(lines[n]) {
        SpanCloses(lines, done, spans, open, n);
        spans, open := if open == n then spans else spans + [(open, n)], n + 1;
      }
    }
  }

  lemma LastLine(lines: seq<Text>, open: nat)
    requires lines != [] && TextFrom(lines[..|lines| - 1], open, |lines| - 1)
    ensures var n := |lines| - 1;
            && TextFrom(lines, open, n) && (!Blank(lines[n]) ==> TextFrom(lines, open, n + 1))
            && (Blank(lines[n]) ==> TextFrom(lines, n + 1, n + 1))
            && lines[..n][open..] == lines[open..n]
            && TrimmedLines(lines[open..]) == TrimmedLines(lines[open..n]) + [TrimLine(lines[n])]
            && TrimmedLines(lines[n + 1..]) == []
            && (TrimmedLines(lines[open..n]) == [] <==> open == n)
  {
    hide Blank, TrimLine;
    var n := |lines| - 1;
    assert forall j :: 0 <= j < n ==> lines[..n][j] == lines[j];
    assert lines[open..] == lines[open..n] + [lines[n]];
  }

  lemma NothingSpanned()
    ensures SpansTheText([], [], [], 0) && TrimmedLines([]) == [] && TextFrom([], 0, 0)
  {
  }

  lemma NoLines()
    ensures Paragraphs([]) == ([], []) && ParagraphUnits([]) == []
  {
  }

  lemma OneLineMore(lines: seq<Text>, i: nat)
    requires i < |lines|
    ensures var (done, para) := Paragraphs(lines[..i]);
            Paragraphs(lines[..i + 1]) ==
              if Blank(lines[i]) then (if para == [] then done else done + [para], []) else (done, para + [TrimLine(lines[i])])
  {
    hide Blank, TrimLine;
    assert lines[..i + 1][..i] == lines[..i];
  }

  lemma OneUnitMore(done: seq<seq<Text>>, para: seq<Text>)
    ensures ParagraphUnits(done + [para]) == ParagraphUnits(done) + [Unit(JoinLines(para), false)]
  {
    hide JoinLines;
  }

  lemma TextUnitsAre(s: Text)
    ensures var (done, para) := Paragraphs(SplitLines(s));
            TextUnits(s) == ParagraphUnits(if para == [] then done else done + [para])
  {
    hide Paragraphs, SplitLines, ParagraphUnits;
  }

  /** The unit is the lines of its span, joined: a run of text lines with a blank line or an end on each side. */
  predicate IsTextUnit(lines: seq<Text>, u: Unit, span: (nat, nat)) {
    && TextFrom(lines, span.0, span.1) && span.0 < span.1 && (span.1 < |lines| ==> Blank(lines[span.1]))
    && u == Unit(JoinLines(TrimmedLines(lines[span.0..span.1])), false)
  }

  /** One unit for each run of text lines between blank ones, in order. */
  ghost predicate CutAtBlankLines(lines: seq<Text>, units: seq<Unit>) {
    exists spans: seq<(nat, nat)> ::
      && |spans| == |units|
      && (forall k :: 0 <= k < |units| ==> IsTextUnit(lines, units[k], spans[k]))
      && (forall k, l :: 0 <= k < l < |spans| ==> spans[k].1 < spans[l].0)
      && forall j: nat :: j < |lines| && !Blank(lines[j]) ==> InASpan(spans, j)
  }

  lemma TextUnitsAreCutAtBlankLines(s: Text)
    ensures CutAtBlankLines(SplitLines(s), TextUnits(s))
  {
    hide Blank, TrimLine, Paragraphs, SplitLines, JoinLines, TextFrom, InASpan, TrimmedLines, IsTextUnit;
    hide CutAtBlankLines;
    var lines, units := SplitLines(s), TextUnits(s);
    var spans, open := ParagraphsSpanTheText(lines);
    var (done, para) := Paragraphs(lines);
    var all := if para == [] then spans else spans + [(open, |lines|)];
    forall k | 0 <= k < |units| ensures IsTextUnit(lines, units[k], all[k]) {
      if k < |spans| {
        ParagraphIsATextUnit(lines, done[k], spans[k], open);
      } else {
        LastIsATextUnit(lines, para, open);
      }
    }
    forall k, l | 0 <= k < l < |all| ensures all[k].1 < all[l].0 {
      assert IsParagraph(lines, done[k], spans[k], open);
    }
    LastSpan(lines, spans, open, para);
    TheyAreCut(lines, units, all);
  }

  lemma TheyAreCut(lines: seq<Text>, units: seq<Unit>, spans: seq<(nat, nat)>)
    requires |spans| == |units| && forall k :: 0 <= k < |units| ==> IsTextUnit(lines, units[k], spans[k])
    requires forall k, l :: 0 <= k < l < |spans| ==> spans[k].1 < spans[l].0
    requires forall j: nat :: j < |lines| && !Blank(lines[j]) ==> InASpan(spans, j)
    ensures CutAtBlankLines(lines, units)
  {
    hide IsTextUnit, Blank, InASpan;
  }

  lemma ParagraphIsATextUnit(lines: seq<Text>, para: seq<Text>, span: (nat, nat), open: nat)
    requires IsParagraph(lines, para, span, open)
    ensures IsTextUnit(lines, Unit(JoinLines(para), false), span)
  {
    hide Blank, JoinLines, TrimmedLines;
  }

  lemma LastIsATextUnit(lines: seq<Text>, para: seq<Text>, open: nat)
    requires TextFrom(lines, open, |lines|) && para == TrimmedLines(lines[open..]) && para != []
    ensures IsTextUnit(lines, Unit(JoinLines(para), false), (open, |lines|))
  {
    hide Blank, JoinLines;
    assert lines[open..|lines|] == lines[open..];
  }

  lemma LastSpan(lines: seq<Text>, spans: seq<(nat, nat)>, open: nat, para: seq<Text>)
    requires open <= |lines| && para == TrimmedLines(lines[open..])
    requires forall j: nat :: j < open && !Blank(lines[j]) ==> InASpan(spans, j)
    ensures var all := if para == [] then spans else spans + [(open, |lines|)];
            forall j: nat :: j < |lines| && !Blank(lines[j]) ==> InASpan(all, j)
  {
    hide Blank;
    var all := if para == [] then spans else spans + [(open, |lines|)];
    forall j: nat | j < |lines| && !Blank(lines[j]) ensures InASpan(all, j) {
      if j < open {
        assert InASpan(spans, j);
        var k :| 0 <= k < |spans| && spans[k].0 <= j < spans[k].1;
        assert all[k] == spans[k];
      } else {
        assert all[|spans|] == (open, |lines|);
      }
    }
  }

  method ParseText(s: Text) returns (units: seq<Unit>)
    ensures units == TextUnits(s) && CutAtBlankLines(SplitLines(s), units)
    ensures UnitLines(units) == TextLines(SplitLines(s))
    ensures forall k :: 0 <= k < |units| ==> !Blank(units[k].text)
  {
    hide *;
    var lines := SplitLines(s);
    units := [];
    NoLines();
    var para: seq<Text> := [];
    ghost var done: seq<seq<Text>> := [];
    for i := 0 to |lines|
      invariant (done, para) == Paragraphs(lines[..i]) && units == ParagraphUnits(done)
    {
      OneLineMore(lines, i);
      if Blank(lines[i]) {
        if para != [] {
          OneUnitMore(done, para);
          done, units := done + [para], units + [Unit(JoinLines(para), false)];
        }
        para := [];
      } else {
        para := para + [TrimLine(lines[i])];
      }
    }
    assert lines[..|lines|] == lines;
    TextUnitsKeepTheLines(s);
    TextUnitsAreCutAtBlankLines(s);
    TextUnitsAre(s);
    if para != [] {
      OneUnitMore(done, para);
      units := units + [Unit(JoinLines(para), false)];
    }
  }
}
