/**
  What a merged chunk still shows of its sections' heading paths (internal/ingest/chunk.go). The
  chunk's text starts with the parents' path, and every titled section's heading is a line of it; a
  reader at any place in it has the parents and the last heading line above to go by.
*/
module MergedHeadings {
  import opened Prelude
  import opened TokenEstimate
  import opened Parse
  import opened GreedyPacking
  import opened Packing
  import opened Chunking

  function HeadingLine(s: Section): Text { Hashes(s.level) + [SPACE] + s.title }

  predicate Titled(s: Section) { s.title != [] }

  /** The parser trims a heading's text. */
  predicate TrimmedTitle(title: Text) { title != [] ==> title[|title| - 1] != NEWLINE }

  // ---------------------------------------------------------------- where a section starts in the merged body

  lemma {:induction false} BodyOfAPrefix(run: seq<Section>, k: nat)
    requires 0 < k <= |run|
    ensures MergedBody(run[..k]) <= MergedBody(run)
    decreases |run|
  {
    hide MergedBody;
    if k == |run| {
      assert run[..k] == run;
    } else {
      var n := |run| - 1;
      BodyOfAPrefix(run[..n], k);
      assert run[..n][..k] == run[..k];
      OneSectionMore(run[..n], run[n]);
      assert run[..n] + [run[n]] == run;
    }
  }

  /** Where section k's rendered text ends, and starts, in the merged body. */
  function End(run: seq<Section>, k: nat): nat
    requires k < |run|
  {
    |MergedBody(run[..k + 1])|
  }

  function Start(run: seq<Section>, k: nat): nat
    requires k < |run|
  {
    if k == 0 then 0 else End(run, k - 1) + |BLANK_LINE|
  }

  /** Section k's rendered text is there, at the start or after a blank line. */
  lemma SectionsAreInTheBody(run: seq<Section>, k: nat)
    requires k < |run|
    ensures var body := MergedBody(run);
            && Start(run, k) + |Render(run[k])| == End(run, k) <= |body|
            && body[Start(run, k)..End(run, k)] == Render(run[k])
            && (k > 0 ==> body[Start(run, k) - 2..Start(run, k)] == BLANK_LINE)
  {
    hide MergedBody, Render;
    BodyOfAPrefix(run, k + 1);
    var before := run[..k];
    assert run[..k + 1] == before + [run[k]];
    if k == 0 {
      BodyOfOne(run[0]);
      var head := MergedBody(run[..1]);
      assert run[..1] == [run[0]] && MergedBody(run)[..|head|] == head;
    } else {
      OneSectionMore(before, run[k]);
      var head := MergedBody(run[..k + 1]);
      assert head == MergedBody(before) + BLANK_LINE + Render(run[k]);
      assert MergedBody(run)[..|head|] == head;
      SliceOf(MergedBody(before), BLANK_LINE, Render(run[k]), MergedBody(run));
    }
  }

  lemma BodyOfOne(s: Section)
    ensures MergedBody([s]) == Render(s)
  {
  }

  lemma SliceOf(a: Text, b: Text, c: Text, whole: Text)
    requires a + b + c <= whole
    ensures whole[|a|..|a| + |b|] == b
    ensures whole[|a| + |b|..|a + b + c|] == c
  {
    var head := a + b + c;
    assert whole[..|head|] == head;
    assert head[|a|..|a| + |b|] == b && head[|a| + |b|..] == c;
  }

  lemma {:induction false} SectionsComeInOrder(run: seq<Section>, j: nat, k: nat)
    requires j < k < |run|
    ensures End(run, j) + |BLANK_LINE| <= Start(run, k)
    decreases k
  {
    hide MergedBody, Render;
    if j + 1 == k {
    } else {
      SectionsComeInOrder(run, j, k - 1);
      SectionsAreInTheBody(run, k - 1);
    }
  }

  // ---------------------------------------------------------------- what trimming leaves

  /** How many newlines a text starts with. */
  function Lead(s: Text): (n: nat)
    ensures n <= |s| && TrimLeft(s) == s[n..]
    ensures forall i :: 0 <= i < n ==> s[i] == NEWLINE
  {
    if s != [] && s[0] == NEWLINE then
      assert forall i :: 0 < i < |s| ==> s[i] == s[1..][i - 1];
      1 + Lead(s[1..])
    else 0
  }

  /** A line of its own: what is before it, and after it, is the text's edge or a newline. */
  predicate LineAt(text: Text, at: int, line: Text) {
    && 0 <= at && at + |line| <= |text| && text[at..at + |line|] == line
    && (at == 0 || text[at - 1] == NEWLINE)
    && (at + |line| == |text| || text[at + |line|] == NEWLINE)
  }

  lemma DroppingBeforeKeepsALine(text: Text, n: nat, at: nat, line: Text)
    requires LineAt(text, at, line) && n <= at
    ensures LineAt(text[n..], at - n, line)
  {
    assert text[n..][at - n..at - n + |line|] == text[at..at + |line|];
  }

  lemma DroppingAfterKeepsALine(text: Text, n: nat, at: nat, line: Text)
    requires LineAt(text, at, line) && at + |line| <= n <= |text|
    ensures LineAt(text[..n], at, line)
  {
    assert text[..n][at..at + |line|] == text[at..at + |line|];
  }

  /** Trimming moves a line and never cuts it. */
  lemma TrimmingKeepsLines(body: Text, at: nat, line: Text)
    requires LineAt(body, at, line)
    requires line != [] && line[0] != NEWLINE && line[|line| - 1] != NEWLINE
    ensures LineAt(TrimRight(TrimLeft(body)), at - Lead(body), line)
  {
    hide TrimLeft, TrimRight, Lead;
    var lead := Lead(body);
    var left := TrimLeft(body);
    assert body[at] == body[at..at + |line|][0];
    DroppingBeforeKeepsALine(body, lead, at, line);
    var right := TrimRight(left);
    TrimRightDropsNewlines(left);
    var last := at - lead + |line| - 1;
    assert left[last] == left[at - lead..at - lead + |line|][|line| - 1];
    DroppingAfterKeepsALine(left, |right|, at - lead, line);
    assert left[..|right|] == right;
  }

  lemma PathsKeepLines(p: Text, body: Text, at: int, line: Text)
    requires LineAt(body, at, line)
    ensures LineAt(Embedded(p, body), |Embedded(p, [])| + at, line)
  {
    var text := Embedded(p, body);
    var n := |Embedded(p, [])|;
    assert text[n..] == body;
    assert text[n + at..n + at + |line|] == body[at..at + |line|];
    assert at > 0 ==> text[n + at - 1] == body[at - 1];
    assert p != [] ==> text[n - 1] == NEWLINE;
  }

  // ---------------------------------------------------------------- the headings in the chunk

  /** Where section k's text starts in the merged chunk. */
  function At(run: seq<Section>, k: nat): int
    requires k < |run|
  {
    |Embedded(PathText(Parents(run)), [])| + Start(run, k) - Lead(MergedBody(run))
  }

  /** The places of section k's own text, its heading line aside. */
  predicate InBody(run: seq<Section>, k: nat, pos: int)
    requires k < |run|
  {
    At(run, k) + (if Titled(run[k]) then |HeadingLine(run[k]) + BLANK_LINE| else 0) <= pos <= At(run, k) + |Render(run[k])|
  }

  lemma HeadingLineInBody(run: seq<Section>, k: nat)
    requires k < |run| && Titled(run[k])
    ensures LineAt(MergedBody(run), Start(run, k), HeadingLine(run[k]))
  {
    hide MergedBody, Hashes, JoinUnits;
    SectionsAreInTheBody(run, k);
    var body, at, line := MergedBody(run), Start(run, k), HeadingLine(run[k]);
    var render := Render(run[k]);
    assert render[..|line|] == line && render[|line|] == NEWLINE;
    assert body[at..at + |render|] == render;
    assert body[at..at + |line|] == body[at..at + |render|][..|line|];
    assert body[at + |line|] == render[|line|];
    assert k > 0 ==> body[at - 1] == body[at - 2..at][1];
  }

  lemma {:induction false} HashesAreNoNewlines(n: nat)
    ensures forall i :: 0 <= i < |Hashes(n)| ==> Hashes(n)[i] == HASH
  {
    if n == 0 {
    } else {
      HashesAreNoNewlines(n - 1);
    }
  }

  lemma HeadingLineEnds(s: Section)
    requires Titled(s) && TrimmedTitle(s.title)
    ensures var line := HeadingLine(s); line != [] && line[0] != NEWLINE && line[|line| - 1] != NEWLINE
  {
    HashesAreNoNewlines(s.level);
  }

  /** A merged chunk starts with its parents' path, and every titled section's heading is a line of it. */
  lemma HeadingsAreLinesOfTheChunk(index: nat, run: seq<Section>, k: nat)
    requires |run| > 1 && AllSiblings(run) && k < |run| && TrimmedTitle(run[k].title)
    ensures var content := ChunkOf(index, Merged(run)).content;
            && Embedded(PathText(Parents(run)), []) <= content
            && (Titled(run[k]) ==> LineAt(content, At(run, k), HeadingLine(run[k])))
  {
    hide MergedBody, HeadingLine, LineAt, PathText, Tokens, TrimLeft, TrimRight;
    var body, p := MergedBody(run), PathText(Parents(run));
    if Titled(run[k]) {
      HeadingLineInBody(run, k);
      HeadingLineEnds(run[k]);
      TrimmingKeepsLines(body, Start(run, k), HeadingLine(run[k]));
      PathsKeepLines(p, TrimRight(TrimLeft(body)), Start(run, k) - Lead(body), HeadingLine(run[k]));
    }
  }

  lemma TrimmedText(body: Text, i: nat)
    requires i < |TrimRight(TrimLeft(body))|
    ensures Lead(body) + i < |body| && TrimRight(TrimLeft(body))[i] == body[Lead(body) + i]
  {
    hide TrimLeft, TrimRight;
    TrimRightDropsNewlines(TrimLeft(body));
  }

  /** What trimming leaves of section k's rendered text is where `At` puts it. */
  lemma SectionTextIsInTheChunk(index: nat, run: seq<Section>, k: nat, pos: int)
    requires |run| > 1 && AllSiblings(run) && k < |run| && At(run, k) <= pos < At(run, k) + |Render(run[k])|
    ensures var content := ChunkOf(index, Merged(run)).content;
            |Embedded(PathText(Parents(run)), [])| <= pos < |content| ==> content[pos] == Render(run[k])[pos - At(run, k)]
  {
    hide MergedBody, Render, PathText, Tokens, TrimLeft, TrimRight, Lead;
    var body, n := MergedBody(run), |Embedded(PathText(Parents(run)), [])|;
    var content := ChunkOf(index, Merged(run)).content;
    if n <= pos < |content| {
      TrimmedText(body, pos - n);
      SectionsAreInTheBody(run, k);
      assert content[pos] == body[Lead(body) + pos - n];
      assert body[Start(run, k)..End(run, k)][pos - At(run, k)] == body[Lead(body) + pos - n];
    }
  }

  // ---------------------------------------------------------------- the path a reader is shown

  /** The last of the first n sections' heading lines at or above a place, if there is one. */
  function HeadingAbove(run: seq<Section>, n: nat, pos: int): seq<Text>
    requires n <= |run|
  {
    if n == 0 then []
    else if Titled(run[n - 1]) && At(run, n - 1) <= pos then [run[n - 1].title]
    else HeadingAbove(run, n - 1, pos)
  }

  function ShownPath(run: seq<Section>, pos: int): seq<Text> { Parents(run) + HeadingAbove(run, |run|, pos) }

  /** The last title of the first n sections. */
  function HeadingOf(run: seq<Section>, n: nat): seq<Text>
    requires n <= |run|
  {
    if n == 0 then [] else if Titled(run[n - 1]) then [run[n - 1].title] else HeadingOf(run, n - 1)
  }

  /** The titled section at or before k with only untitled ones after it up to k. */
  predicate Heads(run: seq<Section>, j: nat, k: nat) {
    j <= k < |run| && Titled(run[j]) && forall m :: j < m <= k ==> !Titled(run[m])
  }

  lemma {:induction false} SectionsAfterAreBelow(run: seq<Section>, n: nat, k: nat, pos: int)
    requires k < n <= |run| && InBody(run, k, pos)
    ensures HeadingAbove(run, n, pos) == HeadingAbove(run, k + 1, pos)
    decreases n
  {
    hide Lead, MergedBody, Render, HeadingLine, Start, End;
    if n == k + 1 {
    } else {
      SectionsComeInOrder(run, k, n - 1);
      SectionsAreInTheBody(run, k);
      SectionsAfterAreBelow(run, n - 1, k, pos);
    }
  }

  lemma {:induction false} HeadingsBeforeAreAbove(run: seq<Section>, n: nat, k: nat, pos: int)
    requires n <= k + 1 && k < |run| && InBody(run, k, pos)
    ensures HeadingAbove(run, n, pos) == HeadingOf(run, n)
  {
    hide Lead, MergedBody, Render, HeadingLine, Start, End;
    if n == 0 {
    } else {
      if n - 1 < k {
        SectionsComeInOrder(run, n - 1, k);
        SectionsAreInTheBody(run, n - 1);
      }
      HeadingsBeforeAreAbove(run, n - 1, k, pos);
    }
  }

  lemma {:induction false} TheHeadingIsOneThatHeads(run: seq<Section>, n: nat, k: nat)
    requires n <= k + 1 && k < |run|
    requires forall m :: n <= m <= k ==> !Titled(run[m])
    ensures if HeadingOf(run, n) == [] then forall m :: 0 <= m <= k ==> !Titled(run[m])
            else exists j: nat :: Heads(run, j, k) && HeadingOf(run, n) == [run[j].title]
  {
    if n == 0 {
    } else if Titled(run[n - 1]) {
      assert Heads(run, n - 1, k);
    } else {
      TheHeadingIsOneThatHeads(run, n - 1, k);
    }
  }

  lemma OneHead(run: seq<Section>, i: nat, j: nat, k: nat)
    requires Heads(run, i, k) && Heads(run, j, k)
    ensures i == j
  {
  }

  /** The section is titled, or follows a titled one of the same path with only untitled ones between. */
  ghost predicate HeadedByItsPath(run: seq<Section>, k: nat)
    requires k < |run|
  {
    exists j: nat :: Heads(run, j, k) && run[j].path == run[k].path
  }

  ghost predicate TitlesCloseThePaths(run: seq<Section>) {
    forall m :: 0 <= m < |run| ==> (NamesItself(run[m]) <==> Titled(run[m]))
  }

  lemma ParentsOfSiblings(run: seq<Section>, k: nat)
    requires k < |run| && AllSiblings(run)
    ensures run[k].path != [] && Parents(run) == Parent(run[k])
    ensures NamesItself(run[k]) && Titled(run[k]) ==> run[k].path == Parents(run) + [run[k].title]
  {
    assert Siblings(run[0], run[k]);
  }

  /** Over a section's own text a merged chunk shows the section's path exactly when its heading is above. */
  lemma ShownPathIsTheSectionsIff(run: seq<Section>, k: nat, pos: int)
    requires k < |run| && AllSiblings(run) && InBody(run, k, pos) && TitlesCloseThePaths(run)
    ensures ShownPath(run, pos) == run[k].path <==> HeadedByItsPath(run, k)
  {
    hide At, InBody, AllSiblings, HeadingAbove, HeadingOf, Parents;
    SectionsAfterAreBelow(run, |run|, k, pos);
    HeadingsBeforeAreAbove(run, k + 1, k, pos);
    TheHeadingIsOneThatHeads(run, k + 1, k);
    ParentsOfSiblings(run, k);
    var shown := HeadingOf(run, k + 1);
    if shown != [] {
      var j: nat :| Heads(run, j, k) && shown == [run[j].title];
      ParentsOfSiblings(run, j);
      forall i: nat | Heads(run, i, k) ensures i == j {
        OneHead(run, i, j, k);
      }
    }
  }

  // ---------------------------------------------------------------- every merged chunk of every document

  predicate TrimmedTitles(blocks: seq<Block>) {
    forall i :: 0 <= i < |blocks| && blocks[i].Heading? ==> TrimmedTitle(blocks[i].title)
  }

  /** What parsing gives a section's title and path. */
  ghost predicate Parsed(s: Section) { (NamesItself(s) <==> Titled(s)) && TrimmedTitle(s.title) }

  lemma SectionsAreParsed(blocks: seq<Block>, k: nat)
    requires k < |SectionsAt(blocks, |blocks|)| && TrimmedTitles(blocks)
    ensures Parsed(SectionsAt(blocks, |blocks|)[k])
  {
    OnlyTitledSectionsNameThemselves(blocks, |blocks|, k);
    var h := SectionsOpenAtHeadings(blocks, |blocks|, k);
    hide SectionsAt, OpenAt, PathOf;
  }

  lemma {:induction false} KeptSectionsAreSections(sections: seq<Section>, s: Section)
    requires s in NonEmpty(sections)
    ensures s in sections
  {
    var n := |sections| - 1;
    if s in NonEmpty(sections[..n]) {
      KeptSectionsAreSections(sections[..n], s);
    } else {
      assert s == sections[n];
    }
  }

  lemma {:induction false} MergedPiecesAreRuns(runs: seq<seq<Section>>, target: int, run: seq<Section>)
    requires RunsOfSiblings(runs) && Merged(run) in Pieces(runs, target)
    ensures run in runs && |run| > 1 && AllSiblings(run)
  {
    hide AllSiblings, SectionPieces;
    var n := |runs| - 1;
    if Merged(run) in Pieces(runs[..n], target) {
      MergedPiecesAreRuns(runs[..n], target, run);
    } else {
      assert Merged(run) in RunPieces(runs[n], target);
    }
  }

  lemma MergedSectionsAreParsed(blocks: seq<Block>, target: int, run: seq<Section>, k: nat)
    requires TrimmedTitles(blocks) && k < |run| && Merged(run) in DocumentPieces(Markdown(blocks), target)
    ensures |run| > 1 && AllSiblings(run) && Parsed(run[k])
  {
    hide SectionsAt, NonEmpty, Pieces, AllSiblings, Parsed, Mergeable, Greedy;
    var sections := SectionsAt(blocks, |blocks|);
    var runs := Runs(sections, target);
    RunsMerge(sections, target);
    MergedPiecesAreRuns(runs, target, run);
    PartsComeFromTheWhole(runs, run, run[k]);
    KeptSectionsAreSections(sections, run[k]);
    var i :| 0 <= i < |sections| && sections[i] == run[k];
    SectionsAreParsed(blocks, i);
  }

  /**
    Every merged chunk of every document: it starts with the parents' path; section k's heading, if it
    has text, is a line of it where the section starts, and the section's text follows; and over that
    text the path shown is the section's exactly when a titled section of the same path heads it.
  */
  lemma AMergedChunkShowsThePathIff(blocks: seq<Block>, target: int, index: nat, run: seq<Section>, k: nat, pos: int)
    requires TrimmedTitles(blocks) && k < |run| && Merged(run) in DocumentPieces(Markdown(blocks), target)
    ensures |run| > 1 && AllSiblings(run)
    ensures var content := ChunkOf(index, Merged(run)).content;
            && Embedded(PathText(Parents(run)), []) <= content
            && (Titled(run[k]) ==> LineAt(content, At(run, k), HeadingLine(run[k])))
    ensures var content := ChunkOf(index, Merged(run)).content;
            At(run, k) <= pos < At(run, k) + |Render(run[k])| && |Embedded(PathText(Parents(run)), [])| <= pos < |content| ==>
              content[pos] == Render(run[k])[pos - At(run, k)]
    ensures InBody(run, k, pos) ==> (ShownPath(run, pos) == run[k].path <==> HeadedByItsPath(run, k))
  {
    hide *;
    MergedSectionsAreParsed(blocks, target, run, k);
    forall m | 0 <= m < |run| ensures |run| > 1 && AllSiblings(run) && Parsed(run[m]) {
      MergedSectionsAreParsed(blocks, target, run, m);
    }
    AsParsed(run);
    HeadingsAreLinesOfTheChunk(index, run, k);
    if At(run, k) <= pos < At(run, k) + |Render(run[k])| {
      SectionTextIsInTheChunk(index, run, k, pos);
    }
    if InBody(run, k, pos) {
      ShownPathIsTheSectionsIff(run, k, pos);
    }
  }

  lemma AsParsed(run: seq<Section>)
    requires |run| > 1 && AllSiblings(run)
    requires forall m :: 0 <= m < |run| ==> Parsed(run[m])
    ensures TitlesCloseThePaths(run) && forall m :: 0 <= m < |run| ==> TrimmedTitle(run[m].title)
    ensures WellFormed(Merged(run))
  {
  }
}
