/**
  A document on which merging loses a heading: "# A" with nothing under it but an untitled "##", then
  "# B". The untitled section's path is [A], so it and B count as siblings at the top level.
*/
module UntitledHeadings {
  import opened Prelude
  import opened TokenEstimate
  import opened Parse
  import opened GreedyPacking
  import opened Packing
  import opened Chunking

  const NAME_A: Text := [65]
  const NAME_B: Text := [66]
  const X := Unit([120], false)
  const Y := Unit([121], false)

  const BLOCKS: seq<Block> := [Heading(1, NAME_A), Heading(2, []), Content([X]), Heading(1, NAME_B), Content([Y])]

  const EMPTY_A := Section(1, NAME_A, [NAME_A], [])
  const UNTITLED := Section(2, [], [NAME_A], [X])
  const TITLED_B := Section(1, NAME_B, [NAME_B], [Y])

  lemma HeadingRead(blocks: seq<Block>, i: nat)
    requires i < |blocks| && blocks[i].Heading?
    ensures SectionsAt(blocks, i + 1) == SectionsAt(blocks, i) + [SectionOf(blocks, i)]
    ensures OpenAt(blocks, i + 1) == Popped(blocks, OpenAt(blocks, i), blocks[i].level) + [i]
  {
    hide Popped, PathOf;
  }

  lemma ContentRead(blocks: seq<Block>, i: nat)
    requires i < |blocks| && blocks[i].Content?
    ensures var before := SectionsAt(blocks, i);
            var last := before[|before| - 1];
            SectionsAt(blocks, i + 1) == before[..|before| - 1] + [last.(units := last.units + blocks[i].units)]
    ensures OpenAt(blocks, i + 1) == OpenAt(blocks, i)
  {
    hide Popped, PathOf;
  }

  lemma OpenHeadings()
    ensures OpenAt(BLOCKS, 0) == [] && OpenAt(BLOCKS, 1) == [0] && OpenAt(BLOCKS, 2) == [0, 1]
    ensures OpenAt(BLOCKS, 3) == [0, 1] && OpenAt(BLOCKS, 4) == [3]
  {
    HeadingRead(BLOCKS, 0);
    HeadingRead(BLOCKS, 1);
    ContentRead(BLOCKS, 2);
    HeadingRead(BLOCKS, 3);
    assert Popped(BLOCKS, [], 1) == [] && Popped(BLOCKS, [0], 2) == [0];
    assert [0, 1][..1] == [0] && [0][..0] == [];
    assert Popped(BLOCKS, [0], 1) == [];
    assert Popped(BLOCKS, [0, 1], 1) == [];
  }

  lemma Paths()
    ensures PathOf(BLOCKS, [0]) == [NAME_A] && PathOf(BLOCKS, [0, 1]) == [NAME_A] && PathOf(BLOCKS, [3]) == [NAME_B]
  {
    assert [0][..0] == [] && [0, 1][..1] == [0] && [3][..0] == [];
  }

  lemma Sections()
    ensures SectionsAt(BLOCKS, 5) == [PREAMBLE, EMPTY_A, UNTITLED, TITLED_B]
  {
    OpenHeadings();
    Paths();
    HeadingRead(BLOCKS, 0);
    HeadingRead(BLOCKS, 1);
    ContentRead(BLOCKS, 2);
    HeadingRead(BLOCKS, 3);
    ContentRead(BLOCKS, 4);
    hide OpenAt, PathOf, SectionsAt;
    Start();
    var none: seq<Unit> := [];
    assert none + [X] == [X] && none + [Y] == [Y];
    assert SectionsAt(BLOCKS, 1) == [PREAMBLE, EMPTY_A];
    assert SectionsAt(BLOCKS, 2) == [PREAMBLE, EMPTY_A, UNTITLED.(units := [])];
    assert SectionsAt(BLOCKS, 3) == [PREAMBLE, EMPTY_A, UNTITLED];
    assert SectionsAt(BLOCKS, 4) == [PREAMBLE, EMPTY_A, UNTITLED, TITLED_B.(units := [])];
  }

  lemma Start()
    ensures SectionsAt(BLOCKS, 0) == [PREAMBLE]
  {
  }

  lemma Kept(a: Section, b: Section, c: Section, d: Section)
    requires a.units == [] && b.units == [] && c.units != [] && d.units != []
    ensures NonEmpty([a, b, c, d]) == [c, d]
  {
    assert [a, b, c, d][..3] == [a, b, c] && [a, b, c][..2] == [a, b] && [a, b][..1] == [a] && [a][..0] == [];
    assert NonEmpty([a]) == [];
    assert NonEmpty([a, b]) == [];
    assert NonEmpty([a, b, c]) == [c];
  }

  lemma {:induction false} LatinWeight(s: Text)
    requires forall k :: 0 <= k < |s| ==> s[k] < 0x3000
    ensures Weight(s) == 3 * |s|
  {
    if s == [] {
    } else {
      LatinWeight(s[..|s| - 1]);
    }
  }

  lemma Body()
    ensures MergedBody([UNTITLED, TITLED_B]) == [120, 10, 10, 35, 32, 66, 10, 10, 121]
  {
    OneSectionMore([UNTITLED], TITLED_B);
    assert [UNTITLED] + [TITLED_B] == [UNTITLED, TITLED_B];
    assert Rendered([UNTITLED]) == [X];
    assert Hashes(1) == [HASH] by { assert Hashes(0) == []; }
    assert JoinUnits([X]) == X.text && JoinUnits([Y]) == Y.text;
    hide JoinUnits, Hashes;
    assert Render(TITLED_B) == [35, 32, 66, 10, 10, 121];
  }

  lemma TheyMerge(target: int)
    requires target >= 3
    ensures Mergeable([UNTITLED, TITLED_B], target)
  {
    Body();
    LatinWeight(MergedBody([UNTITLED, TITLED_B]));
    hide MergedBody, Weight;
    assert Parent(UNTITLED) == [] == Parent(TITLED_B);
  }

  lemma OnePairMerges(a: Section, b: Section, target: int)
    requires Mergeable([a, b], target)
    ensures Greedy(Merges(target), [a, b]) == [[a, b]]
  {
    hide Mergeable;
    var fits := Merges(target);
    assert [a, b][..2] == [a, b] && [a, b][2..] == [];
    assert fits([a, b]);
    assert Longest(fits, [a, b], 1) == 2;
  }

  lemma NothingToTrim(s: Text)
    requires s != [] && s[0] != NEWLINE && s[|s| - 1] != NEWLINE
    ensures TrimRight(TrimLeft(s)) == s
  {
  }

  lemma WhatTheChunkHolds(index: nat)
    ensures AllSiblings([UNTITLED, TITLED_B])
    ensures ChunkOf(index, Merged([UNTITLED, TITLED_B])).content == [120, 10, 10, 35, 32, 66, 10, 10, 121]
  {
    var run := [UNTITLED, TITLED_B];
    Body();
    NothingToTrim(MergedBody(run));
    hide MergedBody, TrimLeft, TrimRight, Tokens;
    assert PathText(Parent(run[0])) == [];
  }

  /** The document becomes one chunk, and the heading "A" is nowhere in it. */
  lemma AnUntitledSectionLosesItsAncestor(target: int)
    requires target >= 3
    ensures Runs(SectionsAt(BLOCKS, 5), target) == [[UNTITLED, TITLED_B]]
    ensures UNTITLED.path == [NAME_A] && AllSiblings([UNTITLED, TITLED_B])
    ensures forall index: nat :: NAME_A[0] !in ChunkOf(index, Merged([UNTITLED, TITLED_B])).content
  {
    hide MergedBody, SectionsAt, Tokens, Greedy, NonEmpty, Mergeable, NewChunk;
    Sections();
    Kept(PREAMBLE, EMPTY_A, UNTITLED, TITLED_B);
    TheyMerge(target);
    OnePairMerges(UNTITLED, TITLED_B, target);
    forall index: nat ensures NAME_A[0] !in ChunkOf(index, Merged([UNTITLED, TITLED_B])).content {
      WhatTheChunkHolds(index);
    }
    WhatTheChunkHolds(0);
  }
}
