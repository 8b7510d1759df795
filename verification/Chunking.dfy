/** From sections to chunks: merging short siblings, packing long sections (internal/ingest/chunk.go). */
module Chunking {
  import opened Prelude
  import opened TokenEstimate
  import opened Parse
  import opened GreedyPacking
  import opened Packing

  const HEADING_SEPARATOR: Text := [32, 62, 32]
  const HASH: Rune := 35
  const SPACE: Rune := 32

  function PathText(titles: seq<Text>): Text {
    if titles == [] then []
    else if |titles| == 1 then titles[0]
    else PathText(titles[..|titles| - 1]) + HEADING_SEPARATOR + titles[|titles| - 1]
  }

  function Hashes(n: nat): Text { if n == 0 then [] else Hashes(n - 1) + [HASH] }

  /** A section with its heading line, or its body alone when the heading has no text. */
  function Render(s: Section): Text {
    if s.title == [] then JoinUnits(s.units)
    else Hashes(s.level) + [SPACE] + s.title + BLANK_LINE + JoinUnits(s.units)
  }

  /** Rendered sections join as paragraphs do: with a blank line. */
  function Rendered(run: seq<Section>): (r: seq<Unit>)
    ensures |r| == |run| && forall k :: 0 <= k < |run| ==> r[k] == Unit(Render(run[k]), false)
  {
    seq(|run|, k requires 0 <= k < |run| => Unit(Render(run[k]), false))
  }

  function MergedBody(run: seq<Section>): Text { JoinUnits(Rendered(run)) }

  function Parent(s: Section): seq<Text>
    requires s.path != []
  {
    s.path[..|s.path| - 1]
  }

  predicate Siblings(a: Section, b: Section) { a.path != [] && |b.path| == |a.path| && Parent(b) == Parent(a) }

  predicate AllSiblings(run: seq<Section>) { forall k :: 0 <= k < |run| ==> Siblings(run[0], run[k]) }

  predicate BodyFits(run: seq<Section>, target: int)
    requires run != [] && run[0].path != []
  {
    TextFits(PathText(Parent(run[0])), MergedBody(run), target)
  }

  /** Whether a run of sections may become one chunk under their common parent. */
  predicate Mergeable(run: seq<Section>, target: int) {
    run == [] || (AllSiblings(run) && BodyFits(run, target))
  }

  function Merges(target: int): seq<Section> -> bool { run => Mergeable(run, target) }

  lemma SubRunBodyFits(run: seq<Section>, lo: nat, hi: nat, target: int)
    requires lo < hi <= |run| && AllSiblings(run) && BodyFits(run, target)
    ensures AllSiblings(run[lo..hi]) && BodyFits(run[lo..hi], target)
  {
    var sub := run[lo..hi];
    assert Siblings(run[0], run[lo]);
    forall k | 0 <= k < |sub| ensures Siblings(sub[0], sub[k]) {
      assert sub[k] == run[lo + k];
    }
    assert Rendered(sub) == Rendered(run)[lo..hi];
    SubRangeIsLighter(Rendered(run), lo, hi);
    LighterTextFits(PathText(Parent(run[0])), MergedBody(sub), MergedBody(run), target);
  }

  lemma MergesIsMonotone(target: int)
    ensures Monotone(Merges(target))
  {
    var fits := Merges(target);
    forall run: seq<Section>, lo, hi | 0 <= lo <= hi <= |run| && fits(run) ensures fits(run[lo..hi]) {
      if lo < hi {
        SubRunBodyFits(run, lo, hi, target);
      }
    }
  }

  lemma OneSectionMore(run: seq<Section>, next: Section)
    requires run != []
    ensures MergedBody(run + [next]) == MergedBody(run) + BLANK_LINE + Render(next)
  {
    var r := Rendered(run + [next]);
    assert r[..|run|] == Rendered(run);
  }

  // ---------------------------------------------------------------- the merge loop

  /** Whether the first section of a run may merge at all, and its body. */
  method StartRun(first: Section, target: int) returns (ok: bool, body: Text)
    ensures ok == Mergeable([first], target)
    ensures ok ==> body == MergedBody([first])
  {
    body := Render(first);
    assert MergedBody([first]) == body;
    ok := first.path != [] && TextFits(PathText(Parent(first)), body, target);
  }

  /** Whether the next section joins the run whose body so far is given, and the body if it does. */
  method ExtendRun(run: seq<Section>, next: Section, body: Text, target: int) returns (ok: bool, trial: Text)
    requires run != [] && Mergeable(run, target) && body == MergedBody(run)
    ensures ok == Mergeable(run + [next], target)
    ensures ok ==> trial == MergedBody(run + [next])
  {
    trial := body + BLANK_LINE + Render(next);
    OneSectionMore(run, next);
    ghost var longer := run + [next];
    assert longer[|run|] == next && longer[0] == run[0];
    assert Siblings(run[0], next) ==> AllSiblings(longer);
    ok := Siblings(run[0], next) && TextFits(PathText(Parent(run[0])), trial, target);
  }

  lemma RunSlice(sections: seq<Section>, i: nat, j: nat)
    requires i < j <= |sections|
    ensures sections[i..][..j - i] == sections[i..j]
    ensures j < |sections| ==> sections[i..j + 1] == sections[i..j] + [sections[j]]
  {
  }

  /** The run from i reaches j exactly; or it goes on to j + 1 when that is still mergeable. */
  lemma RunReaches(sections: seq<Section>, i: nat, j: nat, target: int)
    requires i < j <= |sections|
    ensures j < |sections| && Mergeable(sections[i..j + 1], target) ==>
            Longest(Merges(target), sections[i..], j - i) == Longest(Merges(target), sections[i..], j + 1 - i)
    ensures j == |sections| || !Mergeable(sections[i..j + 1], target) ==>
            Longest(Merges(target), sections[i..], j - i) == j - i
  {
    hide Mergeable;
    if j < |sections| {
      RunSlice(sections, i, j + 1);
      assert Merges(target)(sections[i..j + 1]) == Mergeable(sections[i..j + 1], target);
    }
  }

  lemma AnUnmergeableSectionEndsItsRun(sections: seq<Section>, i: nat, target: int)
    requires i < |sections| && !Mergeable([sections[i]], target)
    ensures i + 1 < |sections| ==> !Mergeable(sections[i..i + 2], target)
  {
    hide Mergeable;
    MergesIsMonotone(target);
    assert !Merges(target)([sections[i]]);
    MisfitHasNoCompany(Merges(target), sections, i);
    if i + 1 < |sections| {
      assert sections[i..i + 2] == [sections[i]] + [sections[i + 1]];
      assert !Merges(target)(sections[i..i + 2]);
    }
  }

  /** Where the run of merging sections that starts at i ends. */
  method MergeRun(sections: seq<Section>, i: nat, target: int) returns (j: nat)
    requires i < |sections|
    ensures i < j <= |sections|
    ensures j - i == Longest(Merges(target), sections[i..], 1)
  {
    hide *;
    j := i + 1;
    assert sections[i..i + 1] == [sections[i]];
    var ok, body := StartRun(sections[i], target);
    if !ok {
      AnUnmergeableSectionEndsItsRun(sections, i, target);
      RunReaches(sections, i, j, target);
      return;
    }
    while j < |sections|
      invariant i < j <= |sections|
      invariant Longest(Merges(target), sections[i..], 1) == Longest(Merges(target), sections[i..], j - i)
      invariant Mergeable(sections[i..j], target) && body == MergedBody(sections[i..j])
    {
      var trial: Text;
      ok, trial := ExtendRun(sections[i..j], sections[j], body, target);
      RunSlice(sections, i, j);
      RunReaches(sections, i, j, target);
      if !ok {
        return;
      }
      body := trial;
      j := j + 1;
    }
    RunReaches(sections, i, j, target);
  }

  /** The run's rendered sections, joined. */
  method MergeBodies(run: seq<Section>) returns (body: Text)
    ensures body == MergedBody(run)
  {
    var parts: seq<Unit> := [];
    for k := 0 to |run|
      invariant parts == Rendered(run[..k])
    {
      parts := parts + [Unit(Render(run[k]), false)];
    }
    assert run[..|run|] == run;
    body := Join(parts);
  }

  // ---------------------------------------------------------------- what each chunk holds

  /** Copies of one separator. */
  function Copies(gap: Text, n: int): (r: seq<Text>)
    ensures |r| == Max(n, 0) && forall k :: 0 <= k < n ==> r[k] == gap
  {
    seq(Max(n, 0), _ => gap)
  }

  /** The path is its names, outermost first, with " > " between each two. */
  ghost predicate SpellsPath(text: Text, names: seq<Text>) { Strung(text, names, Copies([32, 62, 32], |names| - 1)) }

  lemma {:induction false} PathTextSpells(names: seq<Text>)
    ensures SpellsPath(PathText(names), names)
  {
    hide Strung;
    if names == [] {
      assert Strung([], [], []) by { FewUnits([]); }
      assert Copies([32, 62, 32], -1) == [];
    } else if |names| == 1 {
      StrungOne(names[0]);
      assert Copies([32, 62, 32], 0) == [] && names == [names[0]];
    } else {
      var n := |names| - 1;
      PathTextSpells(names[..n]);
      StrungOneMore(PathText(names[..n]), names[..n], Copies([32, 62, 32], n - 1), HEADING_SEPARATOR, names[n]);
      assert Copies([32, 62, 32], n) == Copies([32, 62, 32], n - 1) + [HEADING_SEPARATOR];
      assert names == names[..n] + [names[n]];
    }
  }

  /** The section's units, under its heading line if it has a title. */
  ghost predicate SpellsSection(text: Text, s: Section) {
    if s.title == [] then Spells(text, s.units)
    else exists body :: Spells(body, s.units) && text == seq(s.level, _ => 35) + [32] + s.title + [10, 10] + body
  }

  lemma {:induction false} HashesAre(n: nat)
    ensures Hashes(n) == seq(n, _ => 35)
  {
    if n == 0 {
    } else {
      HashesAre(n - 1);
    }
  }

  lemma RenderSpells(s: Section)
    ensures SpellsSection(Render(s), s)
  {
    hide Spells, JoinUnits;
    JoiningSpells(s.units);
    HashesAre(s.level);
  }

  /** Every section of the run, in order, with a blank line between each two. */
  ghost predicate SpellsRun(text: Text, run: seq<Section>) {
    exists texts: seq<Text> :: SpellsEach(texts, run) && Strung(text, texts, Copies([10, 10], |run| - 1))
  }

  ghost predicate SpellsEach(texts: seq<Text>, run: seq<Section>) {
    |texts| == |run| && forall k :: 0 <= k < |run| ==> SpellsSection(texts[k], run[k])
  }

  lemma MergedBodySpells(run: seq<Section>)
    ensures SpellsRun(MergedBody(run), run)
  {
    hide Strung, Render, SpellsSection, JoinUnits;
    var us := Rendered(run);
    JoiningSpells(us);
    forall k | 0 <= k < |run| ensures SpellsSection(Texts(us)[k], run[k]) {
      RenderSpells(run[k]);
    }
    assert Gaps(us) == Copies([10, 10], |run| - 1);
    assert SpellsEach(Texts(us), run);
  }

  /** A run of merged siblings, or some consecutive units of one section. */
  datatype Piece = Merged(run: seq<Section>) | Part(of: Section, units: seq<Unit>)

  ghost predicate WellFormed(piece: Piece) { piece.Merged? ==> |piece.run| > 1 && AllSiblings(piece.run) }

  /** The path a run's sections share: all but the last name of the first one's. */
  function Parents(run: seq<Section>): seq<Text> { if run == [] || run[0].path == [] then [] else Parent(run[0]) }

  function ChunkOf(index: nat, piece: Piece): Chunk {
    match piece
    case Merged(run) => NewChunk(index, PathText(Parents(run)), MergedBody(run))
    case Part(s, us) => NewChunk(index, PathText(s.path), JoinUnits(us))
  }

  /** The chunk says its piece, all of it and nothing else, under the path it has. */
  ghost predicate TellsPiece(c: Chunk, piece: Piece) {
    match piece
    case Merged(run) =>
      run != [] && run[0].path != []
      && exists p, text :: SpellsPath(p, run[0].path[..|run[0].path| - 1]) && SpellsRun(text, run) && Tells(c, p, text)
    case Part(s, us) =>
      exists p, text :: SpellsPath(p, s.path) && Spells(text, us) && Tells(c, p, text)
  }

  lemma ChunkOfTells(index: nat, piece: Piece)
    requires WellFormed(piece)
    ensures ChunkOf(index, piece).index == index && TellsPiece(ChunkOf(index, piece), piece)
  {
    hide NewChunk, Tells, SpellsPath, SpellsRun, Spells, PathText, MergedBody, JoinUnits;
    match piece
    case Merged(run) =>
      assert Siblings(run[0], run[0]);
      PathTextSpells(Parents(run));
      MergedBodySpells(run);
      NewChunkTells(index, PathText(Parents(run)), MergedBody(run));
    case Part(s, us) =>
      PathTextSpells(s.path);
      JoiningSpells(us);
      NewChunkTells(index, PathText(s.path), JoinUnits(us));
  }

  lemma ChunksTellTheirPieces(pieces: seq<Piece>)
    requires forall k :: 0 <= k < |pieces| ==> WellFormed(pieces[k])
    ensures forall k :: 0 <= k < |pieces| ==>
              ChunksFrom(0, pieces)[k].index == k && TellsPiece(ChunksFrom(0, pieces)[k], pieces[k])
  {
    hide ChunkOf, TellsPiece, WellFormed;
    forall k | 0 <= k < |pieces|
      ensures ChunksFrom(0, pieces)[k].index == k && TellsPiece(ChunksFrom(0, pieces)[k], pieces[k]) {
      ChunkOfTells(k, pieces[k]);
    }
  }

  function SectionPieces(s: Section, target: int): (r: seq<Piece>)
    ensures forall k :: 0 <= k < |r| ==> r[k].Part? && r[k].of == s
  {
    var fits := Fits(PathText(s.path), target);
    if fits(s.units) then [Part(s, s.units)]
    else
      var parts := Greedy(fits, s.units);
      seq(|parts|, k requires 0 <= k < |parts| => Part(s, parts[k]))
  }

  function RunPieces(run: seq<Section>, target: int): (r: seq<Piece>)
    requires |run| > 1 ==> AllSiblings(run)
    ensures forall k :: 0 <= k < |r| ==> WellFormed(r[k])
  {
    if run == [] then []
    else if |run| > 1 then [Merged(run)]
    else SectionPieces(run[0], target)
  }

  predicate RunsOfSiblings(runs: seq<seq<Section>>) {
    forall k :: 0 <= k < |runs| ==> |runs[k]| > 1 ==> AllSiblings(runs[k])
  }

  function Pieces(runs: seq<seq<Section>>, target: int): (r: seq<Piece>)
    requires RunsOfSiblings(runs)
    ensures forall k :: 0 <= k < |r| ==> WellFormed(r[k])
  {
    if runs == [] then [] else Pieces(runs[..|runs| - 1], target) + RunPieces(runs[|runs| - 1], target)
  }

  /** Each element under its number, counting from `start`. */
  function NumberedFrom<T, U>(make: (nat, T) -> U, start: nat, xs: seq<T>): (r: seq<U>)
    ensures |r| == |xs|
    ensures forall k :: 0 <= k < |xs| ==> r[k] == make(start + k, xs[k])
  {
    seq(|xs|, k requires 0 <= k < |xs| => make(start + k, xs[k]))
  }

  function ChunksFrom(start: nat, pieces: seq<Piece>): (r: seq<Chunk>)
    ensures |r| == |pieces|
  {
    NumberedFrom(ChunkOf, start, pieces)
  }

  /** Sections with a heading and no body are dropped first, so what they separated may still merge. */
  function NonEmpty(sections: seq<Section>): seq<Section> {
    if sections == [] then []
    else
      var n := |sections| - 1;
      NonEmpty(sections[..n]) + (if sections[n].units == [] then [] else [sections[n]])
  }

  function Runs(sections: seq<Section>, target: int): seq<seq<Section>> { Greedy(Merges(target), NonEmpty(sections)) }

  lemma RunsMerge(sections: seq<Section>, target: int)
    ensures RunsOfSiblings(Runs(sections, target))
    ensures Flatten(Runs(sections, target)) == NonEmpty(sections)
    ensures forall run :: run in Runs(sections, target) ==> |run| == 1 || (|run| > 1 && Mergeable(run, target))
  {
    var fits := Merges(target);
    GreedyPartitions(fits, NonEmpty(sections));
    forall run | run in Runs(sections, target) ensures |run| == 1 || (|run| > 1 && Mergeable(run, target)) {
      var k :| 0 <= k < |Runs(sections, target)| && Runs(sections, target)[k] == run;
      assert Allowed(fits, run);
    }
  }

  /** Sections whose paths differ in their last names at most. */
  predicate UnderOneParent(run: seq<Section>) {
    forall k :: 0 <= k < |run| ==>
      && run[k].path != [] && |run[k].path| == |run[0].path|
      && forall x :: 0 <= x < |run[k].path| - 1 ==> run[k].path[x] == run[0].path[x]
  }

  lemma MergeableIff(run: seq<Section>, target: int)
    requires run != []
    ensures Mergeable(run, target) <==>
              UnderOneParent(run) && HasRoom(PathText(run[0].path[..|run[0].path| - 1]), MergedBody(run), target)
  {
    hide PathText, MergedBody, HasRoom, TextFits;
    if run[0].path != [] {
      RoomIsFit(PathText(Parent(run[0])), MergedBody(run), target);
      if AllSiblings(run) {
        forall k | 0 <= k < |run| ensures Siblings(run[0], run[k]) {
        }
        forall k, x | 0 <= k < |run| && 0 <= x < |run[k].path| - 1 ensures run[k].path[x] == run[0].path[x] {
          assert Parent(run[k])[x] == Parent(run[0])[x];
        }
      }
    } else {
      assert AllSiblings(run) ==> Siblings(run[0], run[0]);
    }
  }

  /**
    No way of cutting the kept sections into consecutive runs, each a single one or under one parent
    and with room there, leaves fewer runs.
  */
  lemma MergingIsOptimal(sections: seq<Section>, runs: seq<seq<Section>>, target: int)
    requires Flatten(runs) == NonEmpty(sections)
    requires forall k :: 0 <= k < |runs| ==>
      || |runs[k]| <= 1
      || (UnderOneParent(runs[k])
          && HasRoom(PathText(runs[k][0].path[..|runs[k][0].path| - 1]), MergedBody(runs[k]), target))
    ensures |Runs(sections, target)| <= |runs|
  {
    hide Mergeable, HasRoom, PathText, MergedBody;
    forall k | 0 <= k < |runs| ensures Allowed(Merges(target), runs[k]) {
      if |runs[k]| > 1 {
        MergeableIff(runs[k], target);
      }
    }
    MergesIsMonotone(target);
    GreedyIsOptimal(Merges(target), NonEmpty(sections), runs);
  }

  // ---------------------------------------------------------------- building the chunks

  lemma ChunksFromConcat(start: nat, a: seq<Piece>, b: seq<Piece>)
    requires forall k :: 0 <= k < |a| ==> WellFormed(a[k])
    requires forall k :: 0 <= k < |b| ==> WellFormed(b[k])
    ensures forall k :: 0 <= k < |a + b| ==> WellFormed((a + b)[k])
    ensures ChunksFrom(start, a + b) == ChunksFrom(start, a) + ChunksFrom(start + |a|, b)
  {
    hide WellFormed, ChunkOf;
  }

  lemma PackedChunks(start: nat, s: Section, target: int)
    requires !Fits(PathText(s.path), target)(s.units)
    ensures ChunksFrom(start, SectionPieces(s, target)) ==
            ChunksOf(start, PathText(s.path), Greedy(Fits(PathText(s.path), target), s.units))
  {
    hide Greedy, NewChunk, PathText;
    var pieces := SectionPieces(s, target);
    forall k | 0 <= k < |pieces| ensures ChunkOf(start + k, pieces[k]) ==
        ChunkOfPart(start, PathText(s.path))(k, pieces[k].units) {
    }
  }

  /** The chunks of one section: whole when it fits, packed when it does not. */
  method SectionChunks(start: nat, s: Section, target: int) returns (out: seq<Chunk>)
    ensures out == ChunksFrom(start, SectionPieces(s, target))
  {
    hide Greedy, NewChunk, PathText;
    var p := PathText(s.path);
    var body := Join(s.units);
    if TextFits(p, body, target) {
      out := [NewChunk(start, p, body)];
    } else {
      PackedChunks(start, s, target);
      out := PackUnits(start, p, s.units, target);
    }
  }

  method RunChunks(start: nat, run: seq<Section>, target: int) returns (out: seq<Chunk>)
    requires run != [] && (|run| > 1 ==> AllSiblings(run))
    ensures out == ChunksFrom(start, RunPieces(run, target))
  {
    hide SectionPieces, NewChunk, PathText, MergedBody;
    if |run| > 1 {
      var body := MergeBodies(run);
      out := [NewChunk(start, PathText(Parent(run[0])), body)];
    } else {
      out := SectionChunks(start, run[0], target);
    }
  }

  method DropEmpty(sections: seq<Section>) returns (kept: seq<Section>)
    ensures kept == NonEmpty(sections)
  {
    kept := [];
    for k := 0 to |sections|
      invariant kept == NonEmpty(sections[..k])
    {
      assert sections[..k + 1][..k] == sections[..k];
      if sections[k].units != [] {
        kept := kept + [sections[k]];
      }
    }
    assert sections[..|sections|] == sections;
  }

  lemma OneRunMore(runs: seq<seq<Section>>, run: seq<Section>, target: int)
    requires RunsOfSiblings(runs) && (|run| > 1 ==> AllSiblings(run))
    ensures RunsOfSiblings(runs + [run])
    ensures Pieces(runs + [run], target) == Pieces(runs, target) + RunPieces(run, target)
  {
    hide RunPieces, AllSiblings;
    assert (runs + [run])[..|runs|] == runs;
  }

  lemma NextRun(sections: seq<Section>, i: nat, j: nat, target: int)
    requires i < j <= |sections| && j - i == Longest(Merges(target), sections[i..], 1)
    ensures j - i > 1 ==> AllSiblings(sections[i..j])
    ensures Greedy(Merges(target), sections[i..]) == [sections[i..j]] + Greedy(Merges(target), sections[j..])
  {
    hide Mergeable;
    var fits := Merges(target);
    var rest := sections[i..];
    LongestIsAllowed(fits, rest, 1);
    assert rest[..j - i] == sections[i..j] && rest[j - i..] == sections[j..];
    if j - i > 1 {
      assert Mergeable(sections[i..j], target);
      MergeableAreSiblings(sections[i..j], target);
    }
  }

  lemma MergeableAreSiblings(run: seq<Section>, target: int)
    requires run != [] && Mergeable(run, target)
    ensures AllSiblings(run) && BodyFits(run, target)
  {
  }

  method BuildChunks(all: seq<Section>, target: int) returns (out: seq<Chunk>)
    ensures RunsOfSiblings(Runs(all, target))
    ensures out == ChunksFrom(0, Pieces(Runs(all, target), target))
    ensures var pieces := Pieces(Runs(all, target), target);
            && |out| == |pieces| && UnitsOf(pieces) == AllUnits(all)
            && forall k :: 0 <= k < |out| ==> out[k].index == k && TellsPiece(out[k], pieces[k])
  {
    hide *;
    var sections := DropEmpty(all);
    RunsAre(all, target);
    RunsMerge(all, target);
    out := [];
    var i := 0;
    ghost var runs: seq<seq<Section>> := [];
    assert sections[0..] == sections;
    NoRuns(target);
    while i < |sections|
      invariant i <= |sections|
      invariant Greedy(Merges(target), sections) == runs + Greedy(Merges(target), sections[i..])
      invariant RunsOfSiblings(runs)
      invariant out == ChunksFrom(0, Pieces(runs, target))
    {
      var j := MergeRun(sections, i, target);
      NextRun(sections, i, j, target);
      var more := RunChunks(|out|, sections[i..j], target);
      OneRunMore(runs, sections[i..j], target);
      ChunksFromConcat(0, Pieces(runs, target), RunPieces(sections[i..j], target));
      out := out + more;
      runs := runs + [sections[i..j]];
      i := j;
    }
    assert sections[i..] == [] && runs + [] == runs;
    ChunksTellTheirPieces(Pieces(runs, target));
    ChunksConserveTheUnits(all, target);
  }

  lemma RunsAre(sections: seq<Section>, target: int)
    ensures Runs(sections, target) == Greedy(Merges(target), NonEmpty(sections))
  {
  }

  lemma NoRuns(target: int)
    ensures RunsOfSiblings([]) && Pieces([], target) == [] && ChunksFrom(0, []) == []
    ensures Greedy(Merges(target), []) == []
  {
  }

  // ---------------------------------------------------------------- nothing is lost, repeated or split

  function PieceUnits(piece: Piece): seq<Unit> {
    match piece
    case Merged(run) => AllUnits(run)
    case Part(_, us) => us
  }

  function UnitsOf(pieces: seq<Piece>): seq<Unit> {
    if pieces == [] then [] else UnitsOf(pieces[..|pieces| - 1]) + PieceUnits(pieces[|pieces| - 1])
  }

  lemma {:induction false} UnitsOfConcat(a: seq<Piece>, b: seq<Piece>)
    ensures UnitsOf(a + b) == UnitsOf(a) + UnitsOf(b)
  {
    hide PieceUnits;
    if b == [] {
      assert a + b == a;
    } else {
      var n := |b| - 1;
      assert (a + b)[..|a| + n] == a + b[..n];
      UnitsOfConcat(a, b[..n]);
    }
  }

  lemma {:induction false} AllUnitsConcat(a: seq<Section>, b: seq<Section>)
    ensures AllUnits(a + b) == AllUnits(a) + AllUnits(b)
  {
    if b == [] {
      assert a + b == a;
    } else {
      var n := |b| - 1;
      assert (a + b)[..|a| + n] == a + b[..n];
      AllUnitsConcat(a, b[..n]);
    }
  }

  lemma {:induction false} DroppingEmptySectionsKeepsTheUnits(sections: seq<Section>)
    ensures AllUnits(NonEmpty(sections)) == AllUnits(sections)
  {
    if sections == [] {
    } else {
      var n := |sections| - 1;
      DroppingEmptySectionsKeepsTheUnits(sections[..n]);
      if sections[n].units != [] {
        AllUnitsConcat(NonEmpty(sections[..n]), [sections[n]]);
        assert AllUnits([sections[n]]) == sections[n].units;
      } else {
        assert NonEmpty(sections[..n]) + [] == NonEmpty(sections[..n]);
      }
    }
  }

  lemma {:induction false} PartsHoldTheirUnits(s: Section, parts: seq<seq<Unit>>)
    ensures UnitsOf(seq(|parts|, k requires 0 <= k < |parts| => Part(s, parts[k]))) == Flatten(parts)
  {
    var pieces: seq<Piece> := seq(|parts|, k requires 0 <= k < |parts| => Part(s, parts[k]));
    if parts == [] {
    } else {
      var rest := parts[1..];
      PartsHoldTheirUnits(s, rest);
      assert pieces == [Part(s, parts[0])] + seq(|rest|, k requires 0 <= k < |rest| => Part(s, rest[k]));
      UnitsOfConcat([Part(s, parts[0])], pieces[1..]);
      assert UnitsOf([Part(s, parts[0])]) == parts[0];
    }
  }

  lemma SectionPiecesHoldItsUnits(s: Section, target: int)
    ensures UnitsOf(SectionPieces(s, target)) == s.units
  {
    hide PathText;
    var fits := Fits(PathText(s.path), target);
    if fits(s.units) {
      assert UnitsOf([Part(s, s.units)]) == s.units;
    } else {
      GreedyPartitions(fits, s.units);
      PartsHoldTheirUnits(s, Greedy(fits, s.units));
    }
  }

  lemma RunPiecesHoldItsUnits(run: seq<Section>, target: int)
    requires |run| > 1 ==> AllSiblings(run)
    ensures UnitsOf(RunPieces(run, target)) == AllUnits(run)
  {
    hide SectionPieces, AllSiblings;
    if |run| == 1 {
      SectionPiecesHoldItsUnits(run[0], target);
      assert run[..0] == [];
    } else if |run| > 1 {
      assert UnitsOf([Merged(run)]) == AllUnits(run);
    }
  }

  lemma PiecesAre(runs: seq<seq<Section>>, target: int)
    requires RunsOfSiblings(runs)
    ensures runs == [] ==> Pieces(runs, target) == []
    ensures runs != [] ==>
              && RunsOfSiblings(runs[..|runs| - 1]) && (|runs[|runs| - 1]| > 1 ==> AllSiblings(runs[|runs| - 1]))
              && Pieces(runs, target) == Pieces(runs[..|runs| - 1], target) + RunPieces(runs[|runs| - 1], target)
  {
    hide RunPieces, AllSiblings;
  }

  lemma NothingHeld()
    ensures UnitsOf([]) == [] && AllUnits([]) == [] && Flatten<Section>([]) == []
  {
  }

  lemma FlattenOne<T>(part: seq<T>)
    ensures Flatten([part]) == part
  {
  }

  lemma {:induction false} PiecesHoldTheirUnits(runs: seq<seq<Section>>, target: int)
    requires RunsOfSiblings(runs)
    ensures UnitsOf(Pieces(runs, target)) == AllUnits(Flatten(runs))
  {
    hide RunPieces, AllSiblings, PieceUnits, UnitsOf, AllUnits, Flatten, Pieces;
    PiecesAre(runs, target);
    if runs == [] {
      NothingHeld();
    } else {
      var n := |runs| - 1;
      PiecesHoldTheirUnits(runs[..n], target);
      RunPiecesHoldItsUnits(runs[n], target);
      UnitsOfConcat(Pieces(runs[..n], target), RunPieces(runs[n], target));
      assert runs == runs[..n] + [runs[n]];
      FlattenConcat(runs[..n], [runs[n]]);
      FlattenOne(runs[n]);
      AllUnitsConcat(Flatten(runs[..n]), runs[n]);
    }
  }

  /**
    The chunks hold the units of all sections exactly once, in document order and never split: chunk
    k is made of piece k, and the pieces' units are the document's.
  */
  lemma ChunksConserveTheUnits(sections: seq<Section>, target: int)
    ensures RunsOfSiblings(Runs(sections, target))
    ensures UnitsOf(Pieces(Runs(sections, target), target)) == AllUnits(sections)
  {
    RunsMerge(sections, target);
    PiecesHoldTheirUnits(Runs(sections, target), target);
    DroppingEmptySectionsKeepsTheUnits(sections);
  }

  /** A chunk is numbered by its place; a merged one fits; one over the target is a single unit. */
  ghost predicate KeepsTheTarget(piece: Piece, target: int)
    requires WellFormed(piece)
  {
    && (piece.Merged? ==> BodyFits(piece.run, target))
    && forall index: nat :: ChunkOf(index, piece).index == index &&
         (ChunkOf(index, piece).tokens > target ==> piece.Part? && |piece.units| == 1)
  }

  lemma AllowedPartKeepsTheTarget(s: Section, us: seq<Unit>, target: int)
    requires us != [] && Allowed(Fits(PathText(s.path), target), us)
    ensures KeepsTheTarget(Part(s, us), target)
  {
    hide PathText, NewChunk, TextFits, JoinUnits;
    forall index: nat ensures
        var c := ChunkOf(index, Part(s, us)); c.index == index && (c.tokens > target ==> |us| == 1) {
      NewChunkIndex(index, PathText(s.path), JoinUnits(us));
      if |us| > 1 {
        FittingTextMakesAFittingChunk(index, PathText(s.path), JoinUnits(us), target);
      }
    }
  }

  lemma NewChunkIndex(index: nat, p: Text, body: Text)
    ensures NewChunk(index, p, body).index == index && NewChunk(index, p, body).headingPath == p
  {
  }

  lemma MergedKeepsTheTarget(run: seq<Section>, target: int)
    requires |run| > 1 && Mergeable(run, target)
    ensures WellFormed(Merged(run)) && KeepsTheTarget(Merged(run), target)
  {
    hide PathText, NewChunk, TextFits, MergedBody;
    var p := PathText(Parent(run[0]));
    forall index: nat ensures
        var c := ChunkOf(index, Merged(run)); c.index == index && c.tokens <= target {
      NewChunkIndex(index, p, MergedBody(run));
      FittingTextMakesAFittingChunk(index, p, MergedBody(run), target);
    }
  }

  lemma SectionPiecesKeepTheTarget(s: Section, target: int)
    requires s.units != []
    ensures forall piece :: piece in SectionPieces(s, target) ==> piece.Part? && KeepsTheTarget(piece, target)
  {
    hide KeepsTheTarget, PathText;
    var fits := Fits(PathText(s.path), target);
    GreedyPartitions(fits, s.units);
    forall piece | piece in SectionPieces(s, target) ensures KeepsTheTarget(piece, target) {
      AllowedPartKeepsTheTarget(s, piece.units, target);
    }
  }

  lemma {:induction false} PiecesKeepTheTarget(runs: seq<seq<Section>>, target: int)
    requires RunsOfSiblings(runs)
    requires forall run :: run in runs ==> |run| == 1 || (|run| > 1 && Mergeable(run, target))
    requires forall run: seq<Section> :: run in runs && |run| == 1 ==> run[0].units != []
    ensures forall piece :: piece in Pieces(runs, target) ==> WellFormed(piece) && KeepsTheTarget(piece, target)
  {
    hide KeepsTheTarget, SectionPieces, Mergeable;
    if runs == [] {
    } else {
      var run := runs[|runs| - 1];
      PiecesKeepTheTarget(runs[..|runs| - 1], target);
      if |run| > 1 {
        MergedKeepsTheTarget(run, target);
      } else {
        SectionPiecesKeepTheTarget(run[0], target);
      }
    }
  }

  lemma {:induction false} PartsComeFromTheWhole<T>(parts: seq<seq<T>>, part: seq<T>, x: T)
    requires part in parts && x in part
    ensures x in Flatten(parts)
  {
    if part == parts[0] {
    } else {
      PartsComeFromTheWhole(parts[1..], part, x);
    }
  }

  lemma {:induction false} KeptSectionsHaveUnits(sections: seq<Section>, s: Section)
    requires s in NonEmpty(sections)
    ensures s.units != []
  {
    var n := |sections| - 1;
    if s in NonEmpty(sections[..n]) {
      KeptSectionsHaveUnits(sections[..n], s);
    }
  }

  /**
    Every chunk over the target consists of one unit, and every merged chunk fits it and joins only
    consecutive sections under one parent.
  */
  lemma OnlyASingleUnitExceedsTheTarget(sections: seq<Section>, target: int)
    ensures RunsOfSiblings(Runs(sections, target))
    ensures forall piece :: piece in Pieces(Runs(sections, target), target) ==>
              WellFormed(piece) && KeepsTheTarget(piece, target)
  {
    hide Mergeable, KeepsTheTarget, AllSiblings;
    var runs := Runs(sections, target);
    RunsMerge(sections, target);
    forall run: seq<Section> | run in runs && |run| == 1 ensures run[0].units != [] {
      PartsComeFromTheWhole(runs, run, run[0]);
      KeptSectionsHaveUnits(sections, run[0]);
    }
    PiecesKeepTheTarget(runs, target);
  }

  /** No cut of a section's units into consecutive parts, each single or with room under its path, has fewer. */
  lemma SectionsAreCutOptimally(s: Section, parts: seq<seq<Unit>>, target: int)
    requires s.units != [] && Flatten(parts) == s.units
    requires forall k :: 0 <= k < |parts| ==> |parts[k]| <= 1 || HasRoom(PathText(s.path), JoinUnits(parts[k]), target)
    ensures |SectionPieces(s, target)| <= |parts|
  {
    hide HasRoom, PathText, JoinUnits, TextFits;
    PackingIsOptimal(PathText(s.path), s.units, parts, target);
  }

  // ---------------------------------------------------------------- whole documents

  /** An upload once decoded: its bytes may not be UTF-8, and its stored format may be unknown. */
  datatype Upload = InvalidUtf8 | UnknownFormat | Markdown(blocks: seq<Block>) | PlainText(text: Text)

  datatype ChunkError = NotUtf8 | UnsupportedFormat | NoChunks | TooManyChunks(count: nat, max: int)

  function SectionsOf(upload: Upload): seq<Section>
    requires upload.Markdown? || upload.PlainText?
  {
    match upload
    case Markdown(blocks) => SectionsAt(blocks, |blocks|)
    case PlainText(text) => [Section(0, [], [], TextUnits(text))]
  }

  /** Section k is that of its heading, or the preamble, with all and only the units up to the next heading. */
  ghost predicate IsSectionOf(blocks: seq<Block>, k: nat, s: Section) {
    exists h: int, e: nat :: IsSection(blocks, |blocks|, k, s, h, e)
  }

  /** A text file is one section under no heading, and a Markdown file the sections of its blocks. */
  lemma SectionsOfAFile(text: Text, blocks: seq<Block>)
    ensures exists units ::
              SectionsOf(PlainText(text)) == [Section(0, [], [], units)] && CutAtBlankLines(SplitLines(text), units)
    ensures |SectionsOf(Markdown(blocks))| == HeadingsIn(blocks) + 1
    ensures forall k: nat :: k < |SectionsOf(Markdown(blocks))| ==> IsSectionOf(blocks, k, SectionsOf(Markdown(blocks))[k])
  {
    hide CutAtBlankLines, IsSection, SectionsAt, SplitLines, TextUnits, HeadingsIn;
    TextUnitsAreCutAtBlankLines(text);
    var _, _ := EverySectionIsItsBlocks(blocks, |blocks|, 0);
    assert blocks[..|blocks|] == blocks;
    forall k: nat | k < |SectionsOf(Markdown(blocks))| ensures IsSectionOf(blocks, k, SectionsOf(Markdown(blocks))[k]) {
      var h, e := EverySectionIsItsBlocks(blocks, |blocks|, k);
    }
  }

  /** What a readable upload is cut into, before the limit on chunks. */
  ghost function DocumentPieces(upload: Upload, target: int): (r: seq<Piece>)
    requires upload.Markdown? || upload.PlainText?
    ensures forall k :: 0 <= k < |r| ==> WellFormed(r[k])
  {
    RunsMerge(SectionsOf(upload), target);
    Pieces(Runs(SectionsOf(upload), target), target)
  }

  /** Exactly the documents with no text at all produce no chunks. */
  lemma OnlyEmptyDocumentsHaveNoChunks(upload: Upload, target: int)
    requires upload.Markdown? || upload.PlainText?
    ensures DocumentPieces(upload, target) == [] <==> AllUnits(SectionsOf(upload)) == []
  {
    var sections := SectionsOf(upload);
    ChunksConserveTheUnits(sections, target);
    DroppingEmptySectionsKeepsTheUnits(sections);
    var kept := NonEmpty(sections);
    if kept != [] {
      KeptSectionsHaveUnits(sections, kept[|kept| - 1]);
      assert AllUnits(kept) != [];
    } else {
      assert Runs(sections, target) == [];
    }
  }

  method ChunkDocument(upload: Upload, target: int, max: int) returns (r: Result<seq<Chunk>, ChunkError>)
    ensures upload.InvalidUtf8? ==> r == Err(NotUtf8)
    ensures upload.UnknownFormat? ==> r == Err(UnsupportedFormat)
    ensures upload.Markdown? || upload.PlainText? ==>
              var n := |DocumentPieces(upload, target)|;
              && (r == Err(NoChunks) <==> AllUnits(SectionsOf(upload)) == [])
              && (r == Err(TooManyChunks(n, max)) <==> n > 0 && n > max)
              && (r.Ok? <==> 0 < n <= max)
              && (r.Ok? ==>
                    && r.value == ChunksFrom(0, DocumentPieces(upload, target))
                    && forall k :: 0 <= k < n ==> TellsPiece(r.value[k], DocumentPieces(upload, target)[k]))
  {
    hide TextUnits;
    var sections: seq<Section>;
    match upload {
      case InvalidUtf8 => return Err(NotUtf8);
      case UnknownFormat => return Err(UnsupportedFormat);
      case Markdown(blocks) => sections := ParseMarkdown(blocks);
      case PlainText(text) =>
        var units := ParseText(text);
        sections := [Section(0, [], [], units)];
    }
    hide Pieces, ChunksFrom, Runs, SectionsAt, AllUnits;
    OnlyEmptyDocumentsHaveNoChunks(upload, target);
    var chunks := BuildChunks(sections, target);
    if |chunks| == 0 {
      r := Err(NoChunks);
    } else if |chunks| > max {
      r := Err(TooManyChunks(|chunks|, max));
    } else {
      r := Ok(chunks);
    }
  }
}
