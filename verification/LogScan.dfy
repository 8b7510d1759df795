/** Scanning a log file of any size through a fixed window (internal/opsmcp/logs.go). */
module LogScan {
  import opened Prelude

  const MAX_LOG_LINE_BYTES: nat := 1024 * 1024
  const READ_BUFFER_BYTES: nat := 64 * 1024
  const NEWLINE: Byte := 10
  const CARRIAGE_RETURN: Byte := 13

  // ---------------------------------------------------------------- lines, whole

  /** Everything up to and including the first newline, or everything. */
  function FirstLine(s: Bytes): (r: Bytes)
    ensures r <= s && (s != [] ==> r != [])
  {
    if s == [] || s[0] == NEWLINE then s[..if s == [] then 0 else 1]
    else [s[0]] + FirstLine(s[1..])
  }

  predicate Ended(raw: Bytes) { raw != [] && raw[|raw| - 1] == NEWLINE }

  /** The file split at its newlines, terminators kept; the last piece is what no newline ends. */
  function RawLines(s: Bytes): (r: seq<Bytes>)
    ensures r != []
    decreases |s|
  {
    var raw := FirstLine(s);
    if Ended(raw) then [raw] + RawLines(s[|raw|..]) else [raw]
  }

  function Concat(raws: seq<Bytes>): Bytes { if raws == [] then [] else raws[0] + Concat(raws[1..]) }

  /** A newline is the last byte of every line but the last, and is nowhere else. */
  ghost predicate SplitAtNewlines(raws: seq<Bytes>) {
    && raws != []
    && (forall k :: 0 <= k < |raws| - 1 ==> Ended(raws[k]) && NEWLINE !in raws[k][..|raws[k]| - 1])
    && NEWLINE !in raws[|raws| - 1]
  }

  lemma {:induction false} FirstLineHasOneNewline(s: Bytes)
    ensures var raw := FirstLine(s);
            if Ended(raw) then NEWLINE !in raw[..|raw| - 1] else raw == s && NEWLINE !in raw
  {
    if s != [] && s[0] != NEWLINE {
      FirstLineHasOneNewline(s[1..]);
      var tail := FirstLine(s[1..]);
      assert FirstLine(s) == [s[0]] + tail;
      if Ended(tail) {
        assert ([s[0]] + tail)[..|tail|] == [s[0]] + tail[..|tail| - 1];
      }
    }
  }

  lemma OneLineBefore(raw: Bytes, rest: seq<Bytes>)
    requires SplitAtNewlines(rest) && Ended(raw) && NEWLINE !in raw[..|raw| - 1]
    ensures SplitAtNewlines([raw] + rest) && Concat([raw] + rest) == raw + Concat(rest)
  {
    var raws := [raw] + rest;
    assert raws[1..] == rest;
    forall k | 0 <= k < |raws| - 1 ensures Ended(raws[k]) && raws[k] != [] && NEWLINE !in raws[k][..|raws[k]| - 1] {
      if k > 0 { assert raws[k] == rest[k - 1]; }
    }
    assert raws[|raws| - 1] == rest[|rest| - 1];
  }

  /** The raw lines are the file, cut exactly at its newlines. */
  lemma {:induction false} RawLinesSplitTheFile(s: Bytes)
    ensures Concat(RawLines(s)) == s && SplitAtNewlines(RawLines(s))
    decreases |s|
  {
    hide FirstLine, SplitAtNewlines;
    var raw := FirstLine(s);
    FirstLineHasOneNewline(s);
    if Ended(raw) {
      RawLinesSplitTheFile(s[|raw|..]);
      OneLineBefore(raw, RawLines(s[|raw|..]));
      assert s == raw + s[|raw|..];
    } else {
      OnlyLine(raw);
    }
  }

  lemma OnlyLine(raw: Bytes)
    requires NEWLINE !in raw
    ensures SplitAtNewlines([raw]) && Concat([raw]) == raw
  {
    assert Concat([raw]) == raw + Concat([raw][1..]);
  }

  function TrimEOL(line: Bytes): Bytes {
    if line != [] && (line[|line| - 1] == NEWLINE || line[|line| - 1] == CARRIAGE_RETURN)
    then TrimEOL(line[..|line| - 1])
    else line
  }

  /** Every newline and carriage return at the end goes, and nothing else. */
  lemma {:induction false} TrimEOLIs(line: Bytes)
    ensures TrimEOL(line) <= line
    ensures forall k :: |TrimEOL(line)| <= k < |line| ==> line[k] == 10 || line[k] == 13
    ensures TrimEOL(line) != [] ==> TrimEOL(line)[|TrimEOL(line)| - 1] != 10 && TrimEOL(line)[|TrimEOL(line)| - 1] != 13
  {
    if line != [] && (line[|line| - 1] == NEWLINE || line[|line| - 1] == CARRIAGE_RETURN) {
      TrimEOLIs(line[..|line| - 1]);
    } else {
    }
  }

  lemma {:induction false} FirstLineOfConcat(a: Bytes, b: Bytes)
    requires NEWLINE !in a
    ensures FirstLine(a + b) == a + FirstLine(b)
  {
    if a == [] {
      assert a + b == b;
    } else {
      assert (a + b)[1..] == a[1..] + b;
      FirstLineOfConcat(a[1..], b);
    }
  }

  lemma {:induction false} FirstLineEndsAt(s: Bytes, i: nat)
    requires i < |s| && s[i] == NEWLINE && NEWLINE !in s[..i]
    ensures FirstLine(s) == s[..i + 1]
  {
    if i == 0 {
    } else {
      assert s[0] in s[..i] && s[1..][..i - 1] == s[..i][1..];
      FirstLineEndsAt(s[1..], i - 1);
    }
  }

  lemma {:induction false} NoNewlineIsOneLine(s: Bytes)
    requires NEWLINE !in s
    ensures FirstLine(s) == s && !Ended(s)
  {
    if s == [] {
    } else {
      NoNewlineIsOneLine(s[1..]);
    }
  }

  // ---------------------------------------------------------------- the windowed reader

  datatype ReadError = BufferFull | EndOfFile

  /** A buffered reader over a file: no read returns data together with the end. */
  class Reader {
    const data: Bytes
    const window: nat
    var pos: nat

    constructor (data: Bytes, window: nat)
      ensures this.data == data && this.window == window && pos == 0
    {
      this.data, this.window, pos := data, window, 0;
    }

    ghost predicate Valid()
      reads this
    {
      window > 0 && pos <= |data|
    }

    function Rest(): Bytes
      requires Valid()
      reads this
    {
      data[pos..]
    }

    /** Through the next newline if the window reaches it; a full window; or what is left. */
    method ReadSlice() returns (chunk: Bytes, err: Option<ReadError>)
      requires Valid()
      modifies this`pos
      ensures Valid() && old(Rest()) == chunk + Rest() && |chunk| <= window
      ensures err.None? ==> chunk == FirstLine(old(Rest())) && Ended(chunk)
      ensures err.Some? ==> NEWLINE !in chunk
      ensures err == Some(BufferFull) ==> |chunk| == window
      ensures err == Some(EndOfFile) ==> chunk == old(Rest()) && |chunk| < window
    {
      ghost var rest := Rest();
      var n := 0;
      while n < window && pos + n < |data|
        invariant n <= window && pos + n <= |data| && NEWLINE !in rest[..n]
      {
        assert rest[..n + 1] == rest[..n] + [data[pos + n]];
        if data[pos + n] == NEWLINE {
          FirstLineEndsAt(rest, n);
          chunk := data[pos..pos + n + 1];
          pos := pos + n + 1;
          return chunk, None;
        }
        n := n + 1;
      }
      chunk := data[pos..pos + n];
      assert chunk == rest[..n];
      pos := pos + n;
      err := Some(if n == window then BufferFull else EndOfFile);
    }

    /** The next line without its terminator, or that it is too long; and whether the file ended. */
    method ReadLine(max: nat) returns (line: Bytes, tooLong: bool, eof: bool)
      requires Valid() && window <= max
      modifies this`pos
      ensures Valid() && old(Rest()) == FirstLine(old(Rest())) + Rest()
      ensures tooLong <==> |FirstLine(old(Rest()))| > max
      ensures !tooLong ==> line == TrimEOL(FirstLine(old(Rest())))
      ensures eof <==> !Ended(FirstLine(old(Rest())))
      ensures old(pos) + |FirstLine(old(Rest()))| == pos <= |data|
    {
      hide FirstLine, Ended, TrimEOL;
      ghost var rest := Rest();
      var chunk, err := ReadSlice();
      if err != Some(BufferFull) {
        assert rest == [] + rest;
        assert err.Some? ==> err.value.EndOfFile?;
        LineEnds([], rest, chunk, err);
        return TrimEOL(chunk), false, err.Some?;
      }
      ghost var consumed := chunk;
      var buf := chunk;
      tooLong := false;
      while true
        invariant Valid() && rest == consumed + Rest() && NEWLINE !in consumed
        invariant !tooLong ==> buf == consumed && |buf| <= max
        invariant tooLong ==> |consumed| > max && |buf| <= max
        decreases |data| - pos
      {
        ghost var before := Rest();
        chunk, err := ReadSlice();
        assert consumed + before == (consumed + chunk) + Rest();
        if |buf| + |chunk| > max {
          tooLong := true;
        } else {
          buf := buf + chunk;
        }
        if err == Some(BufferFull) {
          consumed := consumed + chunk;
          continue;
        }
        assert err.Some? ==> err.value.EndOfFile?;
        LineEnds(consumed, before, chunk, err);
        if tooLong {
          return [], true, err.Some?;
        }
        return TrimEOL(buf), false, err.Some?;
      }
    }
  }

  /** The slice that ends a line completes what was consumed of it. */
  lemma LineEnds(consumed: Bytes, before: Bytes, chunk: Bytes, err: Option<ReadError>)
    requires NEWLINE !in consumed && chunk <= before
    requires err.None? ==> chunk == FirstLine(before) && Ended(chunk)
    requires err.Some? ==> chunk == before && NEWLINE !in chunk
    ensures FirstLine(consumed + before) == consumed + chunk
    ensures err.Some? <==> !Ended(consumed + chunk)
  {
    FirstLineOfConcat(consumed, before);
    if err.Some? {
      NoNewlineIsOneLine(before);
      NoNewlineIsOneLine(consumed + before);
    }
  }

  // ---------------------------------------------------------------- what is kept and counted

  datatype Record = Record(at: Time, level: nat, text: Bytes)

  datatype Filter = Filter(
    since: Option<Time>, until: Option<Time>, minLevel: nat, contains: Bytes, limit: nat,
    parse: Bytes -> Option<Record>, lower: Bytes -> Bytes)

  predicate OccursAt(s: Bytes, sub: Bytes, i: nat) { i + |sub| <= |s| && s[i..i + |sub|] == sub }

  predicate Contains(s: Bytes, sub: Bytes) { exists i: nat :: i <= |s| && OccursAt(s, sub, i) }

  predicate Matches(f: Filter, rec: Record, raw: Bytes) {
    && rec.level >= f.minLevel
    && (f.since.Some? ==> rec.at >= f.since.value)
    && (f.until.Some? ==> rec.at < f.until.value)
    && (f.contains == [] || Contains(f.lower(raw), f.contains))
  }

  /** Every match in file order, and how many lines could not be parsed or were too long. */
  datatype Tally = Tally(matches: seq<Record>, unparseable: nat)

  function TallyLine(f: Filter, max: nat, t: Tally, raw: Bytes): Tally {
    if |raw| > max then t.(unparseable := t.unparseable + 1)
    else
      var line := TrimEOL(raw);
      if line == [] then t
      else
        match f.parse(line)
        case None => t.(unparseable := t.unparseable + 1)
        case Some(rec) => if Matches(f, rec, line) then t.(matches := t.matches + [rec]) else t
  }

  /** The line is short enough, has text, and parses as a record at or above the level, in the span and with the text. */
  ghost predicate Keeps(f: Filter, max: nat, raw: Bytes, rec: Record) {
    var line := TrimEOL(raw);
    && |raw| <= max && line != [] && f.parse(line) == Some(rec) && rec.level >= f.minLevel
    && (f.since.Some? ==> f.since.value <= rec.at) && (f.until.Some? ==> rec.at < f.until.value)
    && (f.contains == [] || exists a, b :: f.lower(line) == a + f.contains + b)
  }

  /** The line is too long, or has text that is no record. */
  predicate Unreadable(f: Filter, max: nat, raw: Bytes) {
    |raw| > max || (TrimEOL(raw) != [] && f.parse(TrimEOL(raw)) == None)
  }

  lemma ContainsIs(s: Bytes, sub: Bytes)
    ensures Contains(s, sub) <==> exists a, b :: s == a + sub + b
  {
    if Contains(s, sub) {
      var i: nat :| i <= |s| && OccursAt(s, sub, i);
      assert s == s[..i] + sub + s[i + |sub|..];
    }
    if exists a, b :: s == a + sub + b {
      var a, b :| s == a + sub + b;
      assert OccursAt(s, sub, |a|);
    }
  }

  /** A line adds its record if it keeps one, and one to the count if it cannot be read. */
  lemma TallyLineIs(f: Filter, max: nat, t: Tally, raw: Bytes)
    ensures var after := TallyLine(f, max, t, raw);
            && after.unparseable == t.unparseable + (if Unreadable(f, max, raw) then 1 else 0)
            && (forall rec :: Keeps(f, max, raw, rec) ==> after.matches == t.matches + [rec])
            && ((forall rec :: !Keeps(f, max, raw, rec)) ==> after.matches == t.matches)
  {
    hide TrimEOL, Contains;
    var line := TrimEOL(raw);
    ContainsIs(f.lower(line), f.contains);
    if |raw| <= max && line != [] && f.parse(line).Some? && Matches(f, f.parse(line).value, line) {
      assert Keeps(f, max, raw, f.parse(line).value);
    }
  }

  /** The matches are the records of exactly the lines that keep one, in the order of the lines. */
  lemma {:induction false} TheMatchesAreTheKept(f: Filter, max: nat, raws: seq<Bytes>) returns (from: seq<nat>)
    ensures var t := TallyLines(f, max, raws);
            && |from| == |t.matches|
            && (forall k :: 0 <= k < |from| ==> from[k] < |raws| && Keeps(f, max, raws[from[k]], t.matches[k]))
            && (forall j, k :: 0 <= j < k < |from| ==> from[j] < from[k])
            && forall i: nat :: i < |raws| ==> ((exists rec :: Keeps(f, max, raws[i], rec)) <==> i in from)
  {
    hide Keeps, TallyLine;
    from := [];
    if raws == [] {
    } else {
      var n := |raws| - 1;
      from := TheMatchesAreTheKept(f, max, raws[..n]);
      TallyLineIs(f, max, TallyLines(f, max, raws[..n]), raws[n]);
      var before := from;
      if rec :| Keeps(f, max, raws[n], rec) {
        from := before + [n];
      }
      forall i: nat | i < |raws| ensures (exists rec :: Keeps(f, max, raws[i], rec)) <==> i in from {
        if i < n {
          assert raws[..n][i] == raws[i] && (i in from <==> i in before);
        }
      }
    }
  }

  function UnreadableIn(f: Filter, max: nat, raws: seq<Bytes>): nat {
    if raws == [] then 0
    else UnreadableIn(f, max, raws[..|raws| - 1]) + (if Unreadable(f, max, raws[|raws| - 1]) then 1 else 0)
  }

  lemma {:induction false} TheCountIsOfTheUnreadable(f: Filter, max: nat, raws: seq<Bytes>)
    ensures TallyLines(f, max, raws).unparseable == UnreadableIn(f, max, raws)
  {
    hide TallyLine, Unreadable;
    if raws == [] {
    } else {
      TheCountIsOfTheUnreadable(f, max, raws[..|raws| - 1]);
      TallyLineIs(f, max, TallyLines(f, max, raws[..|raws| - 1]), raws[|raws| - 1]);
    }
  }

  function TallyLines(f: Filter, max: nat, raws: seq<Bytes>): Tally {
    if raws == [] then Tally([], 0)
    else TallyLine(f, max, TallyLines(f, max, raws[..|raws| - 1]), raws[|raws| - 1])
  }

  function LastOf<T>(s: seq<T>, n: nat): seq<T> { if |s| <= n then s else s[|s| - n..] }

  /** The last of them, as many as there are room for. */
  lemma LastOfIs<T>(s: seq<T>, n: nat)
    ensures |LastOf(s, n)| == Min(|s|, n) && LastOf(s, n) == s[|s| - |LastOf(s, n)|..]
  {
  }

  datatype Scan = Scan(kept: seq<Record>, matched: nat, unparseable: nat)

  /** The context is looked at before every thousandth line. */
  predicate Polled(k: nat) { k > 0 && k % 1000 == 0 }

  predicate Stopped(raws: seq<Bytes>, done: nat -> bool) { exists k :: 0 <= k < |raws| && Polled(k) && done(k) }

  /** What the scan holds after the lines in `raws`. */
  ghost predicate Tallied(f: Filter, max: nat, raws: seq<Bytes>, kept: seq<Record>, matched: nat, unparseable: nat) {
    var t := TallyLines(f, max, raws);
    matched == |t.matches| && unparseable == t.unparseable && kept == LastOf(t.matches, f.limit)
  }

  method TakeLine(f: Filter, ghost max: nat, ghost raws: seq<Bytes>, ghost raw: Bytes, line: Bytes, tooLong: bool,
                  kept0: seq<Record>, matched0: nat, unparseable0: nat)
    returns (kept: seq<Record>, matched: nat, unparseable: nat)
    requires Tallied(f, max, raws, kept0, matched0, unparseable0)
    requires (tooLong <==> |raw| > max) && (!tooLong ==> line == TrimEOL(raw))
    ensures Tallied(f, max, raws + [raw], kept, matched, unparseable)
  {
    hide Matches, TrimEOL;
    assert (raws + [raw])[..|raws|] == raws;
    kept, matched, unparseable := kept0, matched0, unparseable0;
    if tooLong {
      unparseable := unparseable + 1;
    } else if line != [] {
      match f.parse(line)
      case None => unparseable := unparseable + 1;
      case Some(rec) =>
        if Matches(f, rec, line) {
          matched := matched + 1;
          kept := kept + [rec];
          if |kept| > f.limit {
            kept := kept[1..];
          }
        }
    }
  }

  lemma OneLineMore(data: Bytes, raws: seq<Bytes>, rest: Bytes, after: Bytes)
    requires RawLines(data) == raws + RawLines(rest) && rest == FirstLine(rest) + after
    ensures var more := raws + [FirstLine(rest)];
            RawLines(data) == if Ended(FirstLine(rest)) then more + RawLines(after) else more
    ensures Ended(FirstLine(rest)) ==> |after| < |rest|
  {
    hide *;
    RawLinesOf(rest, after);
    Associates(raws, FirstLine(rest), RawLines(after));
  }

  lemma RawLinesOf(rest: Bytes, after: Bytes)
    requires rest == FirstLine(rest) + after
    ensures RawLines(rest) == if Ended(FirstLine(rest)) then [FirstLine(rest)] + RawLines(after) else [FirstLine(rest)]
    ensures Ended(FirstLine(rest)) ==> |after| < |rest|
  {
    hide FirstLine;
    assert rest[|FirstLine(rest)|..] == after;
  }

  lemma Associates<T>(a: seq<T>, x: T, b: seq<T>)
    ensures a + ([x] + b) == (a + [x]) + b
  {
  }

  /**
    Whatever the window, as long as it is no larger than the longest line accepted, the scan is that of
    the whole file split at its newlines: the last `limit` matches in order, and exact counts.
  */
  method ScanLog(data: Bytes, window: nat, max: nat, f: Filter, done: nat -> bool) returns (r: Option<Scan>)
    requires 0 < window <= max
    ensures r.None? <==> exists k: nat :: 0 < k < |RawLines(data)| && k % 1000 == 0 && done(k)
    ensures r.Some? ==> var t := TallyLines(f, max, RawLines(data));
              r.value == Scan(LastOf(t.matches, f.limit), |t.matches|, t.unparseable)
  {
    hide *;
    StoppedIs(RawLines(data), done);
    Beginning(f, max, data, done);
    var br := new Reader(data, window);
    var kept: seq<Record>, matched: nat, unparseable: nat := [], 0, 0;
    var lines := 0;
    ghost var raws: seq<Bytes> := [];
    RestOfAll(br);
    while true
      invariant br.Valid() && fresh(br) && br.window == window && |raws| == lines
      invariant RawLines(data) == raws + RawLines(br.Rest())
      invariant Tallied(f, max, raws, kept, matched, unparseable)
      invariant NotStopped(done, lines)
      decreases |br.Rest()|
    {
      if Polled(lines) && done(lines) {
        StopsAt(raws, RawLines(br.Rest()), done);
        return None;
      }
      NotStoppedYet(done, lines);
      ghost var rest := br.Rest();
      ghost var raw := FirstLine(rest);
      var line, tooLong, eof := br.ReadLine(max);
      kept, matched, unparseable := TakeLine(f, max, raws, raw, line, tooLong, kept, matched, unparseable);
      OneLineMore(data, raws, rest, br.Rest());
      raws := raws + [raw];
      lines := lines + 1;
      if eof {
        TalliedIs(f, max, raws, kept, matched, unparseable);
        NeverStopped(raws, done);
        return Some(Scan(kept, matched, unparseable));
      }
    }
  }

  /** With the window and the bound the server uses. */
  method ScanServiceLog(data: Bytes, f: Filter, done: nat -> bool) returns (r: Option<Scan>)
    ensures r.None? <==> exists k: nat :: 0 < k < |RawLines(data)| && k % 1000 == 0 && done(k)
    ensures r.Some? ==> var t := TallyLines(f, 1048576, RawLines(data));
              r.value == Scan(LastOf(t.matches, f.limit), |t.matches|, t.unparseable)
  {
    hide RawLines, TallyLines, LastOf, Stopped;
    r := ScanLog(data, READ_BUFFER_BYTES, MAX_LOG_LINE_BYTES, f, done);
  }

  lemma StoppedIs(raws: seq<Bytes>, done: nat -> bool)
    ensures Stopped(raws, done) <==> exists k: nat :: 0 < k < |raws| && k % 1000 == 0 && done(k)
  {
    if k: nat :| 0 < k < |raws| && k % 1000 == 0 && done(k) {
      assert Polled(k);
    }
  }

  ghost predicate NotStopped(done: nat -> bool, n: nat) { forall k: nat :: k < n && Polled(k) ==> !done(k) }

  lemma Beginning(f: Filter, max: nat, data: Bytes, done: nat -> bool)
    ensures Tallied(f, max, [], [], 0, 0) && NotStopped(done, 0) && [] + RawLines(data) == RawLines(data)
  {
  }

  lemma RestOfAll(br: Reader)
    requires br.pos == 0 && br.window > 0
    ensures br.Valid() && br.Rest() == br.data
  {
  }

  lemma StopsAt(raws: seq<Bytes>, rest: seq<Bytes>, done: nat -> bool)
    requires rest != [] && Polled(|raws|) && done(|raws|)
    ensures Stopped(raws + rest, done)
  {
  }

  lemma NotStoppedYet(done: nat -> bool, n: nat)
    requires NotStopped(done, n) && !(Polled(n) && done(n))
    ensures NotStopped(done, n + 1)
  {
  }

  lemma NeverStopped(raws: seq<Bytes>, done: nat -> bool)
    requires NotStopped(done, |raws|)
    ensures !Stopped(raws, done)
  {
  }

  lemma TalliedIs(f: Filter, max: nat, raws: seq<Bytes>, kept: seq<Record>, matched: nat, unparseable: nat)
    requires Tallied(f, max, raws, kept, matched, unparseable)
    ensures var t := TallyLines(f, max, raws);
            Scan(kept, matched, unparseable) == Scan(LastOf(t.matches, f.limit), |t.matches|, t.unparseable)
  {
  }
}
