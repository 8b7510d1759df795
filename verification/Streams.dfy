/**
  A run's event stream and the connection that follows it (internal/events/events.go,
  internal/events/read.go, internal/api/sse.go). An entry's id is one number here; the stream orders
  its two-part ids the same way.
*/
module Streams {
  import opened Prelude

  datatype Entry = Entry(id: nat, name: Bytes, data: Bytes)

  // "run.finished"
  const RUN_FINISHED: Bytes := [114, 117, 110, 46, 102, 105, 110, 105, 115, 104, 101, 100]

  /** Whether the entry has the fields a publisher writes. */
  predicate Readable(e: Entry) { e.name != [] && e.data != [] }

  /** The range after a cursor excludes it; an empty cursor is before everything. */
  predicate Beyond(after: Option<nat>, id: nat) { after.None? || id > after.value }

  predicate Increasing(es: seq<Entry>) { forall i, j :: 0 <= i < j < |es| ==> es[i].id < es[j].id }

  // ---------------------------------------------------------------- the stream

  /** What other processes do to the stream. Every publish may also drop a prefix, to bound its length. */
  datatype Op = Publish(name: Bytes, data: Bytes, gap: nat, dropped: nat) | Trim

  /** What the publishes among the operations say, in order. */
  function Published(ops: seq<Op>): seq<(Bytes, Bytes)> {
    if ops == [] then []
    else
      var op := ops[|ops| - 1];
      Published(ops[..|ops| - 1]) + (if op.Publish? then [(op.name, op.data)] else [])
  }

  function Contents(es: seq<Entry>): (r: seq<(Bytes, Bytes)>)
    ensures |r| == |es| && forall k :: 0 <= k < |r| ==> r[k] == (es[k].name, es[k].data)
  {
    seq(|es|, k requires 0 <= k < |es| => (es[k].name, es[k].data))
  }

  /** Everything ever published, of which the first `trimmed` entries are gone. */
  class RunStream {
    var history: seq<Entry>
    var trimmed: nat

    constructor ()
      ensures Valid() && history == [] && trimmed == 0
    {
      history, trimmed := [], 0;
    }

    ghost predicate Valid()
      reads this
    {
      Increasing(history) && trimmed <= |history|
    }

    /** The stream keeps its last id through a trim, so a new entry sorts after every old one. */
    method Publish(name: Bytes, data: Bytes, gap: nat, dropped: nat)
      requires Valid()
      modifies this
      ensures Valid() && old(trimmed) <= trimmed
      ensures trimmed == Min(old(trimmed) + dropped, |history|)
      ensures exists id :: history == old(history) + [Entry(id, name, data)]
    {
      var last := if history == [] then 0 else history[|history| - 1].id;
      history := history + [Entry(last + 1 + gap, name, data)];
      trimmed := Min(trimmed + dropped, |history|);
    }

    method Trim()
      requires Valid()
      modifies this
      ensures Valid() && history == old(history) && trimmed == |history|
    {
      trimmed := |history|;
    }

    method Apply(ops: seq<Op>)
      requires Valid()
      modifies this
      ensures Valid() && old(history) <= history && old(trimmed) <= trimmed
      ensures Contents(history[|old(history)|..]) == Published(ops)
    {
      for k := 0 to |ops|
        invariant Valid() && old(history) <= history && old(trimmed) <= trimmed
        invariant Contents(history[|old(history)|..]) == Published(ops[..k])
      {
        assert ops[..k + 1][..k] == ops[..k];
        match ops[k]
        case Publish(name, data, gap, dropped) => Publish(name, data, gap, dropped);
        case Trim => Trim();
      }
      assert ops[..|ops|] == ops;
    }

    /** The entries still held after the cursor, oldest first, and where they start. */
    method Range(after: Option<nat>) returns (msgs: seq<Entry>, from: nat)
      requires Valid()
      ensures trimmed <= from <= |history| && msgs == history[from..]
      ensures forall i :: trimmed <= i < from ==> !Beyond(after, history[i].id)
      ensures forall i :: from <= i < |history| ==> Beyond(after, history[i].id)
    {
      var k := trimmed;
      while k < |history| && !Beyond(after, history[k].id)
        invariant trimmed <= k <= |history|
        invariant forall i :: trimmed <= i < k ==> !Beyond(after, history[i].id)
      {
        k := k + 1;
      }
      return history[k..], k;
    }
  }

  // ---------------------------------------------------------------- what a connection has read

  function At(history: seq<Entry>, taken: seq<nat>): (r: seq<Entry>)
    requires forall k :: 0 <= k < |taken| ==> taken[k] < |history|
    ensures |r| == |taken| && forall k :: 0 <= k < |r| ==> r[k] == history[taken[k]]
  {
    seq(|taken|, k requires 0 <= k < |taken| => history[taken[k]])
  }

  /** The readable entries, in order. */
  function Good(es: seq<Entry>): seq<Entry> {
    if es == [] then []
    else
      var n := |es| - 1;
      Good(es[..n]) + (if Readable(es[n]) then [es[n]] else [])
  }

  predicate Ascending(taken: seq<nat>) { forall i, j :: 0 <= i < j < |taken| ==> taken[i] < taken[j] }

  /**
    The entries up to `seen` have been dealt with: each was read once, in order, unless it was trimmed
    before it could be or lay at or before the starting cursor.
  */
  ghost predicate Covered(history: seq<Entry>, trimmed: nat, start: Option<nat>, taken: seq<nat>, seen: nat) {
    && seen <= |history| && Ascending(taken)
    && (forall k :: 0 <= k < |taken| ==> taken[k] < seen && Beyond(start, history[taken[k]].id))
    && forall i :: trimmed <= i < seen && Beyond(start, history[i].id) ==> i in taken
  }

  /** The cursor is past everything read and before everything unread. */
  ghost predicate Cursor(history: seq<Entry>, trimmed: nat, start: Option<nat>, after: Option<nat>, seen: nat)
    requires seen <= |history|
  {
    && (start.Some? ==> after.Some? && start.value <= after.value)
    && (after == start || (after.Some? && exists i :: 0 <= i < seen && history[i].id == after.value))
    && (forall i :: trimmed <= i < seen ==> !Beyond(after, history[i].id))
    && (forall i :: seen <= i < |history| && Beyond(start, history[i].id) ==> Beyond(after, history[i].id))
  }

  predicate NoneFinish(es: seq<Entry>) { forall k :: 0 <= k < |es| ==> es[k].name != RUN_FINISHED }

  /** Every readable entry read so far has been written, in order, and nothing else. */
  ghost predicate Follows(history: seq<Entry>, trimmed: nat, start: Option<nat>, after: Option<nat>, taken: seq<nat>,
                          seen: nat, frames: seq<Entry>) {
    && Covered(history, trimmed, start, taken, seen)
    && Cursor(history, trimmed, start, after, seen)
    && frames == Good(At(history, taken)) && NoneFinish(frames)
  }

  /** What a finished connection leaves: the last entry read may be the one that ended it. */
  ghost predicate Closes(ending: Ending, history: seq<Entry>, trimmed: nat, start: Option<nat>, taken: seq<nat>,
                         seen: nat, frames: seq<Entry>) {
    && Covered(history, trimmed, start, taken, seen)
    && match ending
       case Open => false
       case Finished =>
         && frames == Good(At(history, taken)) && frames != []
         && frames[|frames| - 1].name == RUN_FINISHED && NoneFinish(frames[..|frames| - 1])
       case WriteFailed =>
         taken != [] && frames == Good(At(history, taken[..|taken| - 1])) && NoneFinish(frames)
       case _ => frames == Good(At(history, taken)) && NoneFinish(frames)
  }

  datatype Ending = Open | Finished | WriteFailed | ReadFailed | Terminal | Left

  /**
    One turn of the connection: what happened before its read, whether the read failed, what happened
    between the read and the look at the row, and what the row says.
  */
  datatype Round = Round(ops: seq<Op>, fails: bool, late: seq<Op>, terminal: bool)

  class Connection {
    const stream: RunStream
    const start: Option<nat>
    const writeFails: nat -> bool

    var after: Option<nat>
    var frames: seq<Entry>
    var attempts: nat

    ghost var taken: seq<nat>
    ghost var seen: nat

    constructor (stream: RunStream, start: Option<nat>, writeFails: nat -> bool)
      requires stream.Valid()
      ensures Following()
      ensures this.stream == stream && this.start == start && this.writeFails == writeFails
      ensures after == start && frames == [] && taken == [] && seen == 0
    {
      this.stream, this.start, this.writeFails := stream, start, writeFails;
      after, frames, attempts, taken, seen := start, [], 0, [], 0;
    }

    ghost predicate Following()
      reads this, stream
    {
      stream.Valid() && Follows(stream.history, stream.trimmed, start, after, taken, seen, frames)
    }

    ghost predicate Closed(ending: Ending)
      reads this, stream
    {
      stream.Valid() && Closes(ending, stream.history, stream.trimmed, start, taken, seen, frames)
    }

    method Send(e: Entry) returns (ending: Ending)
      modifies this`frames, this`attempts
      ensures ending == Open || ending == Finished || ending == WriteFailed
      ensures ending == WriteFailed ==> frames == old(frames)
      ensures ending != WriteFailed ==> frames == old(frames) + [e] && (ending == Finished <==> e.name == RUN_FINISHED)
    {
      attempts := attempts + 1;
      if writeFails(attempts) {
        return WriteFailed;
      }
      frames := frames + [e];
      return if e.name == RUN_FINISHED then Finished else Open;
    }

    /** Hands on each entry, and says how far it read: a malformed one is skipped but still counts as read. */
    method Deliver(msgs: seq<Entry>) returns (last: Option<nat>, ending: Ending, ghost n: nat)
      modifies this`frames, this`attempts
      ensures n <= |msgs| && last == (if n == 0 then None else Some(msgs[n - 1].id))
      ensures Delivered(msgs, n, ending, old(frames), frames)
    {
      hide Good, NoneFinish;
      last, ending, n := None, Open, 0;
      GoodOfNone(frames);
      for k := 0 to |msgs|
        invariant ending == Open && n == k && last == (if k == 0 then None else Some(msgs[k - 1].id))
        invariant frames == old(frames) + Good(msgs[..k]) && NoneFinish(Good(msgs[..k]))
      {
        GoodOfOneMore(msgs, k, old(frames));
        last, n := Some(msgs[k].id), k + 1;
        if Readable(msgs[k]) {
          ending := Send(msgs[k]);
          if ending != Open {
            return;
          }
        }
      }
      assert msgs[..|msgs|] == msgs;
    }

    /** Reads what is there after the cursor and writes it out. */
    method Read() returns (ending: Ending)
      requires Following()
      modifies this
      ensures ending == Open ==> Following() && seen == |stream.history|
      ensures ending != Open ==> Closed(ending) && (ending == Finished || ending == WriteFailed)
      ensures old(frames) <= frames
      ensures old(seen) == |stream.history| ==> ending == Open && frames == old(frames)
    {
      hide Follows, Closes, Delivered;
      var msgs, from := stream.Range(after);
      var last;
      ghost var n;
      last, ending, n := Deliver(msgs);
      ReadStep(stream.history, stream.trimmed, start, after, taken, seen, old(frames), from, n, ending, frames);
      taken := taken + Interval(from, n);
      seen := if n == |msgs| then |stream.history| else from + n;
      if last.Some? {
        after := last;
      }
    }

    /** The rest of the world moves on: entries are published and trimmed. */
    method Elapse(ops: seq<Op>)
      requires Following()
      modifies stream
      ensures Following() && old(stream.history) <= stream.history
      ensures Contents(stream.history[|old(stream.history)|..]) == Published(ops)
    {
      hide Follows, Published;
      ghost var history, trimmed := stream.history, stream.trimmed;
      stream.Apply(ops);
      StillFollows(history, trimmed, stream.history, stream.trimmed, start, after, taken, seen, frames);
    }

    /**
      One turn: a read, and after an idle one a look at the row. What is published between the two is
      all that this turn leaves unread.
    */
    method Turn(round: Round, first: bool) returns (ending: Ending)
      requires Following()
      modifies this, stream
      ensures if ending == Open then Following() else Closed(ending)
      ensures ending != Left && (ending == ReadFailed <==> round.fails)
      ensures ending == Open || ending == Terminal ==>
                && seen == |old(stream.history)| + |Published(round.ops)|
                && seen <= |stream.history| && Contents(stream.history[seen..]) == Published(round.late)
      ensures ending == Terminal ==> !first && frames == old(frames) && round.terminal
      ensures ending == Open ==> first || |old(frames)| < |frames| || !round.terminal
      ensures old(seen) == |old(stream.history)| && Published(round.ops) == [] && !round.fails ==>
                ending == (if !first && round.terminal then Terminal else Open) && frames == old(frames)
      ensures old(frames) <= frames && old(stream.history) <= stream.history
    {
      hide Follows, Closes, Published;
      Elapse(round.ops);
      if round.fails {
        StopsShort(ReadFailed);
        return ReadFailed;
      }
      var written := |frames|;
      ending := Read();
      if ending != Open {
        return;
      }
      Elapse(round.late);
      if !first && |frames| == written && round.terminal {
        StopsShort(Terminal);
        return Terminal;
      }
    }

    /**
      The whole connection: one replay from the client's id, then a follow a round until the run is
      finished, something fails or the client leaves. An ending that is neither a finish nor a failure
      leaves unread exactly what its last turn was too late for.
    */
    method Serve(rounds: seq<Round>) returns (ending: Ending, ghost turns: nat)
      requires Following()
      modifies this, stream
      ensures Closed(ending) && turns <= |rounds|
      ensures forall k :: 0 <= k < turns - 1 ==> !rounds[k].fails
      ensures ending == Left ==> turns == |rounds| && (turns > 0 ==> !rounds[turns - 1].fails)
      ensures ending != Left ==> turns > 0 && (ending == ReadFailed <==> rounds[turns - 1].fails)
      ensures ending == Terminal ==> turns > 1 && rounds[turns - 1].terminal
      ensures (ending == Left && turns > 0) || ending == Terminal ==>
                seen <= |stream.history| && Contents(stream.history[seen..]) == Published(rounds[turns - 1].late)
    {
      hide Follows, Closes, Published;
      turns := 0;
      for k := 0 to |rounds|
        invariant turns == k && Following() && forall i :: 0 <= i < k ==> !rounds[i].fails
        invariant k > 0 ==> seen <= |stream.history| && Contents(stream.history[seen..]) == Published(rounds[k - 1].late)
      {
        ending := Turn(rounds[k], k == 0);
        turns := k + 1;
        if ending != Open {
          return;
        }
      }
      StopsShort(Left);
      return Left, turns;
    }

    lemma StopsShort(ending: Ending)
      requires Following() && (ending == ReadFailed || ending == Terminal || ending == Left)
      ensures Closed(ending)
    {
      hide Covered, Cursor, Good, NoneFinish;
    }
  }

  /** Publishing only appends later ids and trimming only removes: neither disturbs the cursor. */
  lemma StillFollows(history: seq<Entry>, trimmed: nat, history': seq<Entry>, trimmed': nat, start: Option<nat>,
                     after: Option<nat>, taken: seq<nat>, seen: nat, frames: seq<Entry>)
    requires Increasing(history') && history <= history' && trimmed <= trimmed' <= |history'|
    requires Follows(history, trimmed, start, after, taken, seen, frames)
    ensures Follows(history', trimmed', start, after, taken, seen, frames)
  {
    hide Good, NoneFinish;
    forall k | 0 <= k < |taken| ensures history'[taken[k]] == history[taken[k]] {
    }
    assert At(history', taken) == At(history, taken);
    StillCovered(history, trimmed, history', trimmed', start, after, taken, seen);
  }

  lemma StillCovered(history: seq<Entry>, trimmed: nat, history': seq<Entry>, trimmed': nat, start: Option<nat>,
                     after: Option<nat>, taken: seq<nat>, seen: nat)
    requires Increasing(history') && history <= history' && trimmed <= trimmed' <= |history'|
    requires Covered(history, trimmed, start, taken, seen) && Cursor(history, trimmed, start, after, seen)
    ensures Covered(history', trimmed', start, taken, seen) && Cursor(history', trimmed', start, after, seen)
  {
    forall i | 0 <= i < |history| ensures history'[i] == history[i] {
    }
  }

  lemma ReadStep(history: seq<Entry>, trimmed: nat, start: Option<nat>, after: Option<nat>, taken: seq<nat>, seen: nat,
                 before: seq<Entry>, from: nat, n: nat, ending: Ending, frames: seq<Entry>)
    requires Increasing(history) && Follows(history, trimmed, start, after, taken, seen, before)
    requires trimmed <= from <= |history| && Delivered(history[from..], n, ending, before, frames)
    requires forall i :: trimmed <= i < from ==> !Beyond(after, history[i].id)
    requires forall i :: from <= i < |history| ==> Beyond(after, history[i].id)
    ensures from + n <= |history| && before <= frames
    ensures ending == Open || ending == Finished || ending == WriteFailed
    ensures ending == Open ==> from + n == |history| && Follows(history, trimmed, start,
              if n == 0 then after else Some(history[from + n - 1].id), taken + Interval(from, n), |history|, frames)
    ensures ending != Open ==> Closes(ending, history, trimmed, start, taken + Interval(from, n), from + n, frames)
    ensures seen == |history| ==> ending == Open && frames == before
  {
    hide Covered, Cursor, Good, NoneFinish, Increasing;
    var msgs := history[from..];
    GoodOfNone(before);
    if seen == |history| && from < |history| {
      NothingUnread(history, trimmed, start, after, seen, from);
    }
    Reaches(history, trimmed, start, after, taken, seen, from, n);
    AtInterval(history, trimmed, start, taken, seen, from, n);
    GoodOfRead(At(history, taken), msgs, n);
    NoneFinishConcat(before, frames);
    if ending == WriteFailed {
      WriteFailedStep(history, trimmed, start, taken, seen, from, n);
    }
  }

  /** Without the entry whose write failed. */
  lemma WriteFailedStep(history: seq<Entry>, trimmed: nat, start: Option<nat>, taken: seq<nat>, seen: nat, from: nat, n: nat)
    requires Covered(history, trimmed, start, taken, seen) && n > 0 && from + n <= |history|
    ensures var all := taken + Interval(from, n);
            var sent := all[..|all| - 1];
            && (forall k :: 0 <= k < |sent| ==> sent[k] < |history|)
            && Good(At(history, sent)) == Good(At(history, taken)) + Good(history[from..][..n - 1])
  {
    hide Good;
    AtInterval(history, trimmed, start, taken, seen, from, n - 1);
    GoodOfRead(At(history, taken), history[from..], n - 1);
    assert (taken + Interval(from, n))[..|taken| + n - 1] == taken + Interval(from, n - 1);
  }

  lemma NothingUnread(history: seq<Entry>, trimmed: nat, start: Option<nat>, after: Option<nat>, seen: nat, from: nat)
    requires seen == |history| && Cursor(history, trimmed, start, after, seen) && trimmed <= from < |history|
    ensures !Beyond(after, history[from].id)
  {
  }

  lemma NoneFinishConcat(before: seq<Entry>, frames: seq<Entry>)
    requires NoneFinish(before) && before <= frames
    ensures NoneFinish(frames) <==> NoneFinish(frames[|before|..])
    ensures |frames| > |before| ==>
              (NoneFinish(frames[..|frames| - 1]) <==> NoneFinish(frames[|before|..|frames| - 1]))
  {
    forall k | 0 <= k < |frames| - |before| ensures frames[|before|..][k] == frames[|before| + k] {
    }
  }

  /** The first n entries were handled: all of them, or up to the one that ended the connection. */
  ghost predicate Delivered(msgs: seq<Entry>, n: nat, ending: Ending, before: seq<Entry>, frames: seq<Entry>) {
    && n <= |msgs|
    && match ending
       case Open => n == |msgs| && frames == before + Good(msgs) && NoneFinish(Good(msgs))
       case Finished =>
         && n > 0 && Readable(msgs[n - 1]) && msgs[n - 1].name == RUN_FINISHED
         && frames == before + Good(msgs[..n - 1]) + [msgs[n - 1]] && NoneFinish(Good(msgs[..n - 1]))
       case WriteFailed => n > 0 && frames == before + Good(msgs[..n - 1]) && NoneFinish(Good(msgs[..n - 1]))
       case _ => false
  }

  lemma GoodOfNone(frames: seq<Entry>)
    ensures Good([]) == [] && NoneFinish([]) && frames + Good([]) == frames
  {
  }

  lemma GoodOfOneMore(msgs: seq<Entry>, k: nat, frames: seq<Entry>)
    requires k < |msgs|
    ensures Readable(msgs[k]) ==> Good(msgs[..k + 1]) == Good(msgs[..k]) + [msgs[k]]
    ensures Readable(msgs[k]) ==> frames + Good(msgs[..k + 1]) == frames + Good(msgs[..k]) + [msgs[k]]
    ensures !Readable(msgs[k]) ==> Good(msgs[..k + 1]) == Good(msgs[..k])
    ensures NoneFinish(Good(msgs[..k])) && msgs[k].name != RUN_FINISHED ==> NoneFinish(Good(msgs[..k + 1]))
  {
    assert msgs[..k + 1][..k] == msgs[..k];
  }

  lemma {:induction false} GoodConcat(a: seq<Entry>, b: seq<Entry>)
    ensures Good(a + b) == Good(a) + Good(b)
  {
    if b == [] {
      assert a + b == a;
    } else {
      var n := |b| - 1;
      assert (a + b)[..|a| + n] == a + b[..n];
      GoodConcat(a, b[..n]);
    }
  }

  lemma GoodOfRead(before: seq<Entry>, msgs: seq<Entry>, n: nat)
    requires n <= |msgs|
    ensures Good(before + msgs[..n]) == Good(before) + Good(msgs[..n])
    ensures n > 0 && Readable(msgs[n - 1]) ==> Good(before + msgs[..n]) == Good(before) + Good(msgs[..n - 1]) + [msgs[n - 1]]
    ensures n == |msgs| ==> msgs[..n] == msgs
  {
    GoodConcat(before, msgs[..n]);
    if n > 0 {
      GoodOfOneMore(msgs, n - 1, Good(before));
    }
  }

  function Interval(from: nat, n: nat): (r: seq<nat>)
    ensures |r| == n && forall k :: 0 <= k < n ==> r[k] == from + k
  {
    seq(n, k requires 0 <= k < n => from + k)
  }

  lemma AtInterval(history: seq<Entry>, trimmed: nat, start: Option<nat>, taken: seq<nat>, seen: nat, from: nat, n: nat)
    requires Covered(history, trimmed, start, taken, seen) && from + n <= |history|
    ensures forall k :: 0 <= k < |taken| ==> taken[k] < |history|
    ensures forall k :: 0 <= k < |taken + Interval(from, n)| ==> (taken + Interval(from, n))[k] < |history|
    ensures At(history, taken + Interval(from, n)) == At(history, taken) + history[from..][..n]
  {
  }

  /** What a read of n entries from `from` on adds. */
  lemma Reaches(history: seq<Entry>, trimmed: nat, start: Option<nat>, after: Option<nat>, taken: seq<nat>,
                seen: nat, from: nat, n: nat)
    requires Increasing(history) && trimmed <= from && from + n <= |history|
    requires Covered(history, trimmed, start, taken, seen) && Cursor(history, trimmed, start, after, seen)
    requires forall i :: trimmed <= i < from ==> !Beyond(after, history[i].id)
    requires forall i :: from <= i < |history| ==> Beyond(after, history[i].id)
    ensures var to := if from + n == |history| then |history| else from + n;
            && Covered(history, trimmed, start, taken + Interval(from, n), to)
            && (from + n == |history| ==>
                  Cursor(history, trimmed, start, if n == 0 then after else Some(history[from + n - 1].id), |history|))
  {
    assert from < |history| ==> Beyond(after, history[from].id);
    TakenMore(history, trimmed, start, after, taken, seen, from, n);
  }

  lemma TakenMore(history: seq<Entry>, trimmed: nat, start: Option<nat>, after: Option<nat>, taken: seq<nat>,
                  seen: nat, from: nat, n: nat)
    requires Increasing(history) && trimmed <= from && from + n <= |history| && (from == |history| || seen <= from)
    requires Covered(history, trimmed, start, taken, seen) && Cursor(history, trimmed, start, after, seen)
    requires forall i :: trimmed <= i < from ==> !Beyond(after, history[i].id)
    requires forall i :: from <= i < |history| ==> Beyond(after, history[i].id)
    ensures Covered(history, trimmed, start, taken + Interval(from, n), from + n)
    ensures from + n == |history| ==>
              Cursor(history, trimmed, start, if n == 0 then after else Some(history[from + n - 1].id), |history|)
  {
    CoversMore(history, trimmed, start, after, taken, seen, from, n);
    hide Covered, Interval, Cursor;
    if from + n == |history| {
      SeenIsInTheHistory(history, trimmed, start, taken, seen);
      if n == 0 {
        CursorStays(history, trimmed, start, after, seen);
      } else {
        CursorMovesToTheEnd(history, trimmed, start, after, seen);
      }
    }
  }

  lemma SeenIsInTheHistory(history: seq<Entry>, trimmed: nat, start: Option<nat>, taken: seq<nat>, seen: nat)
    requires Covered(history, trimmed, start, taken, seen)
    ensures seen <= |history|
  {
  }

  lemma CursorStays(history: seq<Entry>, trimmed: nat, start: Option<nat>, after: Option<nat>, seen: nat)
    requires seen <= |history| && Cursor(history, trimmed, start, after, seen)
    requires forall i :: trimmed <= i < |history| ==> !Beyond(after, history[i].id)
    ensures Cursor(history, trimmed, start, after, |history|)
  {
  }

  lemma CursorMovesToTheEnd(history: seq<Entry>, trimmed: nat, start: Option<nat>, after: Option<nat>, seen: nat)
    requires Increasing(history) && history != [] && seen <= |history| && Cursor(history, trimmed, start, after, seen)
    requires Beyond(after, history[|history| - 1].id)
    ensures Cursor(history, trimmed, start, Some(history[|history| - 1].id), |history|)
  {
    var last := history[|history| - 1].id;
    forall i | trimmed <= i < |history| ensures history[i].id <= last {
    }
    hide Increasing;
  }

  /** What lies before the new entries was not beyond the cursor, so it was dealt with or is before the start. */
  lemma CoversMore(history: seq<Entry>, trimmed: nat, start: Option<nat>, after: Option<nat>, taken: seq<nat>,
                   seen: nat, from: nat, n: nat)
    requires Increasing(history) && trimmed <= from && from + n <= |history| && (from == |history| || seen <= from)
    requires Covered(history, trimmed, start, taken, seen) && Cursor(history, trimmed, start, after, seen)
    requires forall i :: trimmed <= i < from ==> !Beyond(after, history[i].id)
    requires forall i :: from <= i < |history| ==> Beyond(after, history[i].id)
    ensures Covered(history, trimmed, start, taken + Interval(from, n), from + n)
  {
    hide Increasing;
    var all := taken + Interval(from, n);
    forall i | trimmed <= i < from + n && Beyond(start, history[i].id) ensures i in all {
      if i < seen {
        assert i in taken;
      } else if from <= i {
        assert all[|taken| + (i - from)] == i;
      }
    }
  }

  // ---------------------------------------------------------------- what the client sees

  lemma {:induction false} GoodIsIncreasing(es: seq<Entry>)
    requires Increasing(es)
    ensures Increasing(Good(es)) && forall e :: e in Good(es) <==> e in es && Readable(e)
  {
    if es == [] {
    } else {
      var n := |es| - 1;
      GoodIsIncreasing(es[..n]);
      assert es == es[..n] + [es[n]];
      var before := Good(es[..n]);
      forall k | 0 <= k < |before| ensures before[k].id < es[n].id {
        assert before[k] in es[..n];
      }
    }
  }

  lemma AtIsIncreasing(history: seq<Entry>, taken: seq<nat>)
    requires Increasing(history) && Ascending(taken) && forall k :: 0 <= k < |taken| ==> taken[k] < |history|
    ensures Increasing(At(history, taken))
  {
  }

  /**
    Frame ids strictly increase, every frame is a readable entry beyond where the client started, and
    every such entry up to `seen` that is still in the stream was delivered.
  */
  lemma FramesAreTheReadableEntries(history: seq<Entry>, trimmed: nat, start: Option<nat>, taken: seq<nat>, seen: nat)
    requires Increasing(history) && Covered(history, trimmed, start, taken, seen)
    ensures var frames := Good(At(history, taken));
            && Increasing(frames)
            && (forall e :: e in frames ==>
                  e in history && e.name != [] && e.data != [] && (start.Some? ==> e.id > start.value))
            && forall i | trimmed <= i < seen && history[i].name != [] && history[i].data != [] ::
                 (start.Some? ==> history[i].id > start.value) ==> history[i] in frames
  {
    AtIsIncreasing(history, taken);
    GoodIsIncreasing(At(history, taken));
    hide Good;
    forall i | trimmed <= i < seen && Readable(history[i]) && Beyond(start, history[i].id)
      ensures history[i] in Good(At(history, taken)) {
      var k :| 0 <= k < |taken| && taken[k] == i;
      assert At(history, taken)[k] == history[i];
    }
  }

  /**
    What a connection that ended idle has missed: a readable entry it was meant to see and the stream
    still holds was sent exactly when it was published before the last read.
  */
  lemma MissedExactlyWhenPublishedLate(history: seq<Entry>, trimmed: nat, start: Option<nat>, taken: seq<nat>,
                                       seen: nat, i: nat)
    requires Increasing(history) && Covered(history, trimmed, start, taken, seen)
    requires trimmed <= i < |history| && history[i].name != [] && history[i].data != []
    requires start.Some? ==> history[i].id > start.value
    ensures history[i] !in Good(At(history, taken)) <==> i >= seen
  {
    FramesAreTheReadableEntries(history, trimmed, start, taken, seen);
    if history[i] in Good(At(history, taken)) {
      LastFrameWasRead(history, taken, start, trimmed, seen, history[i]);
    }
  }

  lemma PublishedOfOne(op: Op)
    ensures Published([]) == [] && Published([op]) == (if op.Publish? then [(op.name, op.data)] else [])
  {
    assert [op][..0] == [];
  }

  /**
    The order the worker publishes in and the connection looks in: the run's row is terminal before its
    last event is published, so an idle turn may end a connection that was never sent the finish.
  */
  method AnIdleTurnMissesALateFinish(data: Bytes) returns (c: Connection, ending: Ending)
    requires data != []
    ensures c.Closed(ending) && ending == Terminal && c.frames == []
    ensures Contents(c.stream.history) == [(RUN_FINISHED, data)] && c.stream.history[0] !in c.frames
  {
    var stream := new RunStream();
    c := new Connection(stream, None, _ => false);
    hide *;
    PublishedOfOne(Publish(RUN_FINISHED, data, 0, 0));
    ending := c.Turn(Round([], false, [], false), true);
    assert stream.history == stream.history[c.seen..];
    ending := c.Turn(Round([], false, [Publish(RUN_FINISHED, data, 0, 0)], true), false);
  }

  // ---------------------------------------------------------------- reconnecting

  /** What was sent: all that was read, but for the entry whose write failed. */
  function Sent(ending: Ending, taken: seq<nat>): seq<nat> {
    if ending == WriteFailed && taken != [] then taken[..|taken| - 1] else taken
  }

  /** How far a connection got: up to what it read, or to the entry whose write failed. */
  function Reach(ending: Ending, taken: seq<nat>, seen: nat): nat {
    if ending == WriteFailed && taken != [] then taken[|taken| - 1] else seen
  }

  /** The id an event source reconnects with: its last frame's, or the one it came with. */
  function Resume(start: Option<nat>, frames: seq<Entry>): Option<nat> {
    if frames == [] then start else Some(frames[|frames| - 1].id)
  }

  lemma SentIsCovered(ending: Ending, history: seq<Entry>, trimmed: nat, start: Option<nat>, taken: seq<nat>,
                      seen: nat, frames: seq<Entry>)
    requires Closes(ending, history, trimmed, start, taken, seen, frames)
    ensures Covered(history, trimmed, start, Sent(ending, taken), Reach(ending, taken, seen))
    ensures frames == Good(At(history, Sent(ending, taken)))
  {
    hide Good, NoneFinish;
    if ending == WriteFailed {
      var n := |taken| - 1;
      forall i | trimmed <= i < taken[n] && Beyond(start, history[i].id) ensures i in taken[..n] {
        var k :| 0 <= k < |taken| && taken[k] == i;
        assert taken[..n][k] == i;
      }
    }
  }

  /**
    A client whose connection ended, a failed write included, and that reconnects with the id of its
    last frame is sent nothing twice and misses nothing: the two connections' frames together are still
    in strictly increasing id order, and hold every readable entry beyond the first start, up to where
    the second got, that is still in the stream.
  */
  lemma ReconnectingNeitherRepeatsNorSkips(
      ending1: Ending, history1: seq<Entry>, trimmed1: nat, start: Option<nat>, taken1: seq<nat>, seen1: nat,
      first: seq<Entry>,
      ending2: Ending, history2: seq<Entry>, trimmed2: nat, taken2: seq<nat>, seen2: nat, second: seq<Entry>)
    requires Increasing(history2) && history1 <= history2 && trimmed1 <= trimmed2 <= |history2|
    requires Closes(ending1, history1, trimmed1, start, taken1, seen1, first)
    requires Closes(ending2, history2, trimmed2, Resume(start, first), taken2, seen2, second)
    ensures Increasing(first + second)
    ensures forall e :: e in first + second ==> e in history2 && Readable(e) && Beyond(start, e.id)
    ensures forall i :: trimmed2 <= i < Min(Reach(ending2, taken2, seen2), |history2|)
                        && Readable(history2[i]) && Beyond(start, history2[i].id) ==>
              history2[i] in first + second
  {
    hide Closes, Good;
    SentIsCovered(ending1, history1, trimmed1, start, taken1, seen1, first);
    SentIsCovered(ending2, history2, trimmed2, Resume(start, first), taken2, seen2, second);
    Spliced(history1, trimmed1, start, Sent(ending1, taken1), Reach(ending1, taken1, seen1), first,
            history2, trimmed2, Sent(ending2, taken2), Reach(ending2, taken2, seen2), second);
  }

  lemma Spliced(history1: seq<Entry>, trimmed1: nat, start: Option<nat>, taken1: seq<nat>, seen1: nat, first: seq<Entry>,
                history2: seq<Entry>, trimmed2: nat, taken2: seq<nat>, seen2: nat, second: seq<Entry>)
    requires Increasing(history2) && history1 <= history2 && trimmed1 <= trimmed2 <= |history2|
    requires Covered(history1, trimmed1, start, taken1, seen1) && first == Good(At(history1, taken1))
    requires Covered(history2, trimmed2, Resume(start, first), taken2, seen2) && second == Good(At(history2, taken2))
    ensures Increasing(first + second)
    ensures forall e :: e in first + second ==> e in history2 && Readable(e) && Beyond(start, e.id)
    ensures forall i :: trimmed2 <= i < seen2 && Readable(history2[i]) && Beyond(start, history2[i].id) ==>
              history2[i] in first + second
  {
    hide Good;
    forall i | 0 <= i < |history1| ensures history1[i] == history2[i] {
    }
    FramesAreTheReadableEntries(history1, trimmed1, start, taken1, seen1);
    FramesAreTheReadableEntries(history2, trimmed2, Resume(start, first), taken2, seen2);
    if first == [] {
      assert first + second == second;
    } else {
      var last := first[|first| - 1];
      LastFrameWasRead(history1, taken1, start, trimmed1, seen1, last);
      forall i | trimmed2 <= i < seen2 && Readable(history2[i]) && Beyond(start, history2[i].id)
        ensures history2[i] in first + second {
        UpToTheLastFrame(history1, seen1, history2, i, last);
      }
      SplicedFramesIncrease(first, second);
    }
  }

  /** An entry that is not beyond the first connection's last frame was within its reach. */
  lemma UpToTheLastFrame(history1: seq<Entry>, seen1: nat, history2: seq<Entry>, i: nat, last: Entry)
    requires Increasing(history2) && history1 <= history2 && seen1 <= |history1| && i < |history2|
    requires exists j :: 0 <= j < seen1 && history1[j] == last
    ensures !Beyond(Some(last.id), history2[i].id) ==> i < seen1 && history1[i] == history2[i]
  {
    var j :| 0 <= j < seen1 && history1[j] == last;
    assert history2[j] == last;
  }

  lemma LastFrameWasRead(history: seq<Entry>, taken: seq<nat>, start: Option<nat>, trimmed: nat, seen: nat, frame: Entry)
    requires Increasing(history) && Covered(history, trimmed, start, taken, seen) && frame in Good(At(history, taken))
    ensures exists j :: 0 <= j < seen && history[j] == frame
  {
    AtIsIncreasing(history, taken);
    GoodIsIncreasing(At(history, taken));
    var k :| 0 <= k < |taken| && At(history, taken)[k] == frame;
    assert history[taken[k]] == frame;
  }

  lemma SplicedFramesIncrease(first: seq<Entry>, second: seq<Entry>)
    requires Increasing(first) && Increasing(second) && first != []
    requires forall e :: e in second ==> e.id > first[|first| - 1].id
    ensures Increasing(first + second)
  {
    var all := first + second;
    forall i, j | 0 <= i < j < |all| ensures all[i].id < all[j].id {
      if i < |first| <= j {
        assert all[j] in second && first[i].id <= first[|first| - 1].id;
      }
    }
  }
}
