/**
  The ingestion handler inside the protocol: a delivery that nothing interrupts, whatever its
  dependencies answer, is a path of the ingest protocol, request by request, and ends with the same
  index and the same row (internal/ingest/handler.go, internal/search/search.go).
*/
module DeliveryPath {
  import opened Prelude
  import opened Paths
  import opened DocumentRows
  import opened IngestProtocol
  import opened SearchIndex
  import opened IngestHandler

  /** One action of the protocol, or only one whose effect falls inside its worker's lease. */
  ghost function Steps(c: Config, timely: bool): (State, Action, State) -> bool {
    (s, a, s') => Next(c, s, a, s') && (timely ==> EffectInLease(c, s, a))
  }

  predicate InTime(c: Config, timely: bool, s: State, w: WorkerId, t: Time)
    requires w in s.workers
  {
    timely ==> t <= s.workers[w].since + c.lease
  }

  /** An effect of this worker, or no effect. */
  predicate Of(a: Action, w: WorkerId) { TouchesIndex(a) || MarksRow(a) ==> a.w == w }

  lemma OneAction(c: Config, timely: bool, s: State, w: WorkerId, a: Action)
    requires Enabled(c, s, a) && Of(a, w) && w in s.workers && InTime(c, timely, s, w, s.now)
    ensures RunsTo(Steps(c, timely), s, [a], Apply(c, s, a))
  {
    hide Enabled, Apply;
    One(Steps(c, timely), s, a, Apply(c, s, a));
  }

  /** The state with another index and worker `w` at another point. */
  function At(s: State, w: WorkerId, index: Index, phase: Phase): State
    requires w in s.workers
  {
    s.(index := index, workers := s.workers[w := s.workers[w].(phase := phase)])
  }

  /** The same at another time. */
  function Held(s: State, w: WorkerId, index: Index, phase: Phase, t: Time): State
    requires w in s.workers
  {
    At(s, w, index, phase).(now := t)
  }

  lemma HeldThenAt(s: State, w: WorkerId, a: Index, p: Phase, t: Time, b: Index, q: Phase)
    requires w in s.workers
    ensures At(Held(s, w, a, p, t), w, b, q) == Held(s, w, b, q, t)
  {
  }

  lemma HeldNow(s: State, w: WorkerId)
    requires w in s.workers
    ensures Held(s, w, s.index, s.workers[w].phase, s.now) == s
  {
    assert s.workers[w := s.workers[w].(phase := s.workers[w].phase)] == s.workers;
  }

  lemma HeldIs(s: State, w: WorkerId, index: Index, phase: Phase, t: Time)
    requires w in s.workers
    ensures var h := Held(s, w, index, phase, t);
            && w in h.workers && h.workers[w] == s.workers[w].(phase := phase) && h.index == index && h.now == t
            && h.docs == s.docs && h.workers == s.workers[w := s.workers[w].(phase := phase)]
  {
  }

  lemma Waits(c: Config, timely: bool, s: State, w: WorkerId, index: Index, phase: Phase, t: Time, t': Time)
    requires w in s.workers && t <= t'
    ensures RunsTo(Steps(c, timely), Held(s, w, index, phase, t), [Tick(t' - t)], Held(s, w, index, phase, t'))
  {
    var h, h' := Held(s, w, index, phase, t), Held(s, w, index, phase, t');
    TimePasses(c, h, t' - t);
    assert Apply(c, h, Tick(t' - t)) == h';
    hide Enabled, Apply;
    assert Next(c, h, Tick(t' - t), h');
    One(Steps(c, timely), h, Tick(t' - t), h');
  }

  lemma TimePasses(c: Config, s: State, elapsed: nat)
    ensures Enabled(c, s, Tick(elapsed)) && Apply(c, s, Tick(elapsed)) == s.(now := s.now + elapsed)
  {
  }

  // ---------------------------------------------------------------- the requests

  /** Worker `w` has its vectors and has written the first n places. */
  predicate Indexes(c: Config, s: State, w: WorkerId, cs: seq<Bytes>, n: nat) {
    w in s.workers && s.workers[w].phase == Indexing(n) && c.chunked(s.workers[w].doc) == Some(cs) && n <= |cs|
  }

  lemma AcceptedIsAnAction(c: Config, s: State, w: WorkerId, cs: seq<Bytes>, lo: nat, hi: nat)
    requires Indexes(c, s, w, cs, lo) && lo <= hi <= |cs|
    ensures Enabled(c, s, Bulk(w, hi - lo))
    ensures Apply(c, s, Bulk(w, hi - lo)) == At(s, w, Written(s.index, s.workers[w].doc, cs, Range(lo, hi)), Indexing(hi))
  {
    hide Written, Range;
  }

  lemma FailedIsAnAction(c: Config, s: State, w: WorkerId, cs: seq<Bytes>, lo: nat, hi: nat, landed: set<nat>,
                         answered: bool)
    requires Indexes(c, s, w, cs, lo) && lo <= hi <= |cs| && landed <= Range(lo, hi)
    ensures var a, id := BulkPartly(w, hi - lo, landed, answered), s.workers[w].doc;
            && Enabled(c, s, a)
            && Apply(c, s, a) == At(s, w, if answered then Written(s.index, id, cs, landed)
                                          else Abandoned(s.index, id, cs, landed), Indexing(lo))
  {
    hide Written, Abandoned;
    assert s.workers == s.workers[w := s.workers[w].(phase := Indexing(lo))];
  }

  /** A request that fails lands some of its places; one that succeeds lands all and moves on. */
  lemma RequestIsAnAction(c: Config, s: State, w: WorkerId, cs: seq<Bytes>, lo: nat, hi: nat, reply: BulkReply)
    returns (a: Action)
    requires Indexes(c, s, w, cs, lo) && lo <= hi <= |cs|
    ensures Enabled(c, s, a) && Of(a, w)
    ensures Apply(c, s, a) ==
            At(s, w, Requested(s.index, s.workers[w].doc, cs, reply, lo, hi), Indexing(if reply.Accepted? then hi else lo))
  {
    hide Enabled, Apply, Written, Abandoned, At;
    if reply.Accepted? {
      AcceptedIsAnAction(c, s, w, cs, lo, hi);
      a := Bulk(w, hi - lo);
    } else {
      FailedIsAnAction(c, s, w, cs, lo, hi, Landed(reply, lo, hi), reply.Refused?);
      a := BulkPartly(w, hi - lo, Landed(reply, lo, hi), reply.Refused?);
    }
  }

  /** One request, in the time it takes. */
  lemma RequestIsAPath(c: Config, timely: bool, s: State, w: WorkerId, cs: seq<Bytes>, index: Index, lo: nat, hi: nat,
                       reply: BulkReply, t: Time, t': Time)
    returns (acts: seq<Action>)
    requires w in s.workers && c.chunked(s.workers[w].doc) == Some(cs) && lo <= hi <= |cs|
    requires t <= t' && InTime(c, timely, s, w, t')
    ensures RunsTo(Steps(c, timely), Held(s, w, index, Indexing(lo), t), acts,
                   Held(s, w, Requested(index, s.workers[w].doc, cs, reply, lo, hi),
                        Indexing(if reply.Accepted? then hi else lo), t'))
  {
    hide RunsTo, Held, Enabled, Apply, Requested;
    var m := Held(s, w, index, Indexing(lo), t');
    HeldIs(s, w, index, Indexing(lo), t');
    Waits(c, timely, s, w, index, Indexing(lo), t, t');
    var a := RequestIsAnAction(c, m, w, cs, lo, hi, reply);
    OneAction(c, timely, m, w, a);
    HeldThenAt(s, w, index, Indexing(lo), t', Requested(index, s.workers[w].doc, cs, reply, lo, hi),
               Indexing(if reply.Accepted? then hi else lo));
    Join(Steps(c, timely), Held(s, w, index, Indexing(lo), t), [Tick(t' - t)], m, [a], Apply(c, m, a));
    acts := [Tick(t' - t)] + [a];
  }

  lemma FirstRequest(t: Time, took: nat -> nat, from: nat, to: nat, deadline: Time)
    requires from < to
    ensures var first := Within(t, took(from), deadline);
            && RequestsEnd(t, took, from, to, deadline) == RequestsEnd(first, took, from + 1, to, deadline)
            && t <= first <= RequestsEnd(first, took, from + 1, to, deadline)
  {
    RequestsEndInTime(Within(t, took(from), deadline), took, from + 1, to, deadline);
  }

  lemma {:induction false} RequestsEndChains(t: Time, took: nat -> nat, from: nat, mid: nat, to: nat, deadline: Time)
    requires from <= mid <= to
    ensures RequestsEnd(t, took, from, to, deadline)
            == RequestsEnd(RequestsEnd(t, took, from, mid, deadline), took, mid, to, deadline)
    decreases mid - from
  {
    hide Within;
    if from == mid {
    } else {
      RequestsEndChains(Within(t, took(from), deadline), took, from + 1, mid, to, deadline);
    }
  }

  /** A batch, request by request, each in the time it takes. */
  lemma {:induction false} BatchIsAPath(c: Config, timely: bool, s: State, w: WorkerId, cs: seq<Bytes>, index: Index,
                                        lo: nat, hi: nat, replies: nat -> BulkReply, call: nat, left: nat,
                                        took: nat -> nat, t: Time, deadline: Time)
    returns (acts: seq<Action>)
    requires w in s.workers && c.chunked(s.workers[w].doc) == Some(cs) && lo <= hi <= |cs| && left > 0
    requires var b := Batch(index, s.workers[w].doc, cs, lo, hi, replies, call, left);
             InTime(c, timely, s, w, RequestsEnd(t, took, call, b.calls, deadline))
    ensures var b := Batch(index, s.workers[w].doc, cs, lo, hi, replies, call, left);
            && call < b.calls
            && RunsTo(Steps(c, timely), Held(s, w, index, Indexing(lo), t), acts,
                      Held(s, w, b.index, Indexing(if b.ok then hi else lo), RequestsEnd(t, took, call, b.calls, deadline)))
    decreases left
  {
    hide RunsTo, Held, Requested, Within, RequestsEnd, Steps;
    var id, reply := s.workers[w].doc, replies(call);
    var b := Batch(index, id, cs, lo, hi, replies, call, left);
    BatchWritesItsPlaces(index, id, cs, lo, hi, replies, call, left);
    FirstRequest(t, took, call, b.calls, deadline);
    var first := Within(t, took(call), deadline);
    var after := Requested(index, id, cs, reply, lo, hi);
    acts := RequestIsAPath(c, timely, s, w, cs, index, lo, hi, reply, t, first);
    if !reply.Accepted? && left > 1 && WorthAnother(reply) {
      var more := BatchIsAPath(c, timely, s, w, cs, after, lo, hi, replies, call + 1, left - 1, took, first, deadline);
      Join(Steps(c, timely), Held(s, w, index, Indexing(lo), t), acts, Held(s, w, after, Indexing(lo), first), more,
           Held(s, w, b.index, Indexing(if b.ok then hi else lo), RequestsEnd(t, took, call, b.calls, deadline)));
      acts := acts + more;
    } else {
      NoMoreRequests(first, took, call + 1, deadline);
    }
  }

  lemma NoMoreRequests(t: Time, took: nat -> nat, from: nat, deadline: Time)
    ensures RequestsEnd(t, took, from, from, deadline) == t
  {
  }

  /** All the batches: on success every place is written, and otherwise the worker stops short. */
  lemma {:induction false} BatchesAreAPath(c: Config, timely: bool, s: State, w: WorkerId, cs: seq<Bytes>, index: Index,
                                           start: nat, replies: nat -> BulkReply, call: nat, took: nat -> nat, t: Time,
                                           deadline: Time)
    returns (acts: seq<Action>, written: nat)
    requires w in s.workers && c.chunked(s.workers[w].doc) == Some(cs) && start <= |cs|
    requires var b := Batches(index, s.workers[w].doc, cs, start, replies, call);
             InTime(c, timely, s, w, RequestsEnd(t, took, call, b.calls, deadline))
    ensures var b := Batches(index, s.workers[w].doc, cs, start, replies, call);
            && call <= b.calls && written <= |cs| && (b.ok ==> written == |cs|)
            && RunsTo(Steps(c, timely), Held(s, w, index, Indexing(start), t), acts,
                      Held(s, w, b.index, Indexing(written), RequestsEnd(t, took, call, b.calls, deadline)))
    decreases |cs| - start
  {
    hide Held, Batch, Within, RequestsEnd, Steps;
    var id := s.workers[w].doc;
    var all := Batches(index, id, cs, start, replies, call);
    NoMoreRequests(t, took, call, deadline);
    if start == |cs| {
      acts, written := [], start;
    } else {
      hide RunsTo;
      var end := Min(start + BULK_BATCH_SIZE, |cs|);
      var b := Batch(index, id, cs, start, end, replies, call, BULK_MAX_ATTEMPTS);
      BatchWritesItsPlaces(index, id, cs, start, end, replies, call, BULK_MAX_ATTEMPTS);
      BatchesCountUp(index, id, cs, start, replies, call);
      RequestsEndChains(t, took, call, b.calls, all.calls, deadline);
      var mid := RequestsEnd(t, took, call, b.calls, deadline);
      RequestsEndInTime(mid, took, b.calls, all.calls, deadline);
      acts := BatchIsAPath(c, timely, s, w, cs, index, start, end, replies, call, BULK_MAX_ATTEMPTS, took, t, deadline);
      written := if b.ok then end else start;
      NoMoreRequests(mid, took, b.calls, deadline);
      if b.ok {
        var more;
        more, written := BatchesAreAPath(c, timely, s, w, cs, b.index, end, replies, b.calls, took, mid, deadline);
        Join(Steps(c, timely), Held(s, w, index, Indexing(start), t), acts, Held(s, w, b.index, Indexing(end), mid), more,
             Held(s, w, all.index, Indexing(written), RequestsEnd(t, took, call, all.calls, deadline)));
        acts := acts + more;
      }
    }
  }

  /** The count of requests only grows, past those of the first batch. */
  lemma {:induction false} BatchesCountUp(index: Index, doc: DocId, cs: seq<Bytes>, start: nat, replies: nat -> BulkReply,
                                          call: nat)
    requires start <= |cs|
    ensures call <= Batches(index, doc, cs, start, replies, call).calls
    ensures start < |cs| ==>
              Batch(index, doc, cs, start, Min(start + BULK_BATCH_SIZE, |cs|), replies, call, BULK_MAX_ATTEMPTS).calls
              <= Batches(index, doc, cs, start, replies, call).calls
    decreases |cs| - start
  {
    hide Batch, WroteWithin, Holds;
    if start == |cs| {
    } else {
      var end := Min(start + BULK_BATCH_SIZE, |cs|);
      var b := Batch(index, doc, cs, start, end, replies, call, BULK_MAX_ATTEMPTS);
      BatchWritesItsPlaces(index, doc, cs, start, end, replies, call, BULK_MAX_ATTEMPTS);
      if b.ok {
        BatchesCountUp(b.index, doc, cs, end, replies, b.calls);
      }
    }
  }

  // ---------------------------------------------------------------- the work

  /** A worker that has claimed its document and meets the delivery `d`. */
  predicate Meets(c: Config, s: State, w: WorkerId, d: Delivery) {
    && w in s.workers && s.workers[w].phase == Claimed && (d.chunks.Some? ==> c.chunked(s.workers[w].doc) == d.chunks)
  }

  /** Up to the vectors: the claim's own time, the look-up, the file and the embedding. */
  lemma Embeds(c: Config, timely: bool, s: State, w: WorkerId, d: Delivery, t: Time) returns (acts: seq<Action>)
    requires Meets(c, s, w, d) && s.now <= t && InTime(c, timely, s, w, t)
    ensures RunsTo(Steps(c, timely), s, acts, Held(s, w, s.index, if Prepared(d) then Embedded else Failing, t))
  {
    hide RunsTo;
    var a := if Prepared(d) then Embed(w) else FailEarly(w);
    var m := Held(s, w, s.index, Claimed, t);
    HeldNow(s, w);
    Waits(c, timely, s, w, s.index, Claimed, s.now, t);
    OneAction(c, timely, m, w, a);
    assert Apply(c, m, a) == Held(s, w, s.index, if Prepared(d) then Embedded else Failing, t);
    Join(Steps(c, timely), s, [Tick(t - s.now)], m, [a], Apply(c, m, a));
    acts := [Tick(t - s.now)] + [a];
  }

  /** A delete, behind whatever refresh there has been, at one point of the handler or the other. */
  lemma RemovesAsItReplies(c: Config, timely: bool, s: State, w: WorkerId, index: Index, phase: Phase, next: Phase,
                           reply: DeleteReply, t: Time)
    returns (acts: seq<Action>)
    requires w in s.workers && InTime(c, timely, s, w, t)
    requires if phase.Dirty? then next.Failing?
             else phase.Embedded? && c.chunked(s.workers[w].doc).Some?
                  && next == if reply.Cleared? then Indexing(0) else Failing
    ensures RunsTo(Steps(c, timely), Held(s, w, index, phase, t), acts,
                   Held(s, w, Removed(index, s.workers[w].doc, reply), next, t))
  {
    hide RunsTo, Deleted, PartlyDeleted, Shown;
    var id, m := s.workers[w].doc, Held(s, w, index, phase, t);
    HeldIs(s, w, index, phase, t);
    match reply
    case Partial(gone) =>
      var a := if phase.Dirty? then CleanUpPartly(w, gone) else DeletePartly(w, gone);
      HeldThenAt(s, w, index, phase, t, PartlyDeleted(index, id, gone), next);
      assert Apply(c, m, a) == At(m, w, PartlyDeleted(index, id, gone), next);
      OneAction(c, timely, m, w, a);
      acts := [a];
    case Cleared(shown) =>
      var a := if phase.Dirty? then CleanUp(w) else Delete(w);
      var seen := Held(s, w, Shown(index, id, shown), phase, t);
      HeldIs(s, w, Shown(index, id, shown), phase, t);
      assert Apply(c, m, Refresh(id, shown)) == seen;
      OneAction(c, timely, m, w, Refresh(id, shown));
      HeldThenAt(s, w, Shown(index, id, shown), phase, t, Removed(index, id, reply), next);
      assert Apply(c, seen, a) == At(seen, w, Removed(index, id, reply), next);
      OneAction(c, timely, seen, w, a);
      Join(Steps(c, timely), m, [Refresh(id, shown)], seen, [a], Apply(c, seen, a));
      acts := [Refresh(id, shown)] + [a];
  }

  /** The delete that comes first, at its time. */
  lemma Deletes(c: Config, timely: bool, s: State, w: WorkerId, d: Delivery, t: Time, t': Time) returns (acts: seq<Action>)
    requires Meets(c, s, w, d) && Prepared(d) && t <= t' && InTime(c, timely, s, w, t')
    ensures RunsTo(Steps(c, timely), Held(s, w, s.index, Embedded, t), acts,
                   Held(s, w, Removed(s.index, s.workers[w].doc, d.deleted),
                        if d.deleted.Cleared? then Indexing(0) else Failing, t'))
  {
    hide RunsTo, Removed, Held;
    var phase := if d.deleted.Cleared? then Indexing(0) else Failing;
    Waits(c, timely, s, w, s.index, Embedded, t, t');
    acts := RemovesAsItReplies(c, timely, s, w, s.index, Embedded, phase, d.deleted, t');
    Join(Steps(c, timely), Held(s, w, s.index, Embedded, t), [Tick(t' - t)], Held(s, w, s.index, Embedded, t'), acts,
         Held(s, w, Removed(s.index, s.workers[w].doc, d.deleted), phase, t'));
    acts := [Tick(t' - t)] + acts;
  }

  /** The clean-up after a failed batch, at its time. */
  lemma CleansUp(c: Config, timely: bool, s: State, w: WorkerId, index: Index, n: nat, reply: DeleteReply, t: Time, t': Time)
    returns (acts: seq<Action>)
    requires w in s.workers && t <= t' && InTime(c, timely, s, w, t')
    ensures RunsTo(Steps(c, timely), Held(s, w, index, Indexing(n), t), acts,
                   Held(s, w, Removed(index, s.workers[w].doc, reply), Failing, t'))
  {
    hide RunsTo, Removed;
    var before, failed := Held(s, w, index, Indexing(n), t), Held(s, w, index, Dirty, t);
    OneAction(c, timely, before, w, BulkFails(w));
    HeldThenAt(s, w, index, Indexing(n), t, index, Dirty);
    assert Apply(c, before, BulkFails(w)) == failed;
    Waits(c, timely, s, w, index, Dirty, t, t');
    Join(Steps(c, timely), before, [BulkFails(w)], failed, [Tick(t' - t)], Held(s, w, index, Dirty, t'));
    acts := RemovesAsItReplies(c, timely, s, w, index, Dirty, Failing, reply, t');
    Join(Steps(c, timely), before, [BulkFails(w)] + [Tick(t' - t)], Held(s, w, index, Dirty, t'), acts,
         Held(s, w, Removed(index, s.workers[w].doc, reply), Failing, t'));
    acts := [BulkFails(w)] + [Tick(t' - t)] + acts;
  }

  lemma WithinIsLater(t: Time, took: nat, deadline: Time)
    ensures t <= Within(t, took, deadline)
  {
  }

  /** What the writing of a prepared delivery comes to. */
  lemma WritesAPath(c: Config, timely: bool, s: State, w: WorkerId, d: Delivery, calls: nat, t: Time, deadline: Time)
    returns (acts: seq<Action>)
    requires Meets(c, s, w, d) && Prepared(d)
    requires InTime(c, timely, s, w, WrittenAt(s.index, calls, s.workers[w].doc, d, t, deadline))
    ensures var id := s.workers[w].doc;
            RunsTo(Steps(c, timely), Held(s, w, s.index, Embedded, t), acts,
                   Held(s, w, IndexAfter(s.index, calls, id, d),
                        if Succeeds(s.index, calls, id, d) then Indexing(|d.chunks.value|) else Failing,
                        WrittenAt(s.index, calls, id, d, t, deadline)))
    ensures t <= WrittenAt(s.index, calls, s.workers[w].doc, d, t, deadline)
  {
    hide RunsTo, Batches, Held, Removed, Within, RequestsEnd;
    var id, cs, next, start := s.workers[w].doc, d.chunks.value, Steps(c, timely), Held(s, w, s.index, Embedded, t);
    var cleared := Removed(s.index, id, d.deleted);
    var deleted := Within(t, d.deleting, deadline);
    var indexed := RequestsEnd(deleted, d.indexing, calls, IndexCalls(s.index, calls, id, d), deadline);
    WithinIsLater(t, d.deleting, deadline);
    RequestsEndInTime(deleted, d.indexing, calls, IndexCalls(s.index, calls, id, d), deadline);
    acts := Deletes(c, timely, s, w, d, t, deleted);
    if d.deleted.Cleared? {
      var m := Held(s, w, cleared, Indexing(0), deleted);
      var b := Batches(cleared, id, cs, 0, d.bulk, calls);
      var more, written := BatchesAreAPath(c, timely, s, w, cs, cleared, 0, d.bulk, calls, d.indexing, deleted, deadline);
      var n := Held(s, w, b.index, Indexing(written), indexed);
      Join(next, start, acts, m, more, n);
      acts := acts + more;
      if !b.ok {
        var cleaned := indexed + Min(d.cleaning, TERMINAL_TIMEOUT);
        var last := CleansUp(c, timely, s, w, b.index, written, d.cleaned, indexed, cleaned);
        Join(next, start, acts, n, last, Held(s, w, Removed(b.index, id, d.cleaned), Failing, cleaned));
        acts := acts + last;
      }
    }
  }

  /** What the row says once a delivery that could write its verdict is over. */
  function DocsAfter(docs: Docs, index: Index, calls: nat, id: DocId, d: Delivery, t: Time): Docs {
    if Succeeds(index, calls, id, d) then MarkReady(docs, id, |d.chunks.value|, t).0
    else MarkFailed(docs, id, d.reason, t).0
  }

  /** Everything up to the terminal write. */
  lemma WorkIsAPath(c: Config, timely: bool, s: State, w: WorkerId, d: Delivery, calls: nat, t: Time, deadline: Time)
    returns (acts: seq<Action>)
    requires Meets(c, s, w, d) && s.now <= t
    requires InTime(c, timely, s, w, WorkedAt(s.index, calls, s.workers[w].doc, d, t, deadline))
    ensures var id := s.workers[w].doc;
            RunsTo(Steps(c, timely), s, acts, Held(s, w, IndexAfter(s.index, calls, id, d),
              if Succeeds(s.index, calls, id, d) then Indexing(|d.chunks.value|) else Failing,
              WorkedAt(s.index, calls, id, d, t, deadline)))
    ensures t <= WorkedAt(s.index, calls, s.workers[w].doc, d, t, deadline)
  {
    hide RunsTo, IndexAfter, Succeeds, Held, WrittenAt, FileRead, Within;
    var id, ready := s.workers[w].doc, VectorsAt(d, t, deadline);
    Unprepared(s.index, calls, id, d);
    VectorsComeLater(d, t, deadline);
    if Prepared(d) {
      var more := WritesAPath(c, timely, s, w, d, calls, ready, deadline);
      acts := Embeds(c, timely, s, w, d, ready);
      Join(Steps(c, timely), s, acts, Held(s, w, s.index, Embedded, ready), more,
           Held(s, w, IndexAfter(s.index, calls, id, d),
                if Succeeds(s.index, calls, id, d) then Indexing(|d.chunks.value|) else Failing,
                WrittenAt(s.index, calls, id, d, ready, deadline)));
      acts := acts + more;
    } else {
      acts := Embeds(c, timely, s, w, d, ready);
    }
  }

  lemma VectorsComeLater(d: Delivery, t: Time, deadline: Time)
    ensures t <= VectorsAt(d, t, deadline)
  {
  }

  /**
    From the claim to the verdict, in the time everything takes: every request the handler makes,
    whatever it comes to, is an action the protocol allows next, and the protocol ends with the
    handler's index and the handler's row, when the handler does. If that is within the lease then
    every effect falls inside it.
  */
  lemma AnUninterruptedDeliveryIsAPath(c: Config, timely: bool, s: State, w: WorkerId, d: Delivery, calls: nat,
                                       documentTimeout: nat)
    returns (acts: seq<Action>, s': State)
    requires Meets(c, s, w, d)
    requires InTime(c, timely, s, w, EndsAt(s.index, calls, s.workers[w].doc, d, s.now + d.claiming, documentTimeout))
    ensures RunsTo(Steps(c, timely), s, acts, s') && w !in s'.workers
    ensures s'.now == EndsAt(s.index, calls, s.workers[w].doc, d, s.now + d.claiming, documentTimeout)
    ensures s'.index == IndexAfter(s.index, calls, s.workers[w].doc, d)
    ensures s'.docs == DocsAfter(s.docs, s.index, calls, s.workers[w].doc, d, s'.now)
  {
    hide RunsTo, IndexAfter, Succeeds, WorkedAt, Held, Enabled, Apply, Steps, MarkReady, MarkFailed;
    var id, t := s.workers[w].doc, s.now + d.claiming;
    SuccessIsPrepared(s.index, calls, id, d);
    var ok, worked := Succeeds(s.index, calls, id, d), WorkedAt(s.index, calls, id, d, t, t + documentTimeout);
    var index, phase := IndexAfter(s.index, calls, id, d), if ok then Indexing(|d.chunks.value|) else Failing;
    var marked := worked + Min(d.marking, TERMINAL_TIMEOUT);
    var work := WorkIsAPath(c, timely, s, w, d, calls, t, t + documentTimeout);
    Waits(c, timely, s, w, index, phase, worked, marked);
    var m := Held(s, w, index, phase, marked);
    HeldIs(s, w, index, phase, marked);
    var last := if ok then Action.Ready(w) else Fail(w, d.reason);
    MarksAreActions(c, m, w, d.reason);
    s' := Apply(c, m, last);
    OneAction(c, timely, m, w, last);
    Join(Steps(c, timely), s, work, Held(s, w, index, phase, worked), [Tick(marked - worked)], m);
    Join(Steps(c, timely), s, work + [Tick(marked - worked)], m, [last], s');
    acts := work + [Tick(marked - worked)] + [last];
  }

  lemma MarksAreActions(c: Config, s: State, w: WorkerId, reason: Bytes)
    requires w in s.workers
    ensures s.workers[w].phase.Failing? ==>
              && Enabled(c, s, Fail(w, reason))
              && var s' := Apply(c, s, Fail(w, reason));
                 s' == s.(docs := MarkFailed(s.docs, s.workers[w].doc, reason, s.now).0, workers := s.workers - {w})
    ensures (c.chunked(s.workers[w].doc).Some?
             && s.workers[w].phase == Indexing(|c.chunked(s.workers[w].doc).value|)) ==>
              && Enabled(c, s, Action.Ready(w))
              && var s' := Apply(c, s, Action.Ready(w));
                 s' == s.(docs := MarkReady(s.docs, s.workers[w].doc, s.workers[w].phase.written, s.now).0,
                          workers := s.workers - {w})
  {
    hide MarkReady, MarkFailed;
  }

  lemma SuccessIsPrepared(index: Index, calls: nat, id: DocId, d: Delivery)
    ensures Succeeds(index, calls, id, d) ==> Prepared(d)
  {
  }

  /**
    The settings and the protocol together: under a lease with room for the claim, the file and the
    twenty seconds, every effect of every delivery its deadline binds falls inside its lease.
  */
  lemma EveryDeliveryStaysInItsLease(c: Config, s: State, w: WorkerId, d: Delivery, calls: nat, documentTimeout: nat,
                                     claiming: nat, reading: nat)
    returns (acts: seq<Action>, s': State)
    requires Meets(c, s, w, d) && s.workers[w].since == s.now
    requires Possible(s.index, calls, s.workers[w].doc, d, s.now, documentTimeout, claiming, reading)
    requires LatestEnd(documentTimeout, claiming, reading) <= c.lease
    ensures RunsTo(Steps(c, true), s, acts, s') && w !in s'.workers
    ensures s'.now == EndsAt(s.index, calls, s.workers[w].doc, d, s.now + d.claiming, documentTimeout) <= s.now + c.lease
    ensures s'.index == IndexAfter(s.index, calls, s.workers[w].doc, d)
    ensures s'.docs == DocsAfter(s.docs, s.index, calls, s.workers[w].doc, d, s'.now)
  {
    hide RunsTo, IndexAfter, EndsAt, Possible, DocsAfter, LatestEnd, Steps;
    EndsByTheLatest(s.index, calls, s.workers[w].doc, d, s.now, documentTimeout, claiming, reading);
    acts, s' := AnUninterruptedDeliveryIsAPath(c, true, s, w, d, calls, documentTimeout);
  }
}
