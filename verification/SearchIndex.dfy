/**
  The writes to the chunk index (internal/search/search.go). A request may land partly before it fails,
  and what it wrote stays unseen until the next refresh unless its reply was waited for.
*/
module SearchIndex {
  import opened Prelude
  import opened DocumentRows
  import opened IngestProtocol

  const BULK_BATCH_SIZE: nat := 100
  const BULK_MAX_ATTEMPTS: nat := 3

  /** What a bulk request came to, and which of its chunks landed: all, or some and an item's status, or some. */
  datatype BulkReply = Accepted | Refused(landed: set<nat>, status: nat) | Broken(landed: set<nat>)

  /** What a delete came to: clean, with the places a refresh had shown by then, or only some chunks gone. */
  datatype DeleteReply = Cleared(shown: set<nat>) | Partial(gone: set<nat>)

  predicate RetryableStatus(code: nat) { code == 429 || code == 502 || code == 503 || code == 504 }

  // ---------------------------------------------------------------- what the requests come to

  /** Which of places lo..hi a request gave their text. */
  function Landed(reply: BulkReply, lo: nat, hi: nat): set<nat> {
    match reply
    case Accepted => Range(lo, hi)
    case Refused(landed, _) => landed * Range(lo, hi)
    case Broken(landed) => landed * Range(lo, hi)
  }

  /** The index after a request; one that is answered has waited for the refresh. */
  function Requested(index: Index, doc: DocId, cs: seq<Bytes>, reply: BulkReply, lo: nat, hi: nat): Index {
    if reply.Broken? then Abandoned(index, doc, cs, Landed(reply, lo, hi))
    else Written(index, doc, cs, Landed(reply, lo, hi))
  }

  predicate WorthAnother(reply: BulkReply) { reply.Refused? && RetryableStatus(reply.status) }

  /** The index and the call count afterwards, and whether the chunks are all in. */
  datatype Bulked = Bulked(index: Index, calls: nat, ok: bool)

  /** One batch with `left` requests to go: sent again, whole, while an item is refused for backpressure. */
  function Batch(index: Index, doc: DocId, cs: seq<Bytes>, lo: nat, hi: nat, replies: nat -> BulkReply, call: nat,
                 left: nat): Bulked
    requires left > 0
    decreases left
  {
    var reply := replies(call);
    var after := Requested(index, doc, cs, reply, lo, hi);
    if reply.Accepted? then Bulked(after, call + 1, true)
    else if left == 1 || !WorthAnother(reply) then Bulked(after, call + 1, false)
    else Batch(after, doc, cs, lo, hi, replies, call + 1, left - 1)
  }

  /** The batches from `start` on, up to the first that fails. */
  function Batches(index: Index, doc: DocId, cs: seq<Bytes>, start: nat, replies: nat -> BulkReply, call: nat): Bulked
    decreases |cs| - start
  {
    if start >= |cs| then Bulked(index, call, true)
    else
      var end := Min(start + BULK_BATCH_SIZE, |cs|);
      var b := Batch(index, doc, cs, start, end, replies, call, BULK_MAX_ATTEMPTS);
      if b.ok then Batches(b.index, doc, cs, end, replies, b.calls) else b
  }

  function Removed(index: Index, doc: DocId, reply: DeleteReply): Index {
    match reply
    case Cleared(shown) => Deleted(Shown(index, doc, shown), doc)
    case Partial(gone) => PartlyDeleted(index, doc, gone)
  }

  /** Place i is there and no search sees it, so a clean delete misses it. */
  predicate Missed(index: Index, doc: DocId, reply: DeleteReply, i: nat) {
    reply.Cleared? && (doc, i) in index.chunks && (doc, i) in index.unseen && i !in reply.shown
  }

  predicate SameAt(a: Index, b: Index, c: ChunkId) {
    (c in a.chunks <==> c in b.chunks) && (c in a.chunks ==> a.chunks[c] == b.chunks[c])
  }

  predicate HasText(index: Index, c: ChunkId, text: Bytes) { c in index.chunks && index.chunks[c] == text }

  /** Every chunk is as it was, except that places lo..hi of `doc` may have been given their own text. */
  ghost predicate WroteWithin(a: Index, b: Index, doc: DocId, cs: seq<Bytes>, lo: nat, hi: nat)
    requires hi <= |cs|
  {
    forall c: ChunkId :: SameAt(a, b, c) || (c.0 == doc && lo <= c.1 < hi && HasText(b, c, cs[c.1]))
  }

  ghost predicate Holds(index: Index, doc: DocId, cs: seq<Bytes>, lo: nat, hi: nat)
    requires hi <= |cs|
  {
    forall i: nat :: lo <= i < hi ==> HasText(index, (doc, i), cs[i])
  }

  /** Nothing but some chunks of `doc` is gone. */
  ghost predicate OnlyRemoved(a: Index, b: Index, doc: DocId) {
    forall c: ChunkId :: SameAt(a, b, c) || (c.0 == doc && c !in b.chunks)
  }

  lemma WroteWithinChains(a: Index, b: Index, c: Index, doc: DocId, cs: seq<Bytes>, lo: nat, mid: nat, hi: nat)
    requires lo <= mid <= hi <= |cs|
    requires WroteWithin(a, b, doc, cs, lo, hi) && WroteWithin(b, c, doc, cs, mid, hi)
    ensures WroteWithin(a, c, doc, cs, lo, hi)
  {
    forall k: ChunkId ensures SameAt(a, c, k) || (k.0 == doc && lo <= k.1 < hi && HasText(c, k, cs[k.1])) {
      assert SameAt(a, b, k) || (k.0 == doc && lo <= k.1 < hi && HasText(b, k, cs[k.1]));
      assert SameAt(b, c, k) || (k.0 == doc && mid <= k.1 < hi && HasText(c, k, cs[k.1]));
    }
  }

  lemma WroteWithinWidens(a: Index, b: Index, doc: DocId, cs: seq<Bytes>, lo: nat, mid: nat, top: nat, hi: nat)
    requires lo <= mid <= top <= hi <= |cs| && WroteWithin(a, b, doc, cs, mid, top)
    ensures WroteWithin(a, b, doc, cs, lo, hi)
  {
    forall k: ChunkId ensures SameAt(a, b, k) || (k.0 == doc && lo <= k.1 < hi && HasText(b, k, cs[k.1])) {
      assert SameAt(a, b, k) || (k.0 == doc && mid <= k.1 < top && HasText(b, k, cs[k.1]));
    }
  }

  lemma HeldStays(a: Index, b: Index, doc: DocId, cs: seq<Bytes>, lo: nat, mid: nat, hi: nat)
    requires lo <= mid <= hi <= |cs| && Holds(a, doc, cs, lo, mid) && WroteWithin(a, b, doc, cs, mid, hi)
    ensures Holds(b, doc, cs, lo, mid)
  {
    forall i: nat | lo <= i < mid ensures HasText(b, (doc, i), cs[i]) {
      assert SameAt(a, b, (doc, i));
    }
  }

  lemma RequestWritesWithin(index: Index, doc: DocId, cs: seq<Bytes>, reply: BulkReply, lo: nat, hi: nat)
    requires hi <= |cs|
    ensures WroteWithin(index, Requested(index, doc, cs, reply, lo, hi), doc, cs, lo, hi)
    ensures reply.Accepted? ==> Holds(Requested(index, doc, cs, reply, lo, hi), doc, cs, lo, hi)
  {
  }

  class ChunkIndex {
    var content: Index
    var calls: nat

    constructor ()
      ensures content == EMPTY && calls == 0
    {
      content, calls := EMPTY, 0;
    }

    /** One request for places lo..hi. */
    method Bulk(doc: DocId, cs: seq<Bytes>, lo: nat, hi: nat, reply: BulkReply) returns (ok: bool)
      requires lo <= hi <= |cs|
      modifies this
      ensures calls == old(calls) + 1 && ok == reply.Accepted?
      ensures content == Requested(old(content), doc, cs, reply, lo, hi)
    {
      calls := calls + 1;
      ok := reply.Accepted?;
      content := Requested(content, doc, cs, reply, lo, hi);
    }

    /** Sends a batch again, whole, while an item is refused for backpressure: three times at most. */
    method BulkWithRetry(doc: DocId, cs: seq<Bytes>, lo: nat, hi: nat, replies: nat -> BulkReply) returns (ok: bool)
      requires lo <= hi <= |cs|
      modifies this
      ensures Bulked(content, calls, ok) == Batch(old(content), doc, cs, lo, hi, replies, old(calls), BULK_MAX_ATTEMPTS)
    {
      hide Requested;
      ghost var all := Batch(content, doc, cs, lo, hi, replies, calls, BULK_MAX_ATTEMPTS);
      for attempt := 0 to BULK_MAX_ATTEMPTS
        invariant attempt < BULK_MAX_ATTEMPTS ==>
          all == Batch(content, doc, cs, lo, hi, replies, calls, BULK_MAX_ATTEMPTS - attempt)
        invariant attempt == BULK_MAX_ATTEMPTS ==> all == Bulked(content, calls, false)
      {
        var reply := replies(calls);
        ok := Bulk(doc, cs, lo, hi, reply);
        if ok || !WorthAnother(reply) {
          return;
        }
      }
      ok := false;
    }

    /** Writes the chunks in bounded batches, in order, stopping at the first batch that fails. */
    method IndexChunks(doc: DocId, cs: seq<Bytes>, replies: nat -> BulkReply) returns (ok: bool)
      modifies this
      ensures Bulked(content, calls, ok) == Batches(old(content), doc, cs, 0, replies, old(calls))
    {
      hide Batch;
      var start := 0;
      while start < |cs|
        invariant start <= |cs|
        invariant Batches(old(content), doc, cs, 0, replies, old(calls)) == Batches(content, doc, cs, start, replies, calls)
        decreases |cs| - start
      {
        var end := Min(start + BULK_BATCH_SIZE, |cs|);
        ok := BulkWithRetry(doc, cs, start, end, replies);
        if !ok {
          return;
        }
        start := end;
      }
      ok := true;
    }

    /** A reply that reports a conflict or a failed shard is a failure, whatever its status line says. */
    method DeleteByDocument(doc: DocId, reply: DeleteReply) returns (ok: bool)
      modifies this`content
      ensures content == Removed(old(content), doc, reply) && ok == reply.Cleared?
    {
      content := Removed(content, doc, reply);
      return reply.Cleared?;
    }
  }

  // ---------------------------------------------------------------- what that promises

  /** An item was refused because there was too much to do. */
  predicate Backpressure(reply: BulkReply) { reply.Refused? && reply.status in {429, 502, 503, 504} }

  /** At most three requests; only the batch's own places change; success means each holds its text. */
  lemma {:induction false} BatchWritesItsPlaces(index: Index, doc: DocId, cs: seq<Bytes>, lo: nat, hi: nat,
                                                replies: nat -> BulkReply, call: nat, left: nat)
    requires lo <= hi <= |cs| && left > 0
    ensures var b := Batch(index, doc, cs, lo, hi, replies, call, left);
            && WroteWithin(index, b.index, doc, cs, lo, hi)
            && call < b.calls <= call + left
            && b.ok == replies(b.calls - 1).Accepted?
            && (b.ok ==> Holds(b.index, doc, cs, lo, hi))
            && (!b.ok && b.calls < call + left ==> !Backpressure(replies(b.calls - 1)))
            && forall k :: call <= k < b.calls - 1 ==> Backpressure(replies(k))
    decreases left
  {
    hide WroteWithin, Holds, Requested;
    var reply := replies(call);
    var after := Requested(index, doc, cs, reply, lo, hi);
    RequestWritesWithin(index, doc, cs, reply, lo, hi);
    if !reply.Accepted? && left > 1 && WorthAnother(reply) {
      BatchWritesItsPlaces(after, doc, cs, lo, hi, replies, call + 1, left - 1);
      WroteWithinChains(index, after, Batch(after, doc, cs, lo, hi, replies, call + 1, left - 1).index, doc, cs, lo, lo, hi);
    }
  }

  /** All the batches together: only this document's own places change, and success means all are held. */
  lemma {:induction false} BatchesWriteTheDocument(index: Index, doc: DocId, cs: seq<Bytes>, start: nat,
                                                   replies: nat -> BulkReply, call: nat)
    requires start <= |cs|
    ensures var b := Batches(index, doc, cs, start, replies, call);
            && WroteWithin(index, b.index, doc, cs, start, |cs|)
            && (b.ok ==> Holds(b.index, doc, cs, start, |cs|))
    decreases |cs| - start
  {
    hide WroteWithin, Holds, Batch;
    if start == |cs| {
      NothingWritten(index, doc, cs, start);
    } else {
      var end := Min(start + BULK_BATCH_SIZE, |cs|);
      var b := Batch(index, doc, cs, start, end, replies, call, BULK_MAX_ATTEMPTS);
      BatchWritesItsPlaces(index, doc, cs, start, end, replies, call, BULK_MAX_ATTEMPTS);
      WroteWithinWidens(index, b.index, doc, cs, start, start, end, |cs|);
      if b.ok {
        var rest := Batches(b.index, doc, cs, end, replies, b.calls);
        BatchesWriteTheDocument(b.index, doc, cs, end, replies, b.calls);
        WroteWithinChains(index, b.index, rest.index, doc, cs, start, end, |cs|);
        if rest.ok {
          HeldStays(b.index, rest.index, doc, cs, start, end, |cs|);
          HeldJoins(rest.index, doc, cs, start, end, |cs|);
        }
      }
    }
  }

  /** Three requests a batch of a hundred, at the very most. */
  lemma {:induction false} RequestsAreBounded(index: Index, doc: DocId, cs: seq<Bytes>, start: nat,
                                              replies: nat -> BulkReply, call: nat)
    requires start <= |cs|
    ensures Batches(index, doc, cs, start, replies, call).calls
              <= call + 3 * ((|cs| - start + 99) / 100)
    decreases |cs| - start
  {
    hide Batch, WroteWithin, Holds;
    if start == |cs| {
    } else {
      var end := Min(start + BULK_BATCH_SIZE, |cs|);
      var b := Batch(index, doc, cs, start, end, replies, call, BULK_MAX_ATTEMPTS);
      BatchWritesItsPlaces(index, doc, cs, start, end, replies, call, BULK_MAX_ATTEMPTS);
      if b.ok {
        RequestsAreBounded(b.index, doc, cs, end, replies, b.calls);
      }
    }
  }

  /** When every request is accepted there is one for each started hundred. */
  lemma {:induction false} AHundredARequest(index: Index, doc: DocId, cs: seq<Bytes>, start: nat,
                                            replies: nat -> BulkReply, call: nat)
    requires start <= |cs| && forall k :: replies(k).Accepted?
    ensures var b := Batches(index, doc, cs, start, replies, call);
            b.ok && b.calls == call + (|cs| - start + 99) / 100
    decreases |cs| - start
  {
    if start == |cs| {
    } else {
      var end := Min(start + BULK_BATCH_SIZE, |cs|);
      var b := Batch(index, doc, cs, start, end, replies, call, BULK_MAX_ATTEMPTS);
      assert replies(call).Accepted?;
      AHundredARequest(b.index, doc, cs, end, replies, b.calls);
    }
  }

  /** Deleting removes some chunks of the document and no other; on a clean reply all but the unseen ones. */
  lemma DeletingRemovesOnlyTheDocument(index: Index, doc: DocId, reply: DeleteReply)
    ensures OnlyRemoved(index, Removed(index, doc, reply), doc)
    ensures reply.Cleared? ==>
              forall i: nat :: (doc, i) in Removed(index, doc, reply).chunks <==>
                && (doc, i) in index.chunks && (doc, i) in index.unseen && i !in reply.shown
    ensures reply.Partial? ==>
              forall i: nat :: (doc, i) in Removed(index, doc, reply).chunks <==> (doc, i) in index.chunks && i !in reply.gone
  {
  }

  /** Chunk `x` is written by request k of a batch: all of the batch is when it is accepted, and else what landed. */
  predicate LandedBy(replies: nat -> BulkReply, k: nat, doc: DocId, lo: nat, hi: nat, x: ChunkId) {
    x.0 == doc && lo <= x.1 < hi && (replies(k).Accepted? || x.1 in replies(k).landed)
  }

  lemma RequestHides(index: Index, doc: DocId, cs: seq<Bytes>, replies: nat -> BulkReply, call: nat, lo: nat, hi: nat,
                     x: ChunkId)
    requires hi <= |cs|
    ensures var after := Requested(index, doc, cs, replies(call), lo, hi);
            && (x in after.chunks <==> x in index.chunks || LandedBy(replies, call, doc, lo, hi, x))
            && (if LandedBy(replies, call, doc, lo, hi, x) then HasText(after, x, cs[x.1]) else SameAt(index, after, x))
            && (x in after.unseen <==>
                  if replies(call).Broken? then
                    x in index.unseen || (LandedBy(replies, call, doc, lo, hi, x) && x !in index.chunks)
                  else x in index.unseen && !LandedBy(replies, call, doc, lo, hi, x))
  {
  }

  /**
    A batch leaves a chunk unseen exactly when none of its answered requests wrote it, and either it was
    unseen before or the last request wrote it at a new place and was given up on.
  */
  lemma {:induction false} OnlyAnAbandonedRequestHides(index: Index, doc: DocId, cs: seq<Bytes>, lo: nat, hi: nat,
                                                       replies: nat -> BulkReply, call: nat, left: nat, x: ChunkId)
    requires lo <= hi <= |cs| && left > 0
    ensures var b := Batch(index, doc, cs, lo, hi, replies, call, left);
            x in b.index.unseen <==>
              && (forall k :: call <= k < b.calls && !replies(k).Broken? ==> !LandedBy(replies, k, doc, lo, hi, x))
              && (x in index.unseen
                  || (b.calls > 0 && replies(b.calls - 1).Broken? && LandedBy(replies, b.calls - 1, doc, lo, hi, x)
                      && x !in index.chunks))
    decreases left
  {
    hide Requested, LandedBy, Landed;
    var reply := replies(call);
    var after := Requested(index, doc, cs, reply, lo, hi);
    RequestHides(index, doc, cs, replies, call, lo, hi, x);
    if !reply.Accepted? && left > 1 && WorthAnother(reply) {
      OnlyAnAbandonedRequestHides(after, doc, cs, lo, hi, replies, call + 1, left - 1, x);
      BatchWritesItsPlaces(after, doc, cs, lo, hi, replies, call + 1, left - 1);
    }
  }

  /** The last of `calls` requests wrote place i and was given up on. */
  predicate GivenUpOn(replies: nat -> BulkReply, calls: nat, i: nat) {
    calls > 0 && replies(calls - 1).Broken? && i in replies(calls - 1).landed
  }

  /** So of a document that searches see whole, only a write the last request was given up on stays unseen. */
  lemma {:induction false} OnlyTheLastRequestHides(index: Index, doc: DocId, cs: seq<Bytes>, start: nat,
                                                   replies: nat -> BulkReply, call: nat, i: nat)
    requires start <= |cs| && (doc, i) !in index.unseen
    ensures var b := Batches(index, doc, cs, start, replies, call);
            (doc, i) in b.index.unseen ==>
              !b.ok && GivenUpOn(replies, b.calls, i) && (doc, i) !in index.chunks && i < |cs|
    decreases |cs| - start
  {
    hide Batch, WroteWithin, Holds;
    if start == |cs| {
    } else {
      var end := Min(start + BULK_BATCH_SIZE, |cs|);
      var b := Batch(index, doc, cs, start, end, replies, call, BULK_MAX_ATTEMPTS);
      BatchWritesItsPlaces(index, doc, cs, start, end, replies, call, BULK_MAX_ATTEMPTS);
      OnlyAnAbandonedRequestHides(index, doc, cs, start, end, replies, call, BULK_MAX_ATTEMPTS, (doc, i));
      if b.ok {
        ChunksStay(index, b.index, doc, cs, start, end, (doc, i));
        OnlyTheLastRequestHides(b.index, doc, cs, end, replies, b.calls, i);
      }
    }
  }

  lemma ChunksStay(a: Index, b: Index, doc: DocId, cs: seq<Bytes>, lo: nat, hi: nat, x: ChunkId)
    requires hi <= |cs| && WroteWithin(a, b, doc, cs, lo, hi)
    ensures x in a.chunks ==> x in b.chunks
  {
    assert SameAt(a, b, x) || HasText(b, x, cs[x.1]);
  }

  lemma NothingWritten(index: Index, doc: DocId, cs: seq<Bytes>, at: nat)
    requires at <= |cs|
    ensures WroteWithin(index, index, doc, cs, at, |cs|) && Holds(index, doc, cs, at, at)
  {
  }

  lemma HeldJoins(index: Index, doc: DocId, cs: seq<Bytes>, lo: nat, mid: nat, hi: nat)
    requires lo <= mid <= hi <= |cs| && Holds(index, doc, cs, lo, mid) && Holds(index, doc, cs, mid, hi)
    ensures Holds(index, doc, cs, lo, hi)
  {
  }
}
