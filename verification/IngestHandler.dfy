/**
  One delivery of a document message: claim, read, chunk, embed, delete, index, mark
  (internal/ingest/handler.go). What each dependency answers, and how long it takes, is arbitrary.
*/
module IngestHandler {
  import opened Prelude
  import opened DocumentRows
  import opened IngestProtocol
  import opened SearchIndex

  /** The deadline on each write that records how a document ended, and on the cleanup. */
  const TERMINAL_TIMEOUT: nat := 10 * SECOND

  datatype Message = Readable | UnknownVersion | Undecodable

  /**
    What one delivery meets. `chunks` is what the chunker makes of the stored file, None when the file
    cannot be read or is refused; `embedded` is whether every chunk got its vector. The durations are
    what each request would take if nothing cut it short; `claiming` runs from the moment the claim
    took its stamp, `reading` is the file and the chunking, and `indexing` gives each bulk request its
    own, the pause before a repeated one included.
  */
  datatype Delivery = Delivery(
    message: Message,
    claimFails: bool,
    chunks: Option<seq<Bytes>>,
    embedded: bool,
    deleted: DeleteReply,
    bulk: nat -> BulkReply,
    cleaned: DeleteReply,
    markFails: bool,
    reason: Bytes,
    claiming: nat, lookup: nat, reading: nat, embedding: nat, deleting: nat, indexing: nat -> nat, cleaning: nat,
    marking: nat)

  datatype Verdict = Skipped | Unclaimed | MarkedReady(chunks: nat) | MarkedFailed | Unmarked

  // ---------------------------------------------------------------- when a delivery is over

  /** When a request made at t under a deadline is over. */
  function Within(t: Time, took: nat, deadline: Time): Time { Max(t, Min(t + took, deadline)) }

  /** The look-up heeds the deadline; reading and chunking the file do not. */
  function FileRead(d: Delivery, t: Time, deadline: Time): Time { Within(t, d.lookup, deadline) + d.reading }

  function VectorsAt(d: Delivery, t: Time, deadline: Time): Time {
    var read := FileRead(d, t, deadline);
    if d.chunks.None? then read else Within(read, d.embedding, deadline)
  }

  /** When the bulk requests from number `from` up to `to` are over, one after another. */
  function RequestsEnd(t: Time, took: nat -> nat, from: nat, to: nat, deadline: Time): Time
    decreases if from < to then to - from else 0
  {
    if from >= to then t else RequestsEnd(Within(t, took(from), deadline), took, from + 1, to, deadline)
  }

  /** When the writing that began at t is over, its cleanup included, which has a deadline of its own. */
  function WrittenAt(index: Index, calls: nat, id: DocId, d: Delivery, t: Time, deadline: Time): Time
    requires Prepared(d)
  {
    var deleted := Within(t, d.deleting, deadline);
    var indexed := RequestsEnd(deleted, d.indexing, calls, IndexCalls(index, calls, id, d), deadline);
    if d.deleted.Partial? then deleted
    else if Succeeds(index, calls, id, d) then indexed
    else indexed + Min(d.cleaning, TERMINAL_TIMEOUT)
  }

  /** The requests made once the first delete is over and clean. */
  function IndexCalls(index: Index, calls: nat, id: DocId, d: Delivery): nat
    requires Prepared(d)
  {
    Batches(Removed(index, id, d.deleted), id, d.chunks.value, 0, d.bulk, calls).calls
  }

  function WorkedAt(index: Index, calls: nat, id: DocId, d: Delivery, t: Time, deadline: Time): Time {
    var ready := VectorsAt(d, t, deadline);
    if Prepared(d) then WrittenAt(index, calls, id, d, ready, deadline) else ready
  }

  /** When a delivery whose claim returned at t is over. */
  function EndsAt(index: Index, calls: nat, id: DocId, d: Delivery, t: Time, documentTimeout: nat): Time {
    WorkedAt(index, calls, id, d, t, t + documentTimeout) + Min(d.marking, TERMINAL_TIMEOUT)
  }

  /** The document was handed to the index: every vector was in hand. */
  predicate Prepared(d: Delivery) { d.chunks.Some? && d.embedded }

  /** Chunks of other documents are untouched; those of this one are as before, gone, or its own text. */
  ghost predicate OnlyThisDocument(a: Index, b: Index, id: DocId, cs: seq<Bytes>) {
    forall c: ChunkId ::
      SameAt(a, b, c) || (c.0 == id && (c in b.chunks ==> c.1 < |cs| && HasText(b, c, cs[c.1])))
  }

  /** What a delivery that was claimed leaves in the index. */
  function IndexAfter(index: Index, calls: nat, id: DocId, d: Delivery): Index {
    if !Prepared(d) then index
    else
      var cleared := Removed(index, id, d.deleted);
      if d.deleted.Partial? then cleared
      else
        var b := Batches(cleared, id, d.chunks.value, 0, d.bulk, calls);
        if b.ok then b.index else Removed(b.index, id, d.cleaned)
  }

  /** Whether every chunk made it in. */
  predicate Succeeds(index: Index, calls: nat, id: DocId, d: Delivery) {
    Prepared(d) && d.deleted.Cleared? && Batches(Removed(index, id, d.deleted), id, d.chunks.value, 0, d.bulk, calls).ok
  }

  /** The index when the requests of a delivery are over, before any clean-up. */
  function Requests(index: Index, calls: nat, id: DocId, d: Delivery): Bulked
    requires Prepared(d)
  {
    Batches(Removed(index, id, d.deleted), id, d.chunks.value, 0, d.bulk, calls)
  }

  /** What the first delete missed is at the places this delivery writes, if anything. */
  ghost predicate MissedOnlyWithin(index: Index, id: DocId, reply: DeleteReply, n: nat) {
    forall i: nat :: Missed(index, id, reply, i) ==> i < n
  }

  /** Of the document, the index holds exactly what the clean-up missed. */
  ghost predicate LeftTheMissed(before: Index, after: Index, id: DocId, reply: DeleteReply) {
    forall i: nat :: (id, i) in after.chunks <==> Missed(before, id, reply, i)
  }

  /**
    A delivery whose chunks all made it in holds them all, and nothing else of its document unless the
    first delete missed a place beyond them. One that failed part-way leaves exactly what a clean
    clean-up misses. In every case only chunks that were there or are this document's own are left.
  */
  lemma WhatADeliveryLeaves(index: Index, calls: nat, id: DocId, d: Delivery)
    requires Prepared(d)
    ensures var cs, after := d.chunks.value, IndexAfter(index, calls, id, d);
            && OnlyThisDocument(index, after, id, cs)
            && (Succeeds(index, calls, id, d) ==>
                  && Holds(after, id, cs, 0, |cs|)
                  && (Exact(after, id, cs) <==> MissedOnlyWithin(index, id, d.deleted, |cs|)))
            && (!Succeeds(index, calls, id, d) && d.deleted.Cleared? && d.cleaned.Cleared? ==>
                  LeftTheMissed(Requests(index, calls, id, d).index, after, id, d.cleaned))
  {
    hide Exact, WroteWithin, Holds, OnlyRemoved, OnlyThisDocument, Removed, Batches, MissedOnlyWithin;
    var cs := d.chunks.value;
    var cleared := Removed(index, id, d.deleted);
    DeletingRemovesOnlyTheDocument(index, id, d.deleted);
    if d.deleted.Partial? {
      RemovedOnly(index, cleared, id, cs);
    } else {
      var b := Batches(cleared, id, cs, 0, d.bulk, calls);
      BatchesWriteTheDocument(cleared, id, cs, 0, d.bulk, calls);
      ClearedThenWritten(index, cleared, b.index, id, cs);
      if b.ok {
        ExactUnlessMissedBeyond(index, cleared, b.index, id, d.deleted, cs);
      } else {
        DeletingRemovesOnlyTheDocument(b.index, id, d.cleaned);
        ThenRemoved(index, b.index, Removed(b.index, id, d.cleaned), id, cs);
      }
    }
  }

  /**
    Of a document that searches saw whole, all that a failed delivery can leave behind two clean deletes
    is what its last bulk request wrote at new places before it was given up on.
  */
  lemma OnlyAnAbandonedRequestIsLeft(index: Index, calls: nat, id: DocId, d: Delivery, i: nat)
    requires Prepared(d) && !Succeeds(index, calls, id, d) && d.deleted.Cleared? && d.cleaned.Cleared?
    requires forall k: nat :: (id, k) !in index.unseen
    requires (id, i) in IndexAfter(index, calls, id, d).chunks
    ensures GivenUpOn(d.bulk, Requests(index, calls, id, d).calls, i)
    ensures i < |d.chunks.value| && i !in d.cleaned.shown
  {
    hide Batches, GivenUpOn;
    var cleared := Removed(index, id, d.deleted);
    DeletingRemovesOnlyTheDocument(Requests(index, calls, id, d).index, id, d.cleaned);
    assert (id, i) !in cleared.unseen;
    OnlyTheLastRequestHides(cleared, id, d.chunks.value, 0, d.bulk, calls, i);
  }

  lemma RemovedOnly(a: Index, b: Index, id: DocId, cs: seq<Bytes>)
    requires OnlyRemoved(a, b, id)
    ensures OnlyThisDocument(a, b, id, cs)
  {
    forall k: ChunkId ensures SameAt(a, b, k) || (k.0 == id && k !in b.chunks) {
    }
  }

  lemma ClearedThenWritten(a: Index, b: Index, c: Index, id: DocId, cs: seq<Bytes>)
    requires OnlyRemoved(a, b, id) && WroteWithin(b, c, id, cs, 0, |cs|)
    ensures OnlyThisDocument(a, c, id, cs)
  {
    forall k: ChunkId
      ensures SameAt(a, c, k) || (k.0 == id && (k in c.chunks ==> k.1 < |cs| && HasText(c, k, cs[k.1]))) {
      assert SameAt(a, b, k) || (k.0 == id && k !in b.chunks);
      assert SameAt(b, c, k) || (k.0 == id && 0 <= k.1 < |cs| && HasText(c, k, cs[k.1]));
    }
  }

  /** Every place of the document is written over, so only what lies beyond them can be wrong. */
  lemma ExactUnlessMissedBeyond(a: Index, b: Index, c: Index, id: DocId, reply: DeleteReply, cs: seq<Bytes>)
    requires forall i: nat :: (id, i) in b.chunks <==> Missed(a, id, reply, i)
    requires WroteWithin(b, c, id, cs, 0, |cs|) && Holds(c, id, cs, 0, |cs|)
    ensures Exact(c, id, cs) <==> MissedOnlyWithin(a, id, reply, |cs|)
  {
    hide Missed;
    forall i: nat
      ensures i < |cs| ==> HasText(c, (id, i), cs[i])
      ensures i >= |cs| ==> ((id, i) in c.chunks <==> Missed(a, id, reply, i)) {
      assert SameAt(b, c, (id, i)) || (i < |cs| && HasText(c, (id, i), cs[i]));
    }
  }

  lemma ThenRemoved(a: Index, b: Index, c: Index, id: DocId, cs: seq<Bytes>)
    requires OnlyThisDocument(a, b, id, cs) && OnlyRemoved(b, c, id)
    ensures OnlyThisDocument(a, c, id, cs)
  {
    forall k: ChunkId
      ensures SameAt(a, c, k) || (k.0 == id && (k in c.chunks ==> k.1 < |cs| && HasText(c, k, cs[k.1]))) {
      assert SameAt(a, b, k) || (k.0 == id && (k in b.chunks ==> k.1 < |cs| && HasText(b, k, cs[k.1])));
      assert SameAt(b, c, k) || (k.0 == id && k !in c.chunks);
    }
  }

  class Handler {
    const store: DocumentStore
    const index: ChunkIndex
    const lease: Duration
    const documentTimeout: nat

    var now: Time

    constructor (store: DocumentStore, index: ChunkIndex, lease: Duration, documentTimeout: nat, now: Time)
      ensures this.store == store && this.index == index && this.lease == lease
      ensures this.documentTimeout == documentTimeout && this.now == now
    {
      this.store, this.index, this.lease, this.documentTimeout, this.now := store, index, lease, documentTimeout, now;
    }

    /** A request under a deadline is over by it. */
    method Spend(took: nat, deadline: Time)
      modifies this
      ensures now == Within(old(now), took, deadline)
    {
      now := Max(now, Min(now + took, deadline));
    }

    /** What the requests just made took, one after another. */
    method SpendRequests(took: nat -> nat, from: nat, to: nat, deadline: Time)
      modifies this
      ensures now == RequestsEnd(old(now), took, from, to, deadline)
    {
      var k := from;
      while k < to
        invariant k <= Max(from, to)
        invariant RequestsEnd(old(now), took, from, to, deadline) == RequestsEnd(now, took, k, to, deadline)
      {
        Spend(took(k), deadline);
        k := k + 1;
      }
    }

    /** Delete, then index; a failed index is cleaned up on a context of its own. */
    method Write(id: DocId, d: Delivery, deadline: Time) returns (ok: bool)
      requires Prepared(d)
      modifies this, index
      ensures index.content == IndexAfter(old(index.content), old(index.calls), id, d)
      ensures ok == Succeeds(old(index.content), old(index.calls), id, d)
      ensures index.calls == if d.deleted.Partial? then old(index.calls)
                             else Requests(old(index.content), old(index.calls), id, d).calls
      ensures now == WrittenAt(old(index.content), old(index.calls), id, d, old(now), deadline)
    {
      hide Removed, Batches;
      Spend(d.deleting, deadline);
      ok := index.DeleteByDocument(id, d.deleted);
      if !ok {
        return;
      }
      var before := index.calls;
      ok := index.IndexChunks(id, d.chunks.value, d.bulk);
      SpendRequests(d.indexing, before, index.calls, deadline);
      if !ok {
        Spend(d.cleaning, now + TERMINAL_TIMEOUT);
        var _ := index.DeleteByDocument(id, d.cleaned);
      }
    }

    /** From a claimed row to a finished one: ingestion up to the deadline, then the write that outlives it. */
    method Process(id: DocId, d: Delivery) returns (v: Verdict)
      requires id in store.docs && store.docs[id].status.Processing?
      modifies this, index, store
      ensures v == if d.markFails then Unmarked
                   else if Succeeds(old(index.content), old(index.calls), id, d) then MarkedReady(|d.chunks.value|)
                   else MarkedFailed
      ensures index.content == IndexAfter(old(index.content), old(index.calls), id, d)
      ensures v.MarkedReady? ==> d.chunks.Some? && d.embedded && d.deleted.Cleared? && !d.markFails
      ensures d.chunks.None? || !d.embedded ==> index.content == old(index.content)
      ensures d.chunks.None? || !d.embedded || d.deleted.Partial? ==> index.calls == old(index.calls)
      ensures d.chunks.Some? && d.embedded && d.deleted.Cleared? ==>
                index.calls == Requests(old(index.content), old(index.calls), id, d).calls
      ensures d.chunks.Some? && d.embedded && d.deleted.Cleared? && !d.markFails && (forall k :: d.bulk(k).Accepted?) ==>
                v == MarkedReady(|d.chunks.value|)
      ensures store.docs == match v
                            case MarkedReady(n) => MarkReady(old(store.docs), id, n, now).0
                            case MarkedFailed => MarkFailed(old(store.docs), id, d.reason, now).0
                            case _ => old(store.docs)
      ensures now == EndsAt(old(index.content), old(index.calls), id, d, old(now), documentTimeout)
    {
      hide IndexAfter, Succeeds, WrittenAt, Within, MarkReady, MarkFailed, Requests;
      SucceedsOnly(index.content, index.calls, id, d);
      Unprepared(index.content, index.calls, id, d);
      var deadline := now + documentTimeout;
      Spend(d.lookup, deadline);
      now := now + d.reading;
      if d.chunks.Some? {
        Spend(d.embedding, deadline);
      }
      var ok := false;
      if Prepared(d) {
        ok := Write(id, d, deadline);
      }
      DetachedWithin(now, d.marking);
      Spend(d.marking, now + TERMINAL_TIMEOUT);
      if d.markFails {
        return Unmarked;
      }
      if ok {
        var _ := store.MarkDocumentReady(id, |d.chunks.value|, now);
        return MarkedReady(|d.chunks.value|);
      }
      var _ := store.MarkDocumentFailed(id, d.reason, now);
      return MarkedFailed;
    }

    /**
      The whole delivery. A document marked READY holds every chunk, and nothing else unless the first
      delete missed a place beyond them; one that failed behind clean deletes holds what the clean-up
      missed; one whose embedding failed keeps the chunks it had; and whatever happens, no other
      document's row or chunk is touched.
    */
    method Handle(id: DocId, d: Delivery) returns (v: Verdict)
      modifies this, index, store
      ensures v.Skipped? <==> d.message.Undecodable? || d.claimFails
      ensures v.Skipped? || v.Unclaimed? ==> index.content == old(index.content) && store.docs == old(store.docs)
      ensures var (claimed, won) := ClaimDocument(old(store.docs), id, old(now), lease);
              && (v.Unclaimed? <==> !v.Skipped? && !won)
              && (v.MarkedReady? ==> store.docs == MarkReady(claimed, id, v.chunks, now).0)
              && (v.MarkedFailed? ==> store.docs == MarkFailed(claimed, id, d.reason, now).0)
              && (v.Unmarked? ==> store.docs == claimed)
      ensures d.chunks.None? || !d.embedded || d.message.UnknownVersion? ==>
                index.content == old(index.content) && !v.MarkedReady?
      ensures v.MarkedFailed? && d.message.Readable? && d.chunks.Some? && d.embedded && d.deleted.Cleared? ==>
                !forall k :: d.bulk(k).Accepted?
      ensures Prepared(d) ==> OnlyThisDocument(old(index.content), index.content, id, d.chunks.value)
      ensures v.MarkedReady? ==>
                && Prepared(d) && v.chunks == |d.chunks.value|
                && Holds(index.content, id, d.chunks.value, 0, |d.chunks.value|)
                && (Exact(index.content, id, d.chunks.value) <==>
                      MissedOnlyWithin(old(index.content), id, d.deleted, |d.chunks.value|))
      ensures d.message.Readable? && Prepared(d) && v.MarkedFailed? && d.deleted.Cleared? && d.cleaned.Cleared? ==>
                LeftTheMissed(Requests(old(index.content), old(index.calls), id, d).index, index.content, id, d.cleaned)
      ensures now == if d.message.Undecodable? then old(now)
                     else if v.Skipped? || v.Unclaimed? then old(now) + d.claiming
                     else if d.message.UnknownVersion? then old(now) + d.claiming + Min(d.marking, TERMINAL_TIMEOUT)
                     else EndsAt(old(index.content), old(index.calls), id, d, old(now) + d.claiming, documentTimeout)
    {
      hide Exact, OnlyThisDocument, IndexAfter, Succeeds, Holds, MissedOnlyWithin, LeftTheMissed, Requests;
      if Prepared(d) {
        WhatADeliveryLeaves(index.content, index.calls, id, d);
        Untouched(index.content, id, d.chunks.value);
      }
      Unprepared(index.content, index.calls, id, d);
      if d.message.Undecodable? {
        return Skipped;
      }
      var stamp := now;
      now := now + d.claiming;
      if d.claimFails {
        return Skipped;
      }
      var claimed := store.Claim(id, stamp, lease);
      if !claimed {
        return Unclaimed;
      }
      if d.message.UnknownVersion? {
        Spend(d.marking, now + TERMINAL_TIMEOUT);
        if d.markFails {
          return Unmarked;
        }
        var _ := store.MarkDocumentFailed(id, d.reason, now);
        return MarkedFailed;
      }
      v := Process(id, d);
    }
  }

  lemma SucceedsOnly(index: Index, calls: nat, id: DocId, d: Delivery)
    ensures Succeeds(index, calls, id, d) ==> d.chunks.Some? && d.embedded && d.deleted.Cleared?
    ensures d.chunks.Some? && d.embedded && d.deleted.Cleared? && (forall k :: d.bulk(k).Accepted?) ==>
              Succeeds(index, calls, id, d)
  {
    hide Batches;
    if d.chunks.Some? && d.embedded && d.deleted.Cleared? && (forall k :: d.bulk(k).Accepted?) {
      AHundredARequest(Removed(index, id, d.deleted), id, d.chunks.value, 0, d.bulk, calls);
    }
  }

  lemma DetachedWithin(t: Time, took: nat)
    ensures Within(t, took, t + TERMINAL_TIMEOUT) == t + Min(took, TERMINAL_TIMEOUT)
  {
  }

  lemma Unprepared(index: Index, calls: nat, id: DocId, d: Delivery)
    ensures !Prepared(d) ==> IndexAfter(index, calls, id, d) == index && !Succeeds(index, calls, id, d)
  {
    hide Batches;
  }

  lemma Untouched(index: Index, id: DocId, cs: seq<Bytes>)
    ensures OnlyThisDocument(index, index, id, cs)
  {
  }

  // ---------------------------------------------------------------- the deadline and the lease

  datatype Settings = Settings(
    interval: Duration, pendingAfter: Duration, batch: int, lease: Duration, maxAttempts: int, documentTimeout: Duration)

  /** LoadReconcile's checks. */
  predicate Loaded(s: Settings) {
    && s.interval > 0 && s.pendingAfter > 0 && s.batch >= 1 && s.lease > 0 && s.maxAttempts >= 1
    && s.documentTimeout > 0 && s.documentTimeout < s.lease
  }

  /** A request that is answered before its deadline, and a write that gets through, was in time. */
  ghost predicate HeedsItsDeadline(index: Index, calls: nat, id: DocId, d: Delivery, t: Time, deadline: Time) {
    && (d.chunks.Some? ==> t + d.lookup <= deadline)
    && (Prepared(d) ==> FileRead(d, t, deadline) + d.embedding <= deadline)
    && (Prepared(d) && d.deleted.Cleared? ==> VectorsAt(d, t, deadline) + d.deleting <= deadline)
    && (Prepared(d) && d.deleted.Cleared? ==>
          forall k: nat :: calls <= k < IndexCalls(index, calls, id, d) && d.bulk(k).Accepted? ==>
            RequestsEnd(Within(VectorsAt(d, t, deadline), d.deleting, deadline), d.indexing, calls, k, deadline)
            + d.indexing(k) <= deadline)
  }

  /** Requests that none of them a deadline cuts short take as long as each of them does. */
  function Sum(took: nat -> nat, from: nat, to: nat): nat
    decreases if from < to then to - from else 0
  {
    if from >= to then 0 else took(from) + Sum(took, from + 1, to)
  }

  lemma {:induction false} UncutRequestsAddUp(t: Time, took: nat -> nat, from: nat, to: nat, deadline: Time)
    requires t + Sum(took, from, to) <= deadline
    ensures RequestsEnd(t, took, from, to, deadline) == t + Sum(took, from, to)
    decreases if from < to then to - from else 0
  {
    if from >= to {
    } else {
      UncutRequestsAddUp(t + took(from), took, from + 1, to, deadline);
    }
  }

  /**
    A delivery that its deadline does not cut short takes what its parts take: the look-up, the file, the
    vectors, the delete, every bulk request, and, ten seconds each at most, the clean-up and the mark.
  */
  lemma AnUnhurriedDeliveryTakesItsTime(index: Index, calls: nat, id: DocId, d: Delivery, t: Time, documentTimeout: nat)
    requires d.chunks.Some? && d.embedded && d.deleted.Cleared?
    requires var to := Requests(index, calls, id, d).calls;
             d.lookup + d.reading + d.embedding + d.deleting + Sum(d.indexing, calls, to) <= documentTimeout
    ensures var b := Requests(index, calls, id, d);
            EndsAt(index, calls, id, d, t, documentTimeout) ==
              t + d.lookup + d.reading + d.embedding + d.deleting + Sum(d.indexing, calls, b.calls)
              + (if b.ok then 0 else Min(d.cleaning, 10_000_000_000)) + Min(d.marking, 10_000_000_000)
  {
    hide Batches, RequestsEnd, Sum;
    var ready := t + d.lookup + d.reading + d.embedding;
    UncutRequestsAddUp(ready + d.deleting, d.indexing, calls, Requests(index, calls, id, d).calls, t + documentTimeout);
  }

  /** One that stops short of indexing takes what it got to. */
  lemma AShortDeliveryTakesItsTime(index: Index, calls: nat, id: DocId, d: Delivery, t: Time, documentTimeout: nat)
    requires d.chunks.None? || !d.embedded || d.deleted.Partial?
    requires d.lookup + d.reading + d.embedding + d.deleting <= documentTimeout
    ensures EndsAt(index, calls, id, d, t, documentTimeout) ==
              t + d.lookup + d.reading + (if d.chunks.Some? then d.embedding else 0)
              + (if d.chunks.Some? && d.embedded then d.deleting else 0) + Min(d.marking, 10_000_000_000)
  {
    hide Batches, RequestsEnd;
  }

  /** A request is over when it is answered, at its deadline if that comes first, or at once if that is past. */
  lemma ARequestIsOver(t: Time, took: nat, deadline: Time)
    ensures t + took <= deadline ==> Within(t, took, deadline) == t + took
    ensures t <= deadline < t + took ==> Within(t, took, deadline) == deadline
    ensures deadline < t ==> Within(t, took, deadline) == t
  {
  }

  /** Requests under a deadline that has not passed are over by it. */
  lemma {:induction false} RequestsEndInTime(t: Time, took: nat -> nat, from: nat, to: nat, deadline: Time)
    ensures t <= RequestsEnd(t, took, from, to, deadline) <= Max(t, deadline)
    decreases if from < to then to - from else 0
  {
    if from >= to {
    } else {
      RequestsEndInTime(Within(t, took(from), deadline), took, from + 1, to, deadline);
    }
  }

  /** A delivery the deadline binds, whose claim and file take no longer than given. */
  ghost predicate Possible(index: Index, calls: nat, id: DocId, d: Delivery, stamp: Time, documentTimeout: nat,
                           claiming: nat, reading: nat) {
    && d.claiming <= claiming && d.reading <= reading
    && HeedsItsDeadline(index, calls, id, d, stamp + d.claiming, stamp + d.claiming + documentTimeout)
  }

  /** Every such delivery is over before anyone else may claim its document. */
  ghost predicate EndsInItsLease(lease: Duration, documentTimeout: nat, claiming: nat, reading: nat) {
    forall index: Index, calls: nat, id: DocId, d: Delivery, stamp: Time ::
      Possible(index, calls, id, d, stamp, documentTimeout, claiming, reading) ==>
        EndsAt(index, calls, id, d, stamp + d.claiming, documentTimeout) <= stamp + lease
  }

  /** The latest a delivery may end, from its stamp. */
  function LatestEnd(documentTimeout: nat, claiming: nat, reading: nat): nat {
    claiming + documentTimeout + Max(reading + TERMINAL_TIMEOUT, 2 * TERMINAL_TIMEOUT)
  }

  lemma EndsByTheLatest(index: Index, calls: nat, id: DocId, d: Delivery, stamp: Time, documentTimeout: nat,
                        claiming: nat, reading: nat)
    requires Possible(index, calls, id, d, stamp, documentTimeout, claiming, reading)
    ensures EndsAt(index, calls, id, d, stamp + d.claiming, documentTimeout) <= stamp + LatestEnd(documentTimeout, claiming, reading)
  {
    hide Succeeds, RequestsEnd, IndexCalls;
    var t := stamp + d.claiming;
    var deadline := t + documentTimeout;
    if Prepared(d) {
      RequestsEndInTime(Within(VectorsAt(d, t, deadline), d.deleting, deadline), d.indexing, calls,
                        IndexCalls(index, calls, id, d), deadline);
    }
  }

  /** A file that is read only once the deadline is over, and a mark that takes its ten seconds. */
  function SlowToRead(claiming: nat, documentTimeout: nat, reading: nat): Delivery {
    Delivery(Readable, false, Some([[]]), false, Cleared({}), _ => Broken({}), Cleared({}), false, [],
             claiming, documentTimeout, reading, 0, 0, _ => 0, 0, TERMINAL_TIMEOUT)
  }

  /** An index that takes all the time there is and fails, and a cleanup and a mark of ten seconds each. */
  function SlowToIndex(claiming: nat, documentTimeout: nat): Delivery {
    Delivery(Readable, false, Some([[]]), true, Cleared({}), _ => Broken({}), Cleared({}), false, [],
             claiming, 0, 0, 0, 0, _ => documentTimeout, TERMINAL_TIMEOUT, TERMINAL_TIMEOUT)
  }

  lemma TheLatestEndIsReached(documentTimeout: nat, claiming: nat, reading: nat, stamp: Time) returns (d: Delivery)
    ensures Possible(EMPTY, 0, 0, d, stamp, documentTimeout, claiming, reading)
    ensures EndsAt(EMPTY, 0, 0, d, stamp + d.claiming, documentTimeout) == stamp + LatestEnd(documentTimeout, claiming, reading)
  {
    if reading > TERMINAL_TIMEOUT {
      d := SlowToRead(claiming, documentTimeout, reading);
    } else {
      d := SlowToIndex(claiming, documentTimeout);
      assert Batches(Removed(EMPTY, 0, d.deleted), 0, [[]], 0, d.bulk, 0) == Bulked(Removed(EMPTY, 0, d.deleted), 1, false);
      assert !Succeeds(EMPTY, 0, 0, d) && IndexCalls(EMPTY, 0, 0, d) == 1;
    }
  }

  /**
    The deadline is said to cover everything to the terminal write. It does not: the claim's stamp is
    older than it, nothing stops a file that is being read, and the cleanup and the mark each run on ten
    seconds of their own. Every delivery is over within its lease exactly when the lease has room for
    all of that.
  */
  lemma EveryDeliveryEndsInItsLeaseIff(lease: Duration, documentTimeout: nat, claiming: nat, reading: nat)
    ensures EndsInItsLease(lease, documentTimeout, claiming, reading) <==>
              LatestEnd(documentTimeout, claiming, reading) <= lease
  {
    hide Possible, EndsAt;
    if LatestEnd(documentTimeout, claiming, reading) <= lease {
      forall index: Index, calls: nat, id: DocId, d: Delivery, stamp: Time
        | Possible(index, calls, id, d, stamp, documentTimeout, claiming, reading)
        ensures EndsAt(index, calls, id, d, stamp + d.claiming, documentTimeout) <= stamp + lease {
        EndsByTheLatest(index, calls, id, d, stamp, documentTimeout, claiming, reading);
      }
    }
    var _ := TheLatestEndIsReached(documentTimeout, claiming, reading, 0);
  }

  /** The loader asks for less: it accepts settings under which no lease holds, however fast the claim and the file. */
  lemma AnAcceptedTimeoutMayOutlastTheLease(s: Settings)
    requires Loaded(s)
    ensures EndsInItsLease(s.lease, s.documentTimeout, 0, 0) <==> s.documentTimeout <= s.lease - 20 * SECOND
    ensures exists t :: Loaded(t) && !EndsInItsLease(t.lease, t.documentTimeout, 0, 0)
  {
    EveryDeliveryEndsInItsLeaseIff(s.lease, s.documentTimeout, 0, 0);
    var t := Settings(30 * SECOND, 60 * SECOND, 100, 10 * MINUTE, 3, 10 * MINUTE - 1);
    EveryDeliveryEndsInItsLeaseIff(t.lease, t.documentTimeout, 0, 0);
    assert Loaded(t);
  }

  /** The defaults leave the claim and the file more than four minutes. */
  lemma DefaultLeaseHolds(claiming: nat, reading: nat)
    requires claiming + reading <= 4 * MINUTE
    ensures EndsInItsLease(10 * MINUTE, 5 * MINUTE, claiming, reading)
  {
    EveryDeliveryEndsInItsLeaseIff(10 * MINUTE, 5 * MINUTE, claiming, reading);
  }
}
