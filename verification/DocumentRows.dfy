/**
  The rows of documents and the conditional updates that move them (internal/store/documents.go).
*/
module DocumentRows {
  import opened Prelude

  type DocId = nat

  datatype DocStatus = Pending | Processing | Ready | Failed

  datatype Document = Document(
    status: DocStatus,
    failureReason: Option<Bytes>,
    chunkCount: nat,
    attempts: nat,
    processingStartedAt: Option<Time>,
    updatedAt: Time)

  type Docs = map<DocId, Document>

  function NewDocument(t: Time): Document { Document(Pending, None, 0, 0, None, t) }

  /** FAILED is claimable again; a NULL stamp fails the comparison. */
  predicate Claimable(d: Document, t: Time, lease: Duration) {
    d.status.Pending? || d.status.Failed?
    || (d.status.Processing? && d.processingStartedAt.Some? && d.processingStartedAt.value < t - lease)
  }

  function ClaimedDocument(d: Document, t: Time): Document {
    d.(status := Processing, attempts := d.attempts + 1, processingStartedAt := Some(t), updatedAt := t)
  }

  function ClaimDocument(docs: Docs, id: DocId, t: Time, lease: Duration): (Docs, bool) {
    if id in docs && Claimable(docs[id], t, lease) then (docs[id := ClaimedDocument(docs[id], t)], true)
    else (docs, false)
  }

  /** Neither terminal write looks at the attempt: PROCESSING is all they ask. */
  function MarkReady(docs: Docs, id: DocId, chunks: nat, t: Time): (Docs, bool) {
    if id in docs && docs[id].status.Processing? then
      (docs[id := docs[id].(status := Ready, chunkCount := chunks, failureReason := None, updatedAt := t)], true)
    else (docs, false)
  }

  function MarkFailed(docs: Docs, id: DocId, reason: Bytes, t: Time): (Docs, bool) {
    if id in docs && docs[id].status.Processing? then
      (docs[id := docs[id].(status := Failed, failureReason := Some(reason), updatedAt := t)], true)
    else (docs, false)
  }

  // ---------------------------------------------------------------- what they write, column by column

  /** Waiting, failed, or at work since more than a lease ago. */
  ghost predicate Free(d: Document, t: Time, lease: Duration) {
    || d.status == Pending || d.status == Failed
    || (d.status == Processing && exists since :: d.processingStartedAt == Some(since) && since + lease < t)
  }

  /** One attempt more, begun at t; the count and the reason of an earlier one stay. */
  ghost predicate Taken(before: Document, after: Document, t: Time) {
    && after.status == Processing && after.attempts == before.attempts + 1
    && after.processingStartedAt == Some(t) && after.updatedAt == t
    && after.chunkCount == before.chunkCount && after.failureReason == before.failureReason
  }

  /** The count is recorded and the reason of an earlier failure is gone. */
  ghost predicate Completed(before: Document, after: Document, chunks: nat, t: Time) {
    && after.status == Ready && after.chunkCount == chunks && after.failureReason == None && after.updatedAt == t
    && after.attempts == before.attempts && after.processingStartedAt == before.processingStartedAt
  }

  /** The reason is recorded; the count stays. */
  ghost predicate GivenUp(before: Document, after: Document, reason: Bytes, t: Time) {
    && after.status == Failed && after.failureReason == Some(reason) && after.updatedAt == t
    && after.chunkCount == before.chunkCount && after.attempts == before.attempts
    && after.processingStartedAt == before.processingStartedAt
  }

  /** No row but this one's has changed. */
  ghost predicate OnlyRow(before: Docs, after: Docs, id: DocId) {
    id in after && after.Keys == before.Keys + {id} && forall d :: d in before && d != id ==> after[d] == before[d]
  }

  class DocumentStore {
    var docs: Docs

    constructor ()
      ensures docs == map[]
    {
      docs := map[];
    }

    method Create(id: DocId, t: Time) returns (ok: bool)
      modifies this
      ensures ok <==> id !in old(docs)
      ensures docs == if ok then old(docs)[id := NewDocument(t)] else old(docs)
      ensures ok ==>
                && OnlyRow(old(docs), docs, id) && docs[id].status == Pending && docs[id].attempts == 0
                && docs[id].failureReason == None && docs[id].chunkCount == 0
                && docs[id].processingStartedAt == None && docs[id].updatedAt == t
    {
      ok := id !in docs;
      if ok {
        docs := docs[id := NewDocument(t)];
      }
    }

    method Claim(id: DocId, t: Time, lease: Duration) returns (claimed: bool)
      modifies this
      ensures (docs, claimed) == ClaimDocument(old(docs), id, t, lease)
      ensures claimed <==> id in old(docs) && Free(old(docs)[id], t, lease)
      ensures !claimed ==> docs == old(docs)
      ensures claimed ==> OnlyRow(old(docs), docs, id) && Taken(old(docs)[id], docs[id], t)
    {
      claimed := id in docs && Claimable(docs[id], t, lease);
      if claimed {
        docs := docs[id := ClaimedDocument(docs[id], t)];
      }
    }

    method MarkDocumentReady(id: DocId, chunks: nat, t: Time) returns (updated: bool)
      modifies this
      ensures (docs, updated) == MarkReady(old(docs), id, chunks, t)
      ensures updated <==> id in old(docs) && old(docs)[id].status == Processing
      ensures !updated ==> docs == old(docs)
      ensures updated ==> OnlyRow(old(docs), docs, id) && Completed(old(docs)[id], docs[id], chunks, t)
    {
      updated := id in docs && docs[id].status.Processing?;
      if updated {
        docs := docs[id := docs[id].(status := Ready, chunkCount := chunks, failureReason := None, updatedAt := t)];
      }
    }

    method MarkDocumentFailed(id: DocId, reason: Bytes, t: Time) returns (updated: bool)
      modifies this
      ensures (docs, updated) == MarkFailed(old(docs), id, reason, t)
      ensures updated <==> id in old(docs) && old(docs)[id].status == Processing
      ensures !updated ==> docs == old(docs)
      ensures updated ==> OnlyRow(old(docs), docs, id) && GivenUp(old(docs)[id], docs[id], reason, t)
    {
      updated := id in docs && docs[id].status.Processing?;
      if updated {
        docs := docs[id := docs[id].(status := Failed, failureReason := Some(reason), updatedAt := t)];
      }
    }
  }
}
