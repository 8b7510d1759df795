/**
  The life of a document across processes: claim, chunk and embed, delete, index in batches, mark.
  Any worker may stop anywhere, any request to the index may land only partly, a delete removes only
  what a search can see, and the terminal writes do not check which attempt is writing
  (internal/ingest/handler.go, internal/store/documents.go, internal/search/search.go).
*/
module IngestProtocol {
  import opened Prelude
  import opened DocumentRows

  type WorkerId = nat

  /** The _id of an indexed chunk: its document and its place in it. */
  type ChunkId = (DocId, nat)

  type Chunks = map<ChunkId, Bytes>

  /** The chunks written, and those of them that no refresh has shown to searches yet. */
  datatype Index = Index(chunks: Chunks, unseen: set<ChunkId>)

  const EMPTY: Index := Index(map[], {})

  /** What the chunker makes of each stored file, or None where it refuses it. */
  datatype Config = Config(lease: nat, chunked: DocId -> Option<seq<Bytes>>)

  datatype Phase =
    | Claimed
    | Embedded
    | Indexing(written: nat)
    | Dirty
    | Failing

  datatype Worker = Worker(doc: DocId, own: nat, since: Time, phase: Phase)

  datatype State = State(docs: Docs, index: Index, now: Time, inbox: multiset<DocId>, workers: map<WorkerId, Worker>)

  datatype Action =
    | Create(id: DocId, enqueued: bool)
    | Enqueue(id: DocId)
    | Deliver(w: WorkerId, id: DocId)
    | DeliverUnreadable(w: WorkerId, id: DocId)
    | Commit(id: DocId)
    | Embed(w: WorkerId)
    | FailEarly(w: WorkerId)
    | Delete(w: WorkerId)
    | DeletePartly(w: WorkerId, gone: set<nat>)
    | BulkPartly(w: WorkerId, batch: nat, landed: set<nat>, answered: bool)
    | Bulk(w: WorkerId, batch: nat)
    | BulkFails(w: WorkerId)
    | CleanUp(w: WorkerId)
    | CleanUpPartly(w: WorkerId, gone: set<nat>)
    | Ready(w: WorkerId)
    | Fail(w: WorkerId, reason: Bytes)
    | Stop(w: WorkerId)
    | Refresh(id: DocId, shown: set<nat>)
    | Tick(elapsed: nat)

  ghost predicate Init(s: State) {
    s.docs == map[] && s.index == EMPTY && s.inbox == multiset{} && s.workers == map[]
  }

  // ---------------------------------------------------------------- the index

  /** A delete finds what a search finds, so it leaves the document's unseen chunks. */
  function Deleted(index: Index, doc: DocId): Index {
    index.(chunks := map c | c in index.chunks && (c.0 != doc || c in index.unseen) :: index.chunks[c])
  }

  function PartlyDeleted(index: Index, doc: DocId, gone: set<nat>): Index {
    index.(chunks := map c | c in index.chunks && !(c.0 == doc && c.1 in gone) :: index.chunks[c])
  }

  /** A refresh shows some of a document's places. */
  function Shown(index: Index, doc: DocId, shown: set<nat>): Index {
    index.(unseen := set c | c in index.unseen && !(c.0 == doc && c.1 in shown))
  }

  /** The chunks of `cs` at the places in `landed`, over whatever was there. */
  function Over(chunks: Chunks, doc: DocId, cs: seq<Bytes>, landed: set<nat>): Chunks {
    chunks + map i | i in landed && i < |cs| :: (doc, i) := cs[i]
  }

  /** A request that is answered has waited for the refresh that shows what it wrote. */
  function Written(index: Index, doc: DocId, cs: seq<Bytes>, landed: set<nat>): Index {
    Shown(Index(Over(index.chunks, doc, cs, landed), index.unseen), doc, landed)
  }

  /** One that is given up on has not: what it wrote at new places is unseen for a while. */
  function Abandoned(index: Index, doc: DocId, cs: seq<Bytes>, landed: set<nat>): Index {
    Index(Over(index.chunks, doc, cs, landed),
          index.unseen + set i | i in landed && i < |cs| && (doc, i) !in index.chunks :: (doc, i))
  }

  function Range(lo: nat, hi: nat): (r: set<nat>)
    ensures forall i: nat :: i in r <==> lo <= i < hi
    decreases hi - lo
  {
    if lo >= hi then {} else {lo} + Range(lo + 1, hi)
  }

  // ---------------------------------------------------------------- the actions

  predicate Enabled(c: Config, s: State, a: Action) {
    match a
    case Create(id, _) => id !in s.docs
    case Enqueue(id) => id in s.docs
    case Deliver(w, id) => w !in s.workers && id in s.inbox
    case DeliverUnreadable(w, id) => w !in s.workers && id in s.inbox
    case Commit(id) => id in s.inbox
    case Embed(w) => w in s.workers && s.workers[w].phase.Claimed? && c.chunked(s.workers[w].doc).Some?
    case FailEarly(w) => w in s.workers && s.workers[w].phase.Claimed?
    case Delete(w) => w in s.workers && s.workers[w].phase.Embedded? && c.chunked(s.workers[w].doc).Some?
    case DeletePartly(w, _) => w in s.workers && s.workers[w].phase.Embedded?
    case BulkPartly(w, batch, landed, _) =>
      MayBulk(c, s, w, batch) && landed <= Range(s.workers[w].phase.written, s.workers[w].phase.written + batch)
    case Bulk(w, batch) => MayBulk(c, s, w, batch)
    case BulkFails(w) => w in s.workers && s.workers[w].phase.Indexing?
    case CleanUp(w) => w in s.workers && s.workers[w].phase.Dirty?
    case CleanUpPartly(w, _) => w in s.workers && s.workers[w].phase.Dirty?
    case Ready(w) => w in s.workers && s.workers[w].phase.Indexing? && c.chunked(s.workers[w].doc).Some?
                     && s.workers[w].phase.written == |c.chunked(s.workers[w].doc).value|
    case Fail(w, _) => w in s.workers && s.workers[w].phase.Failing?
    case Stop(w) => w in s.workers
    case Refresh(_, _) => true
    case Tick(_) => true
  }

  predicate MayBulk(c: Config, s: State, w: WorkerId, batch: nat) {
    && w in s.workers && s.workers[w].phase.Indexing? && c.chunked(s.workers[w].doc).Some?
    && s.workers[w].phase.written + batch <= |c.chunked(s.workers[w].doc).value|
  }

  function Moved(s: State, w: WorkerId, phase: Phase): State
    requires w in s.workers
  {
    s.(workers := s.workers[w := s.workers[w].(phase := phase)])
  }

  function DoDeliver(c: Config, s: State, w: WorkerId, id: DocId, phase: Phase): State {
    var (docs, claimed) := ClaimDocument(s.docs, id, s.now, c.lease);
    if claimed then s.(docs := docs, workers := s.workers[w := Worker(id, docs[id].attempts, s.now, phase)])
    else s
  }

  function Apply(c: Config, s: State, a: Action): State
    requires Enabled(c, s, a)
  {
    match a
    case Create(id, enqueued) =>
      s.(docs := s.docs[id := NewDocument(s.now)], inbox := if enqueued then s.inbox + multiset{id} else s.inbox)
    case Enqueue(id) => s.(inbox := s.inbox + multiset{id})
    case Deliver(w, id) => DoDeliver(c, s, w, id, Claimed)
    case DeliverUnreadable(w, id) => DoDeliver(c, s, w, id, Failing)
    case Commit(id) => s.(inbox := s.inbox - multiset{id})
    case Embed(w) => Moved(s, w, Embedded)
    case FailEarly(w) => Moved(s, w, Failing)
    case Delete(w) => Moved(s.(index := Deleted(s.index, s.workers[w].doc)), w, Indexing(0))
    case DeletePartly(w, gone) => Moved(s.(index := PartlyDeleted(s.index, s.workers[w].doc, gone)), w, Failing)
    case BulkPartly(w, batch, landed, answered) =>
      var doc, cs := s.workers[w].doc, c.chunked(s.workers[w].doc).value;
      s.(index := if answered then Written(s.index, doc, cs, landed) else Abandoned(s.index, doc, cs, landed))
    case Bulk(w, batch) =>
      var p := s.workers[w].phase;
      Moved(s.(index := Written(s.index, s.workers[w].doc, c.chunked(s.workers[w].doc).value,
                                Range(p.written, p.written + batch))),
            w, Indexing(p.written + batch))
    case BulkFails(w) => Moved(s, w, Dirty)
    case CleanUp(w) => Moved(s.(index := Deleted(s.index, s.workers[w].doc)), w, Failing)
    case CleanUpPartly(w, gone) => Moved(s.(index := PartlyDeleted(s.index, s.workers[w].doc, gone)), w, Failing)
    case Ready(w) =>
      s.(docs := MarkReady(s.docs, s.workers[w].doc, s.workers[w].phase.written, s.now).0, workers := s.workers - {w})
    case Fail(w, reason) =>
      s.(docs := MarkFailed(s.docs, s.workers[w].doc, reason, s.now).0, workers := s.workers - {w})
    case Stop(w) => s.(workers := s.workers - {w})
    case Refresh(id, shown) => s.(index := Shown(s.index, id, shown))
    case Tick(elapsed) => s.(now := s.now + elapsed)
  }

  ghost predicate Next(c: Config, s: State, a: Action, s': State) {
    Enabled(c, s, a) && s' == Apply(c, s, a)
  }

  ghost predicate Behavior(c: Config, b: seq<State>, acts: seq<Action>) {
    && |b| == |acts| + 1
    && Init(b[0])
    && forall i :: 0 <= i < |acts| ==> Next(c, b[i], acts[i], b[i + 1])
  }

  predicate TouchesIndex(a: Action) {
    a.Delete? || a.DeletePartly? || a.BulkPartly? || a.Bulk? || a.CleanUp? || a.CleanUpPartly?
  }

  predicate MarksRow(a: Action) { a.Ready? || a.Fail? }

  /** An attempt touches the index and writes its verdict before its lease is over. */
  predicate EffectInLease(c: Config, s: State, a: Action) {
    (TouchesIndex(a) || MarksRow(a)) && a.w in s.workers ==> s.now <= s.workers[a.w].since + c.lease
  }

  // ---------------------------------------------------------------- what holds in every behaviour

  lemma ReadyRowStays(c: Config, s: State, a: Action, d: DocId)
    requires Enabled(c, s, a) && d in s.docs && s.docs[d].status.Ready?
    ensures d in Apply(c, s, a).docs && Apply(c, s, a).docs[d] == s.docs[d]
  {
  }

  lemma BehaviorStep(c: Config, b: seq<State>, acts: seq<Action>, i: nat)
    requires Behavior(c, b, acts) && i + 1 < |b|
    ensures |b| == |acts| + 1 && Enabled(c, b[i], acts[i]) && b[i + 1] == Apply(c, b[i], acts[i])
  {
    hide Enabled, Apply;
    assert Next(c, b[i], acts[i], b[i + 1]);
  }

  /** A READY row is never written again. */
  lemma {:induction false} ReadyRowsAreFinal(c: Config, b: seq<State>, acts: seq<Action>, i: nat, j: nat, d: DocId)
    requires Behavior(c, b, acts) && i <= j < |b|
    requires d in b[i].docs && b[i].docs[d].status.Ready?
    ensures d in b[j].docs && b[j].docs[d] == b[i].docs[d]
    decreases j
  {
    if i == j {
    } else {
      hide *;
      BehaviorStep(c, b, acts, j - 1);
      ReadyRowsAreFinal(c, b, acts, i, j - 1, d);
      ReadyRowStays(c, b[j - 1], acts[j - 1], d);
    }
  }

  /**
    A document's chunks move only under a worker that has every vector in hand: a failed read,
    chunking or embedding leaves the index as it was.
  */
  lemma IndexMovesOnlyAfterEmbedding(c: Config, s: State, a: Action, s': State, chunk: ChunkId)
    requires Next(c, s, a, s')
    requires (chunk in s.index.chunks) != (chunk in s'.index.chunks)
      || (chunk in s.index.chunks && s.index.chunks[chunk] != s'.index.chunks[chunk])
    ensures TouchesIndex(a) && a.w in s.workers && s.workers[a.w].doc == chunk.0
    ensures s.workers[a.w].phase.Embedded? || s.workers[a.w].phase.Indexing? || s.workers[a.w].phase.Dirty?
  {
  }

  // ---------------------------------------------------------------- exactness

  ghost predicate Owns(s: State, k: Worker) {
    && k.doc in s.docs
    && s.docs[k.doc].status.Processing?
    && s.docs[k.doc].attempts == k.own
    && s.docs[k.doc].processingStartedAt == Some(k.since)
  }

  /** A mark moves its row exactly when the row is PROCESSING, whoever claimed it. */
  predicate MovesRow(s: State, a: Action) {
    && MarksRow(a) && a.w in s.workers && s.workers[a.w].doc in s.docs
    && s.docs[s.workers[a.w].doc].status.Processing?
  }

  /** An index request, and a mark that moves its row, is made under the document's current claim. */
  ghost predicate UnderItsClaim(s: State, a: Action) {
    && (TouchesIndex(a) && a.w in s.workers ==> Owns(s, s.workers[a.w]))
    && (MovesRow(s, a) ==> Owns(s, s.workers[a.w]))
  }

  /** A worker either holds the document's current claim or has outlived its own. */
  ghost predicate WorkerOk(c: Config, s: State, k: Worker) {
    && k.doc in s.docs
    && k.own <= s.docs[k.doc].attempts
    && (Owns(s, k) || k.since + c.lease < s.now)
  }

  ghost predicate WorkersOk(c: Config, s: State) {
    && (forall w :: w in s.workers ==> WorkerOk(c, s, s.workers[w]))
    && forall w, v :: w in s.workers && v in s.workers && w != v ==>
         s.workers[w].doc != s.workers[v].doc || s.workers[w].own != s.workers[v].own
  }

  /** Whatever its age, an indexed chunk is what the chunker makes of its document, at its own place. */
  ghost predicate OwnText(c: Config, chunks: Chunks) {
    forall x: ChunkId :: x in chunks ==>
      c.chunked(x.0).Some? && x.1 < |c.chunked(x.0).value| && chunks[x] == c.chunked(x.0).value[x.1]
  }

  /** The first n places of `doc` are there. */
  ghost predicate HoldsFirst(index: Index, doc: DocId, n: nat) {
    forall i: nat :: i < n ==> (doc, i) in index.chunks
  }

  /** Exactly the chunker's output, under the ids doc-0 .. doc-(n-1). */
  ghost predicate Exact(index: Index, doc: DocId, cs: seq<Bytes>) {
    forall i: nat :: ((doc, i) in index.chunks <==> i < |cs|) && (i < |cs| ==> index.chunks[(doc, i)] == cs[i])
  }

  ghost predicate IndexingOk(c: Config, s: State, k: Worker) {
    k.phase.Indexing? && Owns(s, k) ==>
      c.chunked(k.doc).Some? && HoldsFirst(s.index, k.doc, k.phase.written)
  }

  ghost predicate ReadyOk(c: Config, s: State, d: DocId)
    requires d in s.docs
  {
    s.docs[d].status.Ready? ==>
      && c.chunked(d).Some?
      && Exact(s.index, d, c.chunked(d).value)
      && s.docs[d].chunkCount == |c.chunked(d).value|
  }

  ghost predicate Inv(c: Config, s: State) {
    && WorkersOk(c, s)
    && OwnText(c, s.index.chunks)
    && (forall w :: w in s.workers ==> IndexingOk(c, s, s.workers[w]))
    && (forall d :: d in s.docs ==> ReadyOk(c, s, d))
  }

  // ---------------------------------------------------------------- one action at a time

  predicate SameClaim(k: Worker, k': Worker) { k.doc == k'.doc && k.own == k'.own && k.since == k'.since }

  /** No row moves and no claim is made; a worker may go away or, unless it starts indexing, move on. */
  ghost predicate Quiet(s: State, s': State) {
    && s'.docs == s.docs && s'.index.chunks == s.index.chunks && s.now <= s'.now
    && forall w :: w in s'.workers ==> w in s.workers && QuietMove(s.workers[w], s'.workers[w])
  }

  predicate QuietMove(k: Worker, k': Worker) { SameClaim(k, k') && (k'.phase.Indexing? ==> k' == k) }

  lemma ActionIsQuiet(c: Config, s: State, a: Action)
    requires Enabled(c, s, a) && !a.Create? && !a.Deliver? && !a.DeliverUnreadable? && !TouchesIndex(a) && !MarksRow(a)
    ensures Quiet(s, Apply(c, s, a))
  {
  }

  lemma WorkersStayOk(c: Config, s: State, s': State)
    requires WorkersOk(c, s) && s'.docs == s.docs && s.now <= s'.now
    requires forall w :: w in s'.workers ==> w in s.workers && SameClaim(s.workers[w], s'.workers[w])
    ensures WorkersOk(c, s')
  {
    forall w | w in s'.workers ensures WorkerOk(c, s', s'.workers[w]) {
      assert WorkerOk(c, s, s.workers[w]) && SameClaim(s.workers[w], s'.workers[w]);
    }
    forall w, v | w in s'.workers && v in s'.workers && w != v
      ensures s'.workers[w].doc != s'.workers[v].doc || s'.workers[w].own != s'.workers[v].own
    {
      assert SameClaim(s.workers[w], s'.workers[w]) && SameClaim(s.workers[v], s'.workers[v]);
    }
  }

  lemma QuietKeepsInv(c: Config, s: State, s': State)
    requires Inv(c, s) && Quiet(s, s')
    ensures Inv(c, s')
  {
    forall w | w in s'.workers ensures SameClaim(s.workers[w], s'.workers[w]) && IndexingOk(c, s', s'.workers[w]) {
      assert QuietMove(s.workers[w], s'.workers[w]) && IndexingOk(c, s, s.workers[w]);
    }
    WorkersStayOk(c, s, s');
    forall d | d in s'.docs ensures ReadyOk(c, s', d) {
      assert ReadyOk(c, s, d);
    }
  }

  lemma CreateKeepsInv(c: Config, s: State, id: DocId, enqueued: bool)
    requires Inv(c, s) && id !in s.docs
    ensures Inv(c, Apply(c, s, Create(id, enqueued)))
  {
    var s' := Apply(c, s, Create(id, enqueued));
    forall w | w in s'.workers ensures WorkerOk(c, s', s'.workers[w]) && IndexingOk(c, s', s'.workers[w]) {
      assert WorkerOk(c, s, s.workers[w]) && IndexingOk(c, s, s.workers[w]);
    }
    forall d | d in s'.docs ensures ReadyOk(c, s', d) {
      assert d != id ==> ReadyOk(c, s, d);
    }
  }

  lemma DeliverKeepsInv(c: Config, s: State, w: WorkerId, id: DocId, phase: Phase)
    requires Inv(c, s) && w !in s.workers && !phase.Indexing?
    ensures Inv(c, DoDeliver(c, s, w, id, phase))
  {
    var s' := DoDeliver(c, s, w, id, phase);
    if ClaimDocument(s.docs, id, s.now, c.lease).1 {
      forall v | v in s.workers
        ensures WorkerOk(c, s', s.workers[v]) && IndexingOk(c, s', s.workers[v])
        ensures s.workers[v].doc == id ==> s.workers[v].own < s'.workers[w].own
      {
        assert WorkerOk(c, s, s.workers[v]) && IndexingOk(c, s, s.workers[v]);
      }
      forall d | d in s'.docs ensures ReadyOk(c, s', d) {
        assert ReadyOk(c, s, d);
      }
    }
  }

  /** The chunks of every other document are as they were. */
  ghost predicate SameElsewhere(a: Chunks, b: Chunks, doc: DocId) {
    forall x: ChunkId :: x.0 != doc ==> (x in b <==> x in a) && (x in a ==> b[x] == a[x])
  }

  /** The owner of a document changes that document's chunks and nothing else. */
  lemma TouchKeepsInv(c: Config, s: State, s': State, w: WorkerId)
    requires Inv(c, s) && w in s.workers && Owns(s, s.workers[w])
    requires s'.docs == s.docs && s'.now == s.now
    requires w in s'.workers && s'.workers == s.workers[w := s'.workers[w]] && SameClaim(s.workers[w], s'.workers[w])
    requires SameElsewhere(s.index.chunks, s'.index.chunks, s.workers[w].doc)
    requires OwnText(c, s'.index.chunks) && IndexingOk(c, s', s'.workers[w])
    ensures Inv(c, s')
  {
    WorkersStayOk(c, s, s');
    forall v | v in s'.workers && v != w ensures IndexingOk(c, s', s'.workers[v]) {
      assert IndexingOk(c, s, s.workers[v]);
      assert Owns(s, s.workers[v]) ==> s.workers[v].doc != s.workers[w].doc;
    }
    forall d | d in s'.docs ensures ReadyOk(c, s', d) {
      assert ReadyOk(c, s, d);
    }
  }

  lemma OverHoldsMore(index: Index, after: Index, doc: DocId, cs: seq<Bytes>, n: nat, batch: nat, landed: set<nat>)
    requires HoldsFirst(index, doc, n) && n + batch <= |cs| && after.chunks == Over(index.chunks, doc, cs, landed)
    ensures HoldsFirst(after, doc, n) && (landed == Range(n, n + batch) ==> HoldsFirst(after, doc, n + batch))
  {
  }

  lemma OverKeepsTheRest(c: Config, chunks: Chunks, doc: DocId, cs: seq<Bytes>, landed: set<nat>)
    requires OwnText(c, chunks) && c.chunked(doc) == Some(cs)
    ensures OwnText(c, Over(chunks, doc, cs, landed)) && SameElsewhere(chunks, Over(chunks, doc, cs, landed), doc)
  {
  }

  lemma DeleteKeepsInv(c: Config, s: State, a: Action)
    requires Inv(c, s) && Enabled(c, s, a) && UnderItsClaim(s, a)
    requires a.Delete? || a.DeletePartly? || a.CleanUp? || a.CleanUpPartly?
    ensures Inv(c, Apply(c, s, a))
  {
    assert WorkerOk(c, s, s.workers[a.w]);
    TouchKeepsInv(c, s, Apply(c, s, a), a.w);
  }

  lemma BulkKeepsInv(c: Config, s: State, a: Action)
    requires Inv(c, s) && Enabled(c, s, a) && UnderItsClaim(s, a) && (a.BulkPartly? || a.Bulk?)
    ensures Inv(c, Apply(c, s, a))
  {
    hide Over, Range, HoldsFirst, WorkersOk, ReadyOk, OwnText, SameElsewhere;
    var k := s.workers[a.w];
    assert WorkerOk(c, s, k) && IndexingOk(c, s, k);
    var cs, n := c.chunked(k.doc).value, k.phase.written;
    var landed := if a.Bulk? then Range(n, n + a.batch) else a.landed;
    var s' := Apply(c, s, a);
    assert s'.index.chunks == Over(s.index.chunks, k.doc, cs, landed);
    OverKeepsTheRest(c, s.index.chunks, k.doc, cs, landed);
    OverHoldsMore(s.index, s'.index, k.doc, cs, n, a.batch, landed);
    TouchKeepsInv(c, s, s', a.w);
  }

  lemma MarkKeepsInv(c: Config, s: State, a: Action)
    requires Inv(c, s) && Enabled(c, s, a) && UnderItsClaim(s, a) && MarksRow(a)
    ensures Inv(c, Apply(c, s, a))
  {
    var s' := Apply(c, s, a);
    var k := s.workers[a.w];
    assert WorkerOk(c, s, k) && IndexingOk(c, s, k);
    forall v | v in s'.workers ensures WorkerOk(c, s', s'.workers[v]) && IndexingOk(c, s', s'.workers[v]) {
      assert WorkerOk(c, s, s.workers[v]) && IndexingOk(c, s, s.workers[v]);
    }
    forall d | d in s'.docs ensures ReadyOk(c, s', d) {
      assert ReadyOk(c, s, d);
    }
  }

  lemma NewClaimKeepsInv(c: Config, s: State, a: Action)
    requires Inv(c, s) && Enabled(c, s, a) && (a.Create? || a.Deliver? || a.DeliverUnreadable?)
    ensures Inv(c, Apply(c, s, a))
  {
    match a
    case Create(id, enqueued) => CreateKeepsInv(c, s, id, enqueued);
    case Deliver(w, id) => DeliverKeepsInv(c, s, w, id, Claimed);
    case DeliverUnreadable(w, id) => DeliverKeepsInv(c, s, w, id, Failing);
  }

  lemma NextKeepsInv(c: Config, s: State, a: Action)
    requires Inv(c, s) && Enabled(c, s, a) && UnderItsClaim(s, a)
    ensures Inv(c, Apply(c, s, a))
  {
    if a.Create? || a.Deliver? || a.DeliverUnreadable? {
      NewClaimKeepsInv(c, s, a);
    } else if a.BulkPartly? || a.Bulk? {
      BulkKeepsInv(c, s, a);
    } else if TouchesIndex(a) {
      DeleteKeepsInv(c, s, a);
    } else if MarksRow(a) {
      MarkKeepsInv(c, s, a);
    } else {
      ActionIsQuiet(c, s, a);
      QuietKeepsInv(c, s, Apply(c, s, a));
    }
  }

  /** Inside its lease a worker holds its document's current claim. */
  lemma TimelyEffectsAreUnderTheirClaims(c: Config, s: State, a: Action)
    requires Inv(c, s) && EffectInLease(c, s, a)
    ensures UnderItsClaim(s, a)
  {
    if (TouchesIndex(a) || MarksRow(a)) && a.w in s.workers {
      assert WorkerOk(c, s, s.workers[a.w]);
    }
  }

  // ---------------------------------------------------------------- over whole behaviours

  ghost predicate EffectsUnderTheirClaims(b: seq<State>, acts: seq<Action>)
    requires |b| == |acts| + 1
  {
    forall i :: 0 <= i < |acts| ==> UnderItsClaim(b[i], acts[i])
  }

  ghost predicate EffectsInLease(c: Config, b: seq<State>, acts: seq<Action>)
    requires |b| == |acts| + 1
  {
    forall i :: 0 <= i < |acts| ==> EffectInLease(c, b[i], acts[i])
  }

  lemma {:induction false} ReachableInv(c: Config, b: seq<State>, acts: seq<Action>, i: nat)
    requires Behavior(c, b, acts) && EffectsUnderTheirClaims(b, acts) && i < |b|
    ensures Inv(c, b[i])
  {
    if i == 0 {
    } else {
      ReachableInv(c, b, acts, i - 1);
      assert Next(c, b[i - 1], acts[i - 1], b[i]) && UnderItsClaim(b[i - 1], acts[i - 1]);
      NextKeepsInv(c, b[i - 1], acts[i - 1]);
    }
  }

  /**
    In every reachable state the indexed chunks of a READY document are exactly the chunker's
    output, and chunk_count says how many, whatever earlier attempts left behind or a delete
    missed, as long as no worker touches the index or moves the row once its document has been
    claimed again.
  */
  lemma ReadyDocumentsAreExactlyIndexed(c: Config, b: seq<State>, acts: seq<Action>, i: nat, d: DocId)
    requires Behavior(c, b, acts) && EffectsUnderTheirClaims(b, acts) && i < |b|
    requires d in b[i].docs && b[i].docs[d].status.Ready?
    ensures c.chunked(d).Some? && b[i].docs[d].chunkCount == |c.chunked(d).value|
    ensures forall k: nat :: (d, k) in b[i].index.chunks <==> k < |c.chunked(d).value|
    ensures forall k: nat :: k < |c.chunked(d).value| ==> b[i].index.chunks[(d, k)] == c.chunked(d).value[k]
  {
    ReachableInv(c, b, acts, i);
    assert ReadyOk(c, b[i], d);
  }

  lemma {:induction false} ReachableInLeaseInv(c: Config, b: seq<State>, acts: seq<Action>, i: nat)
    requires Behavior(c, b, acts) && EffectsInLease(c, b, acts) && i < |b|
    ensures Inv(c, b[i])
  {
    if i == 0 {
    } else {
      ReachableInLeaseInv(c, b, acts, i - 1);
      assert Next(c, b[i - 1], acts[i - 1], b[i]) && EffectInLease(c, b[i - 1], acts[i - 1]);
      TimelyEffectsAreUnderTheirClaims(c, b[i - 1], acts[i - 1]);
      NextKeepsInv(c, b[i - 1], acts[i - 1]);
    }
  }

  /** The leases do that: effects inside their leases are all under their document's current claim. */
  lemma LeasesKeepEffectsUnderTheirClaims(c: Config, b: seq<State>, acts: seq<Action>)
    requires Behavior(c, b, acts) && EffectsInLease(c, b, acts)
    ensures EffectsUnderTheirClaims(b, acts)
  {
    forall i | 0 <= i < |acts| ensures UnderItsClaim(b[i], acts[i]) {
      ReachableInLeaseInv(c, b, acts, i);
      assert EffectInLease(c, b[i], acts[i]);
      TimelyEffectsAreUnderTheirClaims(c, b[i], acts[i]);
    }
  }

  lemma {:induction false} ExtendedBy(c: Config, b: seq<State>, acts: seq<Action>, a: Action)
    requires Behavior(c, b, acts) && Enabled(c, b[|acts|], a)
    ensures Behavior(c, b + [Apply(c, b[|acts|], a)], acts + [a])
    ensures EffectsInLease(c, b, acts) && EffectInLease(c, b[|acts|], a) ==>
              EffectsInLease(c, b + [Apply(c, b[|acts|], a)], acts + [a])
  {
    hide Enabled, Apply, Init;
    var b', acts' := b + [Apply(c, b[|acts|], a)], acts + [a];
    forall i | 0 <= i < |acts'| ensures Next(c, b'[i], acts'[i], b'[i + 1]) {
      if i < |acts| {
        assert Next(c, b[i], acts[i], b[i + 1]);
      }
    }
  }

  /** Worker `w` has written every chunk and is about to mark; worker `v` has claimed the document since. */
  predicate Superseded(c: Config, s: State, w: WorkerId, v: WorkerId) {
    && w in s.workers && v in s.workers && w != v
    && s.workers[v].doc == s.workers[w].doc && s.workers[w].doc in s.docs
    && s.docs[s.workers[w].doc].status.Processing?
    && c.chunked(s.workers[w].doc).Some? && c.chunked(s.workers[w].doc).value != []
    && s.workers[w].phase == Indexing(|c.chunked(s.workers[w].doc).value|)
    && (s.workers[v].phase.Claimed? || s.workers[v].phase.Embedded?)
  }

  /**
    And it must: from every state, however reached, in which a superseded worker may still mark and its
    successor has yet to delete, the mark lands and, once a refresh has shown the chunks, the delete
    follows, at the same moment. The document is then READY with its count, and its chunks are gone.
  */
  lemma ASupersededMarkBreaksExactness(c: Config, b: seq<State>, acts: seq<Action>, w: WorkerId, v: WorkerId)
    returns (b': seq<State>, acts': seq<Action>)
    requires Behavior(c, b, acts) && Superseded(c, b[|acts|], w, v)
    ensures Behavior(c, b', acts') && b <= b' && acts < acts' && acts'[|acts|] == Action.Ready(w)
    ensures b'[|acts'|].now == b[|acts|].now
    ensures var d, last := b[|acts|].workers[w].doc, b'[|acts'|];
            && d in last.docs && last.docs[d].status.Ready? && last.docs[d].chunkCount == |c.chunked(d).value| > 0
            && forall k: nat :: (d, k) !in last.index.chunks
  {
    hide Apply, Enabled, Next, Init, EffectsInLease;
    var s := b[|acts|];
    var doc := s.workers[w].doc;
    MarksAndShows(c, s, w, v);
    ExtendedBy(c, b, acts, Action.Ready(w));
    var s1 := Apply(c, s, Action.Ready(w));
    b', acts' := b + [s1], acts + [Action.Ready(w)];
    ExtendedBy(c, b', acts', Refresh(doc, Hidden(s1.index, doc)));
    var s2 := Apply(c, s1, Refresh(doc, Hidden(s1.index, doc)));
    b', acts' := b' + [s2], acts' + [Refresh(doc, Hidden(s1.index, doc))];
    DeletesWhatIsShown(c, s2, v);
    if s.workers[v].phase.Claimed? {
      ExtendedBy(c, b', acts', Embed(v));
      s2 := Apply(c, s2, Embed(v));
      b', acts' := b' + [s2], acts' + [Embed(v)];
      DeletesWhatIsShown(c, s2, v);
    }
    ExtendedBy(c, b', acts', Delete(v));
    b', acts' := b' + [Apply(c, s2, Delete(v))], acts' + [Delete(v)];
  }

  /** The places of a document that no search sees. */
  function Hidden(index: Index, doc: DocId): set<nat> { set x | x in index.unseen && x.0 == doc :: x.1 }

  predicate NoneHidden(index: Index, doc: DocId) { forall x :: x in index.unseen ==> x.0 != doc }

  lemma MarksAndShows(c: Config, s: State, w: WorkerId, v: WorkerId)
    requires Superseded(c, s, w, v)
    ensures Enabled(c, s, Action.Ready(w))
    ensures var d, s1 := s.workers[w].doc, Apply(c, s, Action.Ready(w));
            && Enabled(c, s1, Refresh(d, Hidden(s1.index, d)))
            && var s2 := Apply(c, s1, Refresh(d, Hidden(s1.index, d)));
               && NoneHidden(s2.index, d) && s2.now == s.now && v in s2.workers && s2.workers[v] == s.workers[v]
               && d in s2.docs && s2.docs[d].status.Ready? && s2.docs[d].chunkCount == |c.chunked(d).value|
  {
  }

  lemma DeletesWhatIsShown(c: Config, s: State, v: WorkerId)
    requires v in s.workers && NoneHidden(s.index, s.workers[v].doc) && c.chunked(s.workers[v].doc).Some?
    ensures s.workers[v].phase.Claimed? ==>
              && Enabled(c, s, Embed(v)) && Apply(c, s, Embed(v)) == Moved(s, v, Embedded)
    ensures s.workers[v].phase.Embedded? ==>
              && Enabled(c, s, Delete(v))
              && var s' := Apply(c, s, Delete(v));
                 s'.docs == s.docs && s'.now == s.now && forall k: nat :: (s.workers[v].doc, k) !in s'.index.chunks
  {
  }

  // ---------------------------------------------------------------- what a clean delete leaves

  /** The action writes chunk `x` at a new place and is given up on. */
  predicate Hides(s: State, a: Action, x: ChunkId) {
    && a.BulkPartly? && !a.answered && a.w in s.workers && s.workers[a.w].doc == x.0
    && x.1 in a.landed && x !in s.index.chunks
  }

  /** A refresh shows chunk `x`: one by itself, or the one an answered request has waited for. */
  predicate Shows(s: State, a: Action, x: ChunkId) {
    || (a.Refresh? && a.id == x.0 && x.1 in a.shown)
    || (a.BulkPartly? && a.answered && a.w in s.workers && s.workers[a.w].doc == x.0 && x.1 in a.landed)
    || (a.Bulk? && a.w in s.workers && s.workers[a.w].doc == x.0 && s.workers[a.w].phase.Indexing?
        && s.workers[a.w].phase.written <= x.1 < s.workers[a.w].phase.written + a.batch)
  }

  lemma UnseenNext(c: Config, s: State, a: Action, x: ChunkId)
    requires Enabled(c, s, a)
    ensures x in Apply(c, s, a).index.unseen <==> Hides(s, a, x) || (x in s.index.unseen && !Shows(s, a, x))
  {
    if a.BulkPartly? && a.w in s.workers && s.workers[a.w].doc == x.0 && x.1 in a.landed {
      var n := s.workers[a.w].phase.written;
      assert x.1 in Range(n, n + a.batch);
    }
  }

  /** Some request before state i wrote `x` and was given up on, and no refresh has shown it since. */
  ghost predicate AbandonedBefore(b: seq<State>, acts: seq<Action>, i: nat, x: ChunkId)
    requires i <= |acts| && |b| == |acts| + 1
  {
    exists j :: 0 <= j < i && Hides(b[j], acts[j], x) && forall k :: j < k < i ==> !Shows(b[k], acts[k], x)
  }

  lemma AbandonedNext(b: seq<State>, acts: seq<Action>, i: nat, x: ChunkId)
    requires i < |acts| && |b| == |acts| + 1
    ensures AbandonedBefore(b, acts, i + 1, x) <==>
              Hides(b[i], acts[i], x) || (AbandonedBefore(b, acts, i, x) && !Shows(b[i], acts[i], x))
  {
    hide Hides, Shows;
    if AbandonedBefore(b, acts, i, x) && !Shows(b[i], acts[i], x) {
      var j :| 0 <= j < i && Hides(b[j], acts[j], x) && forall k :: j < k < i ==> !Shows(b[k], acts[k], x);
      assert forall k :: j < k < i + 1 ==> !Shows(b[k], acts[k], x);
    }
  }

  /** So much, and no more, is hidden from a delete. */
  lemma {:induction false} UnseenIffAbandoned(c: Config, b: seq<State>, acts: seq<Action>, i: nat, x: ChunkId)
    requires Behavior(c, b, acts) && i < |b|
    ensures x in b[i].index.unseen <==> AbandonedBefore(b, acts, i, x)
  {
    if i == 0 {
    } else {
      hide Enabled, Apply, Hides, Shows, Init, AbandonedBefore;
      BehaviorStep(c, b, acts, i - 1);
      UnseenIffAbandoned(c, b, acts, i - 1, x);
      UnseenNext(c, b[i - 1], acts[i - 1], x);
      AbandonedNext(b, acts, i - 1, x);
    }
  }

  /**
    The clean-up that is to leave a failed document with no chunk at all leaves, on a clean reply,
    exactly the chunks of requests that were given up on and that no refresh has shown since.
  */
  lemma ACleanupLeavesWhatWasAbandoned(c: Config, b: seq<State>, acts: seq<Action>, i: nat, k: nat)
    requires Behavior(c, b, acts) && i < |acts| && acts[i].CleanUp?
    ensures acts[i].w in b[i].workers
    ensures var x := (b[i].workers[acts[i].w].doc, k);
            x in b[i + 1].index.chunks <==> x in b[i].index.chunks && AbandonedBefore(b, acts, i, x)
  {
    hide AbandonedBefore;
    BehaviorStep(c, b, acts, i);
    UnseenIffAbandoned(c, b, acts, i, (b[i].workers[acts[i].w].doc, k));
  }

  /**
    And such a request can always come: a worker that has a place yet to write writes it, gives up, cleans
    up and records the failure, all at one moment of its lease. The row is FAILED and the chunk is there.
  */
  lemma AnAbandonedChunkOutlivesItsCleanup(c: Config, b: seq<State>, acts: seq<Action>, w: WorkerId, i: nat,
                                           reason: Bytes)
    returns (b': seq<State>, acts': seq<Action>)
    requires Behavior(c, b, acts) && w in b[|acts|].workers && b[|acts|].workers[w].phase.Indexing?
    requires c.chunked(b[|acts|].workers[w].doc).Some?
    requires b[|acts|].workers[w].phase.written <= i < |c.chunked(b[|acts|].workers[w].doc).value|
    requires (b[|acts|].workers[w].doc, i) !in b[|acts|].index.chunks
    requires MovesRow(b[|acts|], Fail(w, reason))
    ensures acts' == acts + [BulkPartly(w, i + 1 - b[|acts|].workers[w].phase.written, {i}, false)] + [BulkFails(w)]
                     + [CleanUp(w)] + [Fail(w, reason)]
    ensures Behavior(c, b', acts') && b <= b' && b'[|acts'|].now == b[|acts|].now
    ensures var d, last := b[|acts|].workers[w].doc, b'[|acts'|];
            d in last.docs && last.docs[d].status.Failed? && (d, i) in last.index.chunks
    ensures EffectsInLease(c, b, acts) && b[|acts|].now <= b[|acts|].workers[w].since + c.lease ==>
              EffectsInLease(c, b', acts')
  {
    hide Apply, Enabled, Next, Init, EffectsInLease;
    var s := b[|acts|];
    var n := s.workers[w].phase.written;
    var a := BulkPartly(w, i + 1 - n, {i}, false);
    AbandonsOne(c, s, w, i);
    ExtendedBy(c, b, acts, a);
    var s1 := Apply(c, s, a);
    b', acts' := b + [s1], acts + [a];
    GivesUp(c, s1, w);
    ExtendedBy(c, b', acts', BulkFails(w));
    var s2 := Apply(c, s1, BulkFails(w));
    b', acts' := b' + [s2], acts' + [BulkFails(w)];
    CleansUpTheRest(c, s2, w, i);
    ExtendedBy(c, b', acts', CleanUp(w));
    var s3 := Apply(c, s2, CleanUp(w));
    b', acts' := b' + [s3], acts' + [CleanUp(w)];
    FailsItsRow(c, s3, w, reason);
    ExtendedBy(c, b', acts', Fail(w, reason));
    b', acts' := b' + [Apply(c, s3, Fail(w, reason))], acts' + [Fail(w, reason)];
  }

  lemma AbandonsOne(c: Config, s: State, w: WorkerId, i: nat)
    requires w in s.workers && s.workers[w].phase.Indexing? && c.chunked(s.workers[w].doc).Some?
    requires s.workers[w].phase.written <= i < |c.chunked(s.workers[w].doc).value|
    requires (s.workers[w].doc, i) !in s.index.chunks
    ensures var x, a := (s.workers[w].doc, i), BulkPartly(w, i + 1 - s.workers[w].phase.written, {i}, false);
            && Enabled(c, s, a)
            && x in Apply(c, s, a).index.chunks && x in Apply(c, s, a).index.unseen
            && Apply(c, s, a) == s.(index := Apply(c, s, a).index)
  {
  }

  lemma GivesUp(c: Config, s: State, w: WorkerId)
    requires w in s.workers && s.workers[w].phase.Indexing?
    ensures Enabled(c, s, BulkFails(w)) && Apply(c, s, BulkFails(w)) == Moved(s, w, Dirty)
  {
  }

  lemma CleansUpTheRest(c: Config, s: State, w: WorkerId, i: nat)
    requires w in s.workers && s.workers[w].phase.Dirty?
    requires (s.workers[w].doc, i) in s.index.chunks && (s.workers[w].doc, i) in s.index.unseen
    ensures Enabled(c, s, CleanUp(w)) && (s.workers[w].doc, i) in Apply(c, s, CleanUp(w)).index.chunks
    ensures var s' := Apply(c, s, CleanUp(w));
            s'.docs == s.docs && s'.now == s.now && w in s'.workers && s'.workers[w] == s.workers[w].(phase := Failing)
  {
  }

  lemma FailsItsRow(c: Config, s: State, w: WorkerId, reason: Bytes)
    requires w in s.workers && s.workers[w].phase.Failing? && MovesRow(s, Fail(w, reason))
    ensures Enabled(c, s, Fail(w, reason))
    ensures var d, s' := s.workers[w].doc, Apply(c, s, Fail(w, reason));
            d in s'.docs && s'.docs[d].status.Failed? && s'.index == s.index && s'.now == s.now
  {
  }

  /** The index requests, and only they, are inside the lease. */
  ghost predicate TouchesInLease(c: Config, b: seq<State>, acts: seq<Action>)
    requires |b| == |acts| + 1
  {
    forall i :: 0 <= i < |acts| && TouchesIndex(acts[i]) ==> EffectInLease(c, b[i], acts[i])
  }

  lemma {:induction false} Extended(c: Config, b: seq<State>, acts: seq<Action>, a: Action, s': State)
    requires Behavior(c, b, acts) && TouchesInLease(c, b, acts) && Next(c, b[|acts|], a, s')
    requires TouchesIndex(a) ==> EffectInLease(c, b[|acts|], a)
    ensures Behavior(c, b + [s'], acts + [a]) && TouchesInLease(c, b + [s'], acts + [a])
  {
    var b', acts' := b + [s'], acts + [a];
    forall i | 0 <= i < |acts'| ensures Next(c, b'[i], acts'[i], b'[i + 1]) {
      if i < |acts| {
        assert Next(c, b[i], acts[i], b[i + 1]);
      }
    }
  }

  /** Worker 0 claims document 0 at time 0. */
  lemma FirstClaim(c: Config) returns (b: seq<State>, acts: seq<Action>)
    ensures Behavior(c, b, acts) && TouchesInLease(c, b, acts) && EffectsInLease(c, b, acts) && |acts| == 2
    ensures b[2] == State(map[0 := ClaimedDocument(NewDocument(0), 0)], EMPTY, 0, multiset{0},
                          map[0 := Worker(0, 1, 0, Claimed)])
  {
    var s0 := State(map[], EMPTY, 0, multiset{}, map[]);
    var s1 := s0.(docs := map[0 := NewDocument(0)], inbox := multiset{0});
    var s2 := s1.(docs := map[0 := ClaimedDocument(NewDocument(0), 0)], workers := map[0 := Worker(0, 1, 0, Claimed)]);
    Extended(c, [s0], [], Create(0, true), s1);
    b, acts := [s0] + [s1], [] + [Create(0, true)];
    Extended(c, b, acts, Deliver(0, 0), s2);
    b, acts := b + [s2], acts + [Deliver(0, 0)];
  }

  /** So a document can be FAILED, its clean-up clean and its every request in the lease, and keep a chunk. */
  lemma AFailedDocumentMayKeepAChunk(c: Config, x: Bytes, reason: Bytes) returns (b: seq<State>, acts: seq<Action>)
    requires c.chunked(0) == Some([x])
    ensures Behavior(c, b, acts) && EffectsInLease(c, b, acts)
    ensures |acts| == 8 && acts[6..] == [CleanUp(0), Fail(0, reason)]
    ensures 0 in b[8].docs && b[8].docs[0].status.Failed? && (0, 0) in b[8].index.chunks
  {
    hide Apply, Enabled, Next, Init, EffectsInLease;
    b, acts := FirstClaim(c);
    var s := b[2];
    EmbedsAndDeletes(c, s);
    ExtendedBy(c, b, acts, Embed(0));
    b, acts := b + [Apply(c, s, Embed(0))], acts + [Embed(0)];
    ExtendedBy(c, b, acts, Delete(0));
    b, acts := b + [Apply(c, b[3], Delete(0))], acts + [Delete(0)];
    b, acts := AnAbandonedChunkOutlivesItsCleanup(c, b, acts, 0, 0, reason);
  }

  lemma EmbedsAndDeletes(c: Config, s: State)
    requires 0 in s.workers && s.workers[0].phase.Claimed? && c.chunked(s.workers[0].doc).Some? && s.index == EMPTY
    ensures Enabled(c, s, Embed(0))
    ensures var s' := Apply(c, s, Embed(0));
            && s' == Moved(s, 0, Embedded) && Enabled(c, s', Delete(0))
            && Apply(c, s', Delete(0)) == Moved(s, 0, Indexing(0))
  {
    assert Deleted(EMPTY, s.workers[0].doc) == EMPTY;
  }

  /** It embeds and indexes the one chunk, still at time 0. */
  lemma OneChunkIndexed(c: Config, x: Bytes) returns (b: seq<State>, acts: seq<Action>)
    requires c.chunked(0) == Some([x])
    ensures Behavior(c, b, acts) && TouchesInLease(c, b, acts) && |acts| == 5
    ensures b[5].now == 0 && b[5].docs == map[0 := ClaimedDocument(NewDocument(0), 0)] && b[5].inbox == multiset{0}
    ensures b[5].index.unseen == {} && b[5].workers == map[0 := Worker(0, 1, 0, Indexing(1))]
  {
    hide Apply, Enabled, Init, TouchesInLease, EffectsInLease;
    b, acts := FirstClaim(c);
    EmbedsAndDeletes(c, b[2]);
    var s3, s4 := Moved(b[2], 0, Embedded), Moved(b[2], 0, Indexing(0));
    WritesTheOne(c, s4, x);
    var s5 := Apply(c, s4, Bulk(0, 1));
    Extended(c, b, acts, Embed(0), s3);
    b, acts := b + [s3], acts + [Embed(0)];
    Extended(c, b, acts, Delete(0), s4);
    b, acts := b + [s4], acts + [Delete(0)];
    Extended(c, b, acts, Bulk(0, 1), s5);
    b, acts := b + [s5], acts + [Bulk(0, 1)];
  }

  lemma WritesTheOne(c: Config, s: State, x: Bytes)
    requires 0 in s.workers && s.workers[0].doc == 0 && c.chunked(0) == Some([x])
    requires s.workers[0].phase == Indexing(0) && s.index == EMPTY
    ensures Enabled(c, s, Bulk(0, 1))
    ensures var s' := Apply(c, s, Bulk(0, 1));
            s' == Moved(s, 0, Indexing(1)).(index := s'.index) && s'.index.unseen == {}
  {
  }

  /** Worker 0 then stalls past its lease, and worker 1 reclaims the document. */
  lemma IndexedThenReclaimed(c: Config, x: Bytes) returns (b: seq<State>, acts: seq<Action>)
    requires c.chunked(0) == Some([x])
    ensures Behavior(c, b, acts) && TouchesInLease(c, b, acts) && |acts| == 7
    ensures b[7].now == c.lease + 1 && 0 in b[7].docs && b[7].docs[0].status.Processing?
    ensures b[7].index.unseen == {}
    ensures b[7].workers == map[0 := Worker(0, 1, 0, Indexing(1)), 1 := Worker(0, 2, c.lease + 1, Claimed)]
  {
    b, acts := OneChunkIndexed(c, x);
    var t := c.lease + 1;
    var s6 := b[5].(now := t);
    var s7 := s6.(docs := map[0 := ClaimedDocument(b[5].docs[0], t)],
                  workers := map[0 := Worker(0, 1, 0, Indexing(1)), 1 := Worker(0, 2, t, Claimed)]);
    Extended(c, b, acts, Tick(t), s6);
    b, acts := b + [s6], acts + [Tick(t)];
    Extended(c, b, acts, Deliver(1, 0), s7);
    b, acts := b + [s7], acts + [Deliver(1, 0)];
  }

  /**
    Keeping only the index requests inside the lease is not enough. Worker 0 indexes in time but
    writes READY late, just after worker 1 has reclaimed the document and deleted its chunks: the
    row then says one chunk and the index holds none.
  */
  lemma ALateVerdictBreaksExactness(c: Config, x: Bytes) returns (b: seq<State>, acts: seq<Action>)
    requires c.chunked(0) == Some([x])
    ensures Behavior(c, b, acts) && TouchesInLease(c, b, acts) && |acts| == 10
    ensures 0 in b[10].docs && b[10].docs[0].status.Ready? && b[10].docs[0].chunkCount == 1
    ensures (0, 0) !in b[10].index.chunks
  {
    b, acts := IndexedThenReclaimed(c, x);
    var s7 := b[7];
    var s8 := Moved(s7, 1, Embedded);
    var s9 := Moved(s8.(index := Deleted(s8.index, 0)), 1, Indexing(0));
    var s10 := Apply(c, s9, Action.Ready(0));
    Extended(c, b, acts, Embed(1), s8);
    b, acts := b + [s8], acts + [Embed(1)];
    Extended(c, b, acts, Delete(1), s9);
    b, acts := b + [s9], acts + [Delete(1)];
    Extended(c, b, acts, Action.Ready(0), s10);
    b, acts := b + [s10], acts + [Action.Ready(0)];
  }
}
