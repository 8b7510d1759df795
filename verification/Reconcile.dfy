/**
  The sweep over rows that no message will ever name again: the policy in Go, the looser query in
  SQL, and what they owe to each other and to the claim (internal/reconcile/policy.go,
  internal/store/reconcile.go, internal/reconcile/runner.go).
*/
module Reconcile {
  import opened Prelude
  import Docs = DocumentRows
  import Runs = RunRows
  import IngestProtocol
  import RunProtocol

  datatype Category = NeverEnqueued | Abandoned | Retryable

  datatype Policy = Policy(pendingAfter: Duration, lease: Duration, maxAttempts: int, batch: nat)

  // ---------------------------------------------------------------- the back-off schedule

  const BACKOFF_SCHEDULE: seq<Duration> := [1 * MINUTE, 5 * MINUTE]

  function Backoff(attempts: int): Duration {
    if attempts < 1 then BACKOFF_SCHEDULE[0]
    else if attempts > |BACKOFF_SCHEDULE| then BACKOFF_SCHEDULE[|BACKOFF_SCHEDULE| - 1]
    else BACKOFF_SCHEDULE[attempts - 1]
  }

  method MinBackoff(schedule: seq<Duration>) returns (min: Duration)
    requires schedule != []
    ensures IsMin(schedule, min)
  {
    min := schedule[0];
    for i := 1 to |schedule|
      invariant min in schedule
      invariant forall j :: 0 <= j < i ==> min <= schedule[j]
    {
      if schedule[i] < min {
        min := schedule[i];
      }
    }
  }

  predicate IsMin(schedule: seq<Duration>, min: Duration) {
    min in schedule && forall i :: 0 <= i < |schedule| ==> min <= schedule[i]
  }

  predicate IsMinBackoff(min: Duration) { IsMin(BACKOFF_SCHEDULE, min) }

  /** The query's wait is never longer than the policy's, whatever the attempt count. */
  lemma MinBackoffIsBelowEveryBackoff(min: Duration, attempts: int)
    requires IsMinBackoff(min)
    ensures min <= Backoff(attempts)
  {
    var i := if attempts < 1 then 0 else if attempts > 2 then 1 else attempts - 1;
    assert Backoff(attempts) == BACKOFF_SCHEDULE[i];
  }

  // ---------------------------------------------------------------- the policy

  function DueDocument(p: Policy, d: Docs.Document, at: Time): (Option<Category>, bool) {
    match d.status
    case Pending => (Some(NeverEnqueued), d.updatedAt < at - p.pendingAfter)
    case Processing =>
      if d.processingStartedAt.None? then (Some(Abandoned), false)
      else (Some(Abandoned), d.processingStartedAt.value < at - p.lease)
    case Failed =>
      if d.attempts >= p.maxAttempts then (Some(Retryable), false)
      else (Some(Retryable), d.updatedAt < at - Backoff(d.attempts))
    case Ready => (None, false)
  }

  function DueRun(p: Policy, r: Runs.Run, at: Time): (Option<Category>, bool) {
    match r.status
    case Pending => (Some(NeverEnqueued), r.updatedAt < at - p.pendingAfter)
    case Running =>
      if r.startedAt.None? then (Some(Abandoned), false)
      else if r.attempts >= p.maxAttempts then (Some(Abandoned), false)
      else (Some(Abandoned), r.startedAt.value < at - p.lease)
    case _ => (None, false)
  }

  /** A minute after the first failure, five after any later one. */
  lemma BackoffIs(attempts: int)
    ensures Backoff(attempts) == if attempts <= 1 then 60_000_000_000 else 300_000_000_000
  {
  }

  /** The wait of each category, from its own column, and who has attempts left. */
  lemma DueDocumentIff(p: Policy, d: Docs.Document, at: Time)
    ensures DueDocument(p, d, at).1 <==>
      || (d.status == Docs.Pending && d.updatedAt + p.pendingAfter < at)
      || (d.status == Docs.Processing && d.processingStartedAt != None && d.processingStartedAt.GetOr(0) + p.lease < at)
      || (d.status == Docs.Failed && d.attempts < p.maxAttempts
          && d.updatedAt + (if d.attempts <= 1 then 60_000_000_000 else 300_000_000_000) < at)
    ensures DueDocument(p, d, at).1 ==>
      DueDocument(p, d, at).0 == Some(if d.status == Docs.Pending then NeverEnqueued
                                      else if d.status == Docs.Processing then Abandoned else Retryable)
  {
    BackoffIs(d.attempts);
  }

  /** A run that has spent its attempts is never due again. */
  lemma DueRunIff(p: Policy, r: Runs.Run, at: Time)
    ensures DueRun(p, r, at).1 <==>
      || (r.status == Runs.Pending && r.updatedAt + p.pendingAfter < at)
      || (r.status == Runs.Running && r.attempts < p.maxAttempts
          && r.startedAt != None && r.startedAt.GetOr(0) + p.lease < at)
    ensures DueRun(p, r, at).1 ==>
      DueRun(p, r, at).0 == Some(if r.status == Runs.Pending then NeverEnqueued else Abandoned)
  {
  }

  // ---------------------------------------------------------------- the queries

  /** One WHERE clause per category; NULL fails every comparison. */
  predicate DocumentMatches(p: Policy, min: Duration, category: Category, d: Docs.Document, t: Time) {
    match category
    case NeverEnqueued => d.status.Pending? && d.updatedAt < t - p.pendingAfter
    case Abandoned => d.status.Processing? && d.processingStartedAt.Some? && d.processingStartedAt.value < t - p.lease
    case Retryable => d.status.Failed? && d.attempts < p.maxAttempts && d.updatedAt < t - min
  }

  predicate RunMatches(p: Policy, category: Category, r: Runs.Run, t: Time) {
    match category
    case NeverEnqueued => r.status.Pending? && r.updatedAt < t - p.pendingAfter
    case Abandoned =>
      r.status.Running? && r.startedAt.Some? && r.startedAt.value < t - p.lease && r.attempts < p.maxAttempts
    case Retryable => false
  }

  /**
    The query misses no due document, labels it as the policy does, and returns one too many only
    where a failed document is still waiting out its own back-off.
  */
  lemma DocumentQueryAgreesWithPolicy(p: Policy, min: Duration, d: Docs.Document, t: Time, category: Category)
    requires IsMinBackoff(min)
    ensures DueDocument(p, d, t) == (Some(category), true) <==>
      DocumentMatches(p, min, category, d, t)
      && (category.Retryable? ==> d.updatedAt < t - Backoff(d.attempts))
  {
    MinBackoffIsBelowEveryBackoff(min, d.attempts);
  }

  /** For runs the query and the policy are the same condition. */
  lemma RunQueryIsThePolicy(p: Policy, r: Runs.Run, t: Time, category: Category)
    ensures DueRun(p, r, t) == (Some(category), true) <==> RunMatches(p, category, r, t)
  {
  }

  /** A due document stays due while nothing touches it, and its claim accepts it from then on. */
  lemma DueDocumentsAreClaimable(p: Policy, d: Docs.Document, t: Time, later: Time)
    requires DueDocument(p, d, t).1 && t <= later
    ensures DueDocument(p, d, later) == DueDocument(p, d, t)
    ensures Docs.Claimable(d, later, p.lease)
  {
  }

  lemma DueRunsAreClaimable(p: Policy, r: Runs.Run, t: Time, later: Time)
    requires DueRun(p, r, t).1 && t <= later
    ensures DueRun(p, r, later) == DueRun(p, r, t)
    ensures Runs.Claimable(r, later, p.lease)
  {
  }

  /**
    The lease must be the claim's own: a sweep on a shorter one produces messages that the claim
    refuses, exactly for rows whose stamp lies between the two.
  */
  lemma AShorterSweepLeaseProducesRefusedMessages(p: Policy, claimLease: Duration, r: Runs.Run, t: Time)
    requires r.status.Running? && r.startedAt.Some? && r.attempts < p.maxAttempts
    ensures DueRun(p, r, t).1 && !Runs.Claimable(r, t, claimLease)
      <==> t - claimLease <= r.startedAt.value < t - p.lease
  {
  }

  // ---------------------------------------------------------------- completeness

  /**
    Every run that the system can reach, is not terminal and has attempts left becomes due: no row
    waits forever, because RUNNING always carries the stamp of its claim.
  */
  lemma EveryStuckRunBecomesDue(p: Policy, lease: Duration, b: seq<RunProtocol.State>, acts: seq<RunProtocol.Action>,
                                i: nat, id: Runs.RunId, at: Time)
    requires RunProtocol.Behavior(lease, b, acts) && i < |b| && id in b[i].db.runs
    requires !Runs.Terminal(b[i].db.runs[id].status)
    requires b[i].db.runs[id].status.Running? ==> b[i].db.runs[id].attempts < p.maxAttempts
    requires b[i].db.runs[id].updatedAt + p.pendingAfter < at && b[i].now + p.lease < at
    ensures DueRun(p, b[i].db.runs[id], at).1
  {
    RunProtocol.ReachableInv(lease, b, acts, i);
    assert RunProtocol.RowOk(b[i].db.runs[id], b[i].now);
  }

  ghost predicate Stamped(s: IngestProtocol.State) {
    forall d :: d in s.docs && s.docs[d].status.Processing? ==>
      s.docs[d].processingStartedAt.Some? && s.docs[d].processingStartedAt.value <= s.now
  }

  predicate WritesRows(a: IngestProtocol.Action) {
    a.Create? || a.Deliver? || a.DeliverUnreadable? || a.Ready? || a.Fail?
  }

  lemma OthersLeaveTheRows(c: IngestProtocol.Config, s: IngestProtocol.State, a: IngestProtocol.Action)
    requires IngestProtocol.Enabled(c, s, a) && !WritesRows(a)
    ensures IngestProtocol.Apply(c, s, a).docs == s.docs && s.now <= IngestProtocol.Apply(c, s, a).now
  {
  }

  lemma RowWritesKeepStamped(c: IngestProtocol.Config, s: IngestProtocol.State, a: IngestProtocol.Action)
    requires Stamped(s) && IngestProtocol.Enabled(c, s, a) && WritesRows(a)
    ensures Stamped(IngestProtocol.Apply(c, s, a))
  {
  }

  lemma NextKeepsStamped(c: IngestProtocol.Config, s: IngestProtocol.State, a: IngestProtocol.Action)
    requires Stamped(s) && IngestProtocol.Enabled(c, s, a)
    ensures Stamped(IngestProtocol.Apply(c, s, a))
  {
    hide IngestProtocol.Apply, IngestProtocol.Enabled;
    if WritesRows(a) {
      RowWritesKeepStamped(c, s, a);
    } else {
      OthersLeaveTheRows(c, s, a);
    }
  }

  lemma {:induction false} ReachableStamped(c: IngestProtocol.Config, b: seq<IngestProtocol.State>,
                                            acts: seq<IngestProtocol.Action>, i: nat)
    requires IngestProtocol.Behavior(c, b, acts) && i < |b|
    ensures Stamped(b[i])
  {
    if i == 0 {
    } else {
      ReachableStamped(c, b, acts, i - 1);
      assert IngestProtocol.Next(c, b[i - 1], acts[i - 1], b[i]);
      NextKeepsStamped(c, b[i - 1], acts[i - 1]);
    }
  }

  /** The same for documents: only a failed one is limited, and it waits at most its back-off. */
  lemma EveryStuckDocumentBecomesDue(p: Policy, c: IngestProtocol.Config, b: seq<IngestProtocol.State>,
                                     acts: seq<IngestProtocol.Action>, i: nat, id: Docs.DocId, at: Time)
    requires IngestProtocol.Behavior(c, b, acts) && i < |b| && id in b[i].docs
    requires !b[i].docs[id].status.Ready?
    requires b[i].docs[id].status.Failed? ==> b[i].docs[id].attempts < p.maxAttempts
    requires b[i].docs[id].updatedAt + p.pendingAfter < at && b[i].now + p.lease < at
    requires b[i].docs[id].updatedAt + Backoff(b[i].docs[id].attempts) < at
    ensures DueDocument(p, b[i].docs[id], at).1
  {
    ReachableStamped(c, b, acts, i);
  }

  // ---------------------------------------------------------------- one sweep

  /** `ORDER BY id LIMIT limit` over a table held in id order. */
  function Query<Row>(rows: seq<Row>, matches: Row -> bool, limit: nat): (r: seq<Row>)
    ensures |r| <= limit
  {
    if rows == [] || limit == 0 then []
    else if matches(rows[0]) then [rows[0]] + Query(rows[1..], matches, limit - 1)
    else Query(rows[1..], matches, limit)
  }

  function CountMatching<Row>(rows: seq<Row>, matches: Row -> bool): (n: nat)
    ensures n <= |rows|
  {
    if rows == [] then 0 else (if matches(rows[0]) then 1 else 0) + CountMatching(rows[1..], matches)
  }

  /**
    When a row is listed: exactly when it matches and fewer than `limit` matching rows come before
    it; it then stands behind those. A full batch of older rows that nobody drains therefore hides every younger one.
  */
  lemma {:induction false} ListedUnlessCrowdedOut<Row>(rows: seq<Row>, matches: Row -> bool, limit: nat, j: nat)
    requires j < |rows| && forall i, k :: 0 <= i < k < |rows| ==> rows[i] != rows[k]
    ensures rows[j] in Query(rows, matches, limit)
      <==> matches(rows[j]) && CountMatching(rows[..j], matches) < limit
    ensures var before := CountMatching(rows[..j], matches);
            matches(rows[j]) && before < limit ==>
              before < |Query(rows, matches, limit)| && Query(rows, matches, limit)[before] == rows[j]
  {
    if limit == 0 {
    } else if j == 0 {
      if !matches(rows[0]) && rows[0] in Query(rows, matches, limit) {
        QueryDrawsFromItsRows(rows[1..], matches, limit, rows[0]);
      }
    } else {
      var rest := rows[1..];
      var left := if matches(rows[0]) then limit - 1 else limit;
      ListedUnlessCrowdedOut(rest, matches, left, j - 1);
      assert rest[..j - 1] == rows[..j][1..] && rest[j - 1] == rows[j];
    }
  }

  lemma {:induction false} QueryDrawsFromItsRows<Row>(rows: seq<Row>, matches: Row -> bool, limit: nat, row: Row)
    requires row in Query(rows, matches, limit)
    ensures row in rows && matches(row)
  {
    if rows != [] && limit > 0 {
      if matches(rows[0]) {
        if row != rows[0] {
          QueryDrawsFromItsRows(rows[1..], matches, limit - 1, row);
        }
      } else {
        QueryDrawsFromItsRows(rows[1..], matches, limit, row);
      }
    }
  }

  datatype Stats = Stats(candidates: nat, neverEnqueued: nat, abandoned: nat, retryable: nat, failed: nat) {

    function Count(c: Category): nat {
      match c
      case NeverEnqueued => neverEnqueued
      case Abandoned => abandoned
      case Retryable => retryable
    }

    function Enqueue(c: Category): Stats {
      match c
      case NeverEnqueued => this.(neverEnqueued := neverEnqueued + 1)
      case Abandoned => this.(abandoned := abandoned + 1)
      case Retryable => this.(retryable := retryable + 1)
    }
  }

  /** What the policy says of each candidate, and whether its produce gets through. */
  datatype Candidate = Candidate(id: nat, due: Option<Category>, delivered: bool)

  function Sent(candidates: seq<Candidate>): seq<nat> {
    if candidates == [] then []
    else
      var last := candidates[|candidates| - 1];
      Sent(candidates[..|candidates| - 1]) + (if last.due.Some? && last.delivered then [last.id] else [])
  }

  /** How many of the candidates were re-enqueued as `c`, and how many were due but not produced. */
  function Enqueued(candidates: seq<Candidate>, c: Category): nat {
    if candidates == [] then 0
    else
      var n := |candidates| - 1;
      Enqueued(candidates[..n], c) + (if candidates[n].due == Some(c) && candidates[n].delivered then 1 else 0)
  }

  function Undelivered(candidates: seq<Candidate>): nat {
    if candidates == [] then 0
    else
      var n := |candidates| - 1;
      Undelivered(candidates[..n]) + (if candidates[n].due.Some? && !candidates[n].delivered then 1 else 0)
  }

  function Due(candidates: seq<Candidate>): nat {
    if candidates == [] then 0
    else
      var n := |candidates| - 1;
      Due(candidates[..n]) + (if candidates[n].due.Some? then 1 else 0)
  }

  /** A message is sent for exactly the due candidates whose produce gets through, and none is lost in the count. */
  lemma {:induction false} SentAreTheDeliveredDueOnes(candidates: seq<Candidate>)
    ensures |Sent(candidates)| + Undelivered(candidates) == Due(candidates)
    ensures |Sent(candidates)| ==
      Enqueued(candidates, NeverEnqueued) + Enqueued(candidates, Abandoned) + Enqueued(candidates, Retryable)
    ensures forall id :: id in Sent(candidates) <==>
      exists i :: 0 <= i < |candidates| && candidates[i].id == id && candidates[i].due.Some? && candidates[i].delivered
  {
    if candidates == [] {
    } else {
      var n := |candidates| - 1;
      SentAreTheDeliveredDueOnes(candidates[..n]);
      if candidates[n].due.Some? {
        var category := candidates[n].due.value;
        assert category.NeverEnqueued? || category.Abandoned? || category.Retryable?;
      }
      assert candidates[..n] + [candidates[n]] == candidates;
    }
  }

  /** The messages go out in the order of the candidates. */
  lemma {:induction false} SentInOrder(candidates: seq<Candidate>) returns (from: seq<nat>)
    ensures |from| == |Sent(candidates)|
    ensures forall k :: 0 <= k < |from| ==> from[k] < |candidates| && Sent(candidates)[k] == candidates[from[k]].id
    ensures forall j, k :: 0 <= j < k < |from| ==> from[j] < from[k]
  {
    from := [];
    if candidates == [] {
    } else {
      var n := |candidates| - 1;
      from := SentInOrder(candidates[..n]);
      if candidates[n].due.Some? && candidates[n].delivered {
        from := from + [n];
      }
    }
  }

  /** The messages are ids of candidates, in the candidates' order. */
  ghost predicate InTheirOrder(candidates: seq<Candidate>, messages: seq<nat>) {
    exists from: seq<nat> ::
      && |from| == |messages|
      && (forall k :: 0 <= k < |from| ==> from[k] < |candidates| && messages[k] == candidates[from[k]].id)
      && forall j, k :: 0 <= j < k < |from| ==> from[j] < from[k]
  }

  /** A sweep changes no row: it sends messages, keeps going past a produce that fails, and counts. */
  method Sweep(candidates: seq<Candidate>) returns (stats: Stats, messages: seq<nat>)
    ensures messages == Sent(candidates) && InTheirOrder(candidates, messages)
    ensures stats.candidates == |candidates|
    ensures stats.neverEnqueued == Enqueued(candidates, NeverEnqueued)
    ensures stats.abandoned == Enqueued(candidates, Abandoned) && stats.retryable == Enqueued(candidates, Retryable)
    ensures stats.failed == Undelivered(candidates)
  {
    ghost var from := SentInOrder(candidates);
    stats, messages := Stats(|candidates|, 0, 0, 0, 0), [];
    for i := 0 to |candidates|
      invariant messages == Sent(candidates[..i])
      invariant stats.candidates == |candidates|
      invariant forall c :: stats.Count(c) == Enqueued(candidates[..i], c)
      invariant stats.failed == Undelivered(candidates[..i])
    {
      assert candidates[..i + 1][..i] == candidates[..i];
      var c := candidates[i];
      if c.due.Some? {
        if c.delivered {
          messages := messages + [c.id];
          stats := stats.Enqueue(c.due.value);
        } else {
          stats := stats.(failed := stats.failed + 1);
        }
      }
    }
    assert candidates[..|candidates|] == candidates;
  }

  // ---------------------------------------------------------------- a sweep over documents, end to end

  type DocumentRow = (Docs.DocId, Docs.Document)

  function InCategory(p: Policy, min: Duration, category: Category, t: Time): DocumentRow -> bool {
    (row: DocumentRow) => DocumentMatches(p, min, category, row.1, t)
  }

  /** ListDocumentsToReconcile: one query per category, each with its own limit. */
  function ListDocuments(p: Policy, min: Duration, rows: seq<DocumentRow>, t: Time): seq<DocumentRow> {
    Query(rows, InCategory(p, min, NeverEnqueued, t), p.batch)
    + Query(rows, InCategory(p, min, Abandoned, t), p.batch)
    + Query(rows, InCategory(p, min, Retryable, t), p.batch)
  }

  function CandidateOf(p: Policy, row: DocumentRow, at: Time, delivers: Docs.DocId -> bool): Candidate {
    var (category, due) := DueDocument(p, row.1, at);
    Candidate(row.0, if due then category else None, delivers(row.0))
  }

  function CandidatesOf(p: Policy, listed: seq<DocumentRow>, at: Time, delivers: Docs.DocId -> bool): (r: seq<Candidate>)
    ensures |r| == |listed| && forall i :: 0 <= i < |r| ==> r[i] == CandidateOf(p, listed[i], at, delivers)
  {
    if listed == [] then []
    else [CandidateOf(p, listed[0], at, delivers)] + CandidatesOf(p, listed[1..], at, delivers)
  }

  predicate Visible(p: Policy, min: Duration, rows: seq<DocumentRow>, t: Time, j: nat, category: Category)
    requires j < |rows|
  {
    && DocumentMatches(p, min, category, rows[j].1, t)
    && CountMatching(rows[..j], InCategory(p, min, category, t)) < p.batch
  }

  ghost predicate DistinctIds(rows: seq<DocumentRow>) {
    forall i, k :: 0 <= i < k < |rows| ==> rows[i].0 != rows[k].0
  }

  lemma ListedIffVisible(p: Policy, min: Duration, rows: seq<DocumentRow>, t: Time, j: nat)
    requires j < |rows| && DistinctIds(rows)
    ensures rows[j] in ListDocuments(p, min, rows, t)
      <==> exists category: Category :: Visible(p, min, rows, t, j, category)
  {
    forall i, k | 0 <= i < k < |rows| ensures rows[i] != rows[k] {
      assert rows[i].0 != rows[k].0;
    }
    ListedUnlessCrowdedOut(rows, InCategory(p, min, NeverEnqueued, t), p.batch, j);
    ListedUnlessCrowdedOut(rows, InCategory(p, min, Abandoned, t), p.batch, j);
    ListedUnlessCrowdedOut(rows, InCategory(p, min, Retryable, t), p.batch, j);
    assert Visible(p, min, rows, t, j, NeverEnqueued)
        || Visible(p, min, rows, t, j, Abandoned)
        || Visible(p, min, rows, t, j, Retryable)
      <==> rows[j] in ListDocuments(p, min, rows, t);
    forall category: Category | Visible(p, min, rows, t, j, category)
      ensures category == NeverEnqueued || category == Abandoned || category == Retryable
    {
    }
  }

  lemma ListingDrawsFromItsRows(p: Policy, min: Duration, rows: seq<DocumentRow>, t: Time, row: DocumentRow)
    requires row in ListDocuments(p, min, rows, t)
    ensures row in rows
  {
    var a, b, c := InCategory(p, min, NeverEnqueued, t), InCategory(p, min, Abandoned, t), InCategory(p, min, Retryable, t);
    if row in Query(rows, a, p.batch) {
      QueryDrawsFromItsRows(rows, a, p.batch, row);
    } else if row in Query(rows, b, p.batch) {
      QueryDrawsFromItsRows(rows, b, p.batch, row);
    } else {
      QueryDrawsFromItsRows(rows, c, p.batch, row);
    }
  }

  lemma CandidateIsDue(p: Policy, row: DocumentRow, at: Time, delivers: Docs.DocId -> bool)
    ensures var c := CandidateOf(p, row, at, delivers);
            c.id == row.0 && c.delivered == delivers(row.0) && (c.due.Some? <==> DueDocument(p, row.1, at).1)
  {
  }

  /** Of the listed rows, the one with a given id is sent a message when it is due and its produce gets through. */
  lemma SentIffListedAndDue(p: Policy, listed: seq<DocumentRow>, at: Time, delivers: Docs.DocId -> bool, row: DocumentRow)
    requires forall other :: other in listed && other.0 == row.0 ==> other == row
    ensures row.0 in Sent(CandidatesOf(p, listed, at, delivers)) <==>
      row in listed && DueDocument(p, row.1, at).1 && delivers(row.0)
  {
    hide DueDocument, Sent, CandidateOf, CandidatesOf;
    var candidates := CandidatesOf(p, listed, at, delivers);
    SentAreTheDeliveredDueOnes(candidates);
    CandidateIsDue(p, row, at, delivers);
    if row.0 in Sent(candidates) {
      var i :| 0 <= i < |candidates| && candidates[i].id == row.0 && candidates[i].due.Some? && candidates[i].delivered;
      CandidateIsDue(p, listed[i], at, delivers);
      assert listed[i] in listed;
    } else if row in listed {
      var i :| 0 <= i < |listed| && listed[i] == row;
      assert candidates[i] == CandidateOf(p, row, at, delivers);
    }
  }

  /**
    What one sweep does for one document, exactly: it is sent a message when the query can see it,
    the policy still calls it due when the candidates are looked at, and its produce gets through.
  */
  lemma ASweepMessagesExactlyTheDueItCanSee(p: Policy, min: Duration, rows: seq<DocumentRow>, t: Time, at: Time,
                                            delivers: Docs.DocId -> bool, j: nat)
    requires j < |rows| && DistinctIds(rows)
    ensures rows[j].0 in Sent(CandidatesOf(p, ListDocuments(p, min, rows, t), at, delivers)) <==>
      && (exists category: Category :: Visible(p, min, rows, t, j, category))
      && DueDocument(p, rows[j].1, at).1
      && delivers(rows[j].0)
  {
    hide DueDocument, Sent, CandidatesOf, Visible, ListDocuments;
    var listed := ListDocuments(p, min, rows, t);
    forall other | other in listed && other.0 == rows[j].0 ensures other == rows[j] {
      ListingDrawsFromItsRows(p, min, rows, t, other);
      var k :| 0 <= k < |rows| && rows[k] == other;
      assert k == j;
    }
    SentIffListedAndDue(p, listed, at, delivers, rows[j]);
    ListedIffVisible(p, min, rows, t, j);
  }

  // ---------------------------------------------------------------- a full batch hides a due row

  /** A document that failed a second time two minutes ago: the query lists it, and it waits for three more. */
  function Waiting(id: nat, t: Time): DocumentRow {
    (id, Docs.Document(Docs.Failed, Some([]), 0, 2, Some(t - 2 * MINUTE), t - 2 * MINUTE))
  }

  /** One that failed for the first time three minutes ago: it is due. */
  function Overdue(id: nat, t: Time): DocumentRow {
    (id, Docs.Document(Docs.Failed, Some([]), 0, 1, Some(t - 3 * MINUTE), t - 3 * MINUTE))
  }

  function FullBatch(n: nat, t: Time): (rows: seq<DocumentRow>)
    ensures |rows| == n && forall i :: 0 <= i < n ==> rows[i] == Waiting(i, t)
  {
    seq(n, i requires 0 <= i < n => Waiting(i, t))
  }

  lemma {:induction false} AllMatch<Row>(rows: seq<Row>, matches: Row -> bool)
    requires forall i :: 0 <= i < |rows| ==> matches(rows[i])
    ensures CountMatching(rows, matches) == |rows|
  {
    if rows == [] {
    } else {
      AllMatch(rows[1..], matches);
    }
  }

  /**
    Older rows that match the query and are not yet due fill the batch, and the row behind them, which
    is due, is not listed: whatever the batch, this sweep sends no message at all.
  */
  lemma AFullBatchHidesADueRow(p: Policy, t: Time, delivers: Docs.DocId -> bool)
    requires p.maxAttempts >= 3
    ensures IsMinBackoff(1 * MINUTE) && DueDocument(p, Overdue(p.batch, t).1, t) == (Some(Retryable), true)
    ensures var rows := FullBatch(p.batch, t) + [Overdue(p.batch, t)];
            && DistinctIds(rows)
            && forall j :: 0 <= j < |rows| ==>
                 rows[j].0 !in Sent(CandidatesOf(p, ListDocuments(p, 1 * MINUTE, rows, t), t, delivers))
  {
    hide Sent, CandidatesOf, ListDocuments, CountMatching;
    var min := 1 * MINUTE;
    var rows := FullBatch(p.batch, t) + [Overdue(p.batch, t)];
    assert BACKOFF_SCHEDULE[0] == min;
    forall j | 0 <= j < |rows| ensures rows[j].0 !in Sent(CandidatesOf(p, ListDocuments(p, min, rows, t), t, delivers)) {
      ASweepMessagesExactlyTheDueItCanSee(p, min, rows, t, t, delivers, j);
      if j == p.batch {
        assert rows[..j] == FullBatch(p.batch, t);
        AllMatch(rows[..j], InCategory(p, min, Retryable, t));
      }
    }
  }
}
