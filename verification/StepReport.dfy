/** Writing one step's rows, in the order their foreign keys ask for (internal/agentrun/report.go). */
module StepReport {
  import opened Prelude
  import opened RunRows
  import Evidence

  /** A citation of a document whose row has gone keeps its row and loses only the reference. */
  function Surviving(row: Evidence.Row, live: set<Bytes>): Evidence.Row {
    if row.documentId != [] && row.documentId !in live then row.(documentId := []) else row
  }

  function SurvivingRows(rows: seq<Evidence.Row>, live: set<Bytes>): (r: seq<Evidence.Row>)
    ensures |r| == |rows| && forall k :: 0 <= k < |r| ==> r[k] == Surviving(rows[k], live)
  {
    seq(|rows|, k requires 0 <= k < |rows| => Surviving(rows[k], live))
  }

  /** The row as it is written: only a reference to a document that is no longer there is cleared. */
  predicate WrittenAs(row: Evidence.Row, written: Evidence.Row, live: set<Bytes>) {
    && written.documentId == (if row.documentId in live then row.documentId else [])
    && written.stepId == row.stepId && written.toolCallId == row.toolCallId && written.sourceType == row.sourceType
    && written.sourceRef == row.sourceRef && written.summary == row.summary && written.note == row.note
  }

  lemma SurvivingIsWrittenAs(rows: seq<Evidence.Row>, live: set<Bytes>)
    ensures forall k :: 0 <= k < |rows| ==> WrittenAs(rows[k], SurvivingRows(rows, live)[k], live)
  {
  }

  predicate Distinct(ids: seq<Bytes>) { forall i, j :: 0 <= i < j < |ids| ==> ids[i] != ids[j] }

  /** The documents a step cites, each asked about once. */
  method CitedDocuments(rows: seq<Evidence.Row>) returns (ids: seq<Bytes>)
    ensures Distinct(ids)
    ensures forall id :: id in ids <==> id != [] && exists k :: 0 <= k < |rows| && rows[k].documentId == id
  {
    ids := [];
    var seen: set<Bytes> := {};
    for k := 0 to |rows|
      invariant Distinct(ids) && forall id :: id in seen <==> id in ids
      invariant forall id :: id in ids <==> id != [] && exists j :: 0 <= j < k && rows[j].documentId == id
    {
      var id := rows[k].documentId;
      if id != [] && id !in seen {
        seen := seen + {id};
        ids := ids + [id];
      }
    }
  }

  datatype ReportError = StepRefused | ToolCallRefused | LookupFailed | EvidenceRefused

  /** What the rest of the world answers: which documents still exist, and what fails. */
  datatype Answers = Answers(live: set<Bytes>, lookupFails: bool, evidenceFails: nat -> bool)

  /** The tables once the step's tool call, if it made one, is written under it. */
  function WithCall(db: Db, run: RunId, number: nat, step: StepId, toolCall: bool): Db {
    if !toolCall then db
    else
      match CreateToolCall(db, run, number, step)
      case Ok(after) => after
      case Err(_) => db
  }

  /** What was added to the evidence is the first of the rows, each as it is written. */
  predicate WroteEach(rows: seq<Evidence.Row>, before: seq<Evidence.Row>, after: seq<Evidence.Row>, live: set<Bytes>) {
    && before <= after && |after| <= |before| + |rows|
    && forall k :: |before| <= k < |after| ==> WrittenAs(rows[k - |before|], after[k], live)
  }

  predicate CitesSomething(rows: seq<Evidence.Row>) { exists k :: 0 <= k < |rows| && rows[k].documentId != [] }

  class Reporter {
    const store: RunStore
    var evidence: seq<Evidence.Row>
    var published: seq<(RunId, nat)>

    constructor (store: RunStore)
      ensures this.store == store && evidence == [] && published == []
    {
      this.store, evidence, published := store, [], [];
    }

    /** One row a citation, in order, up to the first that is refused. */
    method WriteEvidence(rows: seq<Evidence.Row>, a: Answers) returns (complete: bool)
      modifies this`evidence
      ensures var kept := SurvivingRows(rows, a.live);
              if complete then evidence == old(evidence) + kept
              else exists n :: 0 <= n < |kept| && a.evidenceFails(n) && evidence == old(evidence) + kept[..n]
      ensures complete <==> forall n :: 0 <= n < |rows| ==> !a.evidenceFails(n)
      ensures WroteEach(rows, old(evidence), evidence, a.live)
    {
      SurvivingIsWrittenAs(rows, a.live);
      ghost var kept := SurvivingRows(rows, a.live);
      for k := 0 to |rows|
        invariant evidence == old(evidence) + kept[..k]
        invariant forall n :: 0 <= n < k ==> !a.evidenceFails(n)
      {
        if a.evidenceFails(k) {
          return false;
        }
        assert kept[..k + 1] == kept[..k] + [kept[k]];
        evidence := evidence + [Surviving(rows[k], a.live)];
      }
      assert kept[..|rows|] == kept;
      complete := true;
    }

    /**
      The step, then its tool call, then its evidence, then the event. The event is published only
      when every row is written; a failure leaves the rows before it and no others.
    */
    method ReportStep(run: RunId, number: nat, toolCall: bool, rows: seq<Evidence.Row>, a: Answers)
      returns (r: Result<StepId, ReportError>)
      modifies this, store
      ensures var stepped := CreateStep(old(store.State()), run, number);
              var kept := SurvivingRows(rows, a.live);
              match r
              case Ok(id) =>
                && stepped.Ok? && id == old(store.nextId)
                && store.State() == WithCall(stepped.value, run, number, id, toolCall)
                && evidence == old(evidence) + kept && published == old(published) + [(run, number)]
              case Err(StepRefused) => stepped.Err? && store.State() == old(store.State()) && evidence == old(evidence)
              case Err(ToolCallRefused) =>
                toolCall && stepped.Ok? && store.State() == stepped.value && evidence == old(evidence)
              case Err(LookupFailed) =>
                && a.lookupFails && stepped.Ok? && evidence == old(evidence)
                && store.State() == WithCall(stepped.value, run, number, old(store.nextId), toolCall)
              case Err(EvidenceRefused) =>
                && stepped.Ok?
                && store.State() == WithCall(stepped.value, run, number, old(store.nextId), toolCall)
                && exists n :: 0 <= n < |kept| && a.evidenceFails(n) && evidence == old(evidence) + kept[..n]
      ensures r.Err? ==> published == old(published)
      ensures store.runs == old(store.runs) && WroteEach(rows, old(evidence), evidence, a.live)
      ensures r == Err(StepRefused) <==> run !in old(store.runs) || (run, number) in old(store.steps)
      ensures r == Err(LookupFailed) <==>
                run in old(store.runs) && (run, number) !in old(store.steps) && CitesSomething(rows) && a.lookupFails
      ensures r.Ok? || r == Err(LookupFailed) || r == Err(EvidenceRefused) ==>
                && OnlyStep(old(store.steps), store.steps, (run, number))
                && store.steps[(run, number)] == StepRow(old(store.nextId), if toolCall then 1 else 0)
      ensures r.Ok? ==> |evidence| == |old(evidence)| + |rows| && forall n :: 0 <= n < |rows| ==> !a.evidenceFails(n)
    {
      var written := store.WriteStep(run, number);
      if written.Err? {
        return Err(StepRefused);
      }
      if toolCall {
        var called := store.WriteToolCall(run, number, written.value);
        if called.Err? {
          return Err(ToolCallRefused);
        }
      }
      var ids := CitedDocuments(rows);
      assert ids != [] <==> CitesSomething(rows) by {
        assert ids != [] ==> ids[0] in ids;
        if CitesSomething(rows) {
          ghost var k :| 0 <= k < |rows| && rows[k].documentId != [];
          assert rows[k].documentId in ids;
        }
      }
      if ids != [] && a.lookupFails {
        return Err(LookupFailed);
      }
      var complete := WriteEvidence(rows, a);
      if !complete {
        return Err(EvidenceRefused);
      }
      published := published + [(run, number)];
      return Ok(written.value);
    }
  }

  /** In a run whose rows are numbered 1..n, reporting step n + 1 is accepted and numbers it 1..n+1. */
  lemma TheNextStepIsAccepted(db: Db, run: RunId, n: nat)
    requires run in db.runs && Numbered(db.steps, run, n)
    ensures var stepped := CreateStep(db, run, n + 1);
            && stepped.Ok? && Numbered(stepped.value.steps, run, n + 1)
            && var called := CreateToolCall(stepped.value, run, n + 1, db.nextId);
               && called.Ok? && Numbered(called.value.steps, run, n + 1)
               && called.value.steps[(run, n + 1)] == StepRow(db.nextId, 1)
  {
  }
}
