/** Resolving the citations of a diagnosis against the steps that happened (internal/agent/evidence.go). */
module Evidence {
  import opened Prelude
  import Summary

  datatype Action = Retrieve | CallTool | NoAction | Finish

  datatype StepRef = StepRef(stepId: Bytes, toolCallId: Bytes)

  datatype Hit = Hit(documentId: Bytes, source: Bytes, content: Bytes)

  /** A recorded step as citations are resolved against it. */
  datatype Record = Record(
    ref: StepRef, action: Action, toolName: Bytes, observation: Bytes, hits: seq<Hit>, query: Bytes)

  datatype Citation = Citation(step: int, note: Bytes, documentId: Bytes)

  datatype SourceType = Retrieval | Tool

  datatype Row = Row(
    stepId: Bytes, toolCallId: Bytes, sourceType: SourceType, sourceRef: Bytes, documentId: Bytes,
    summary: Bytes, note: Bytes)

  // "search_knowledge"
  const SEARCH_KNOWLEDGE: Bytes := [115, 101, 97, 114, 99, 104, 95, 107, 110, 111, 119, 108, 101, 100, 103, 101]

  /** Hit k names the document, and none before it does. */
  predicate IsFirst(hits: seq<Hit>, documentId: Bytes, k: nat) {
    k < |hits| && hits[k].documentId == documentId && forall j :: 0 <= j < k ==> hits[j].documentId != documentId
  }

  lemma {:induction false} FirstHitIsFirst(hits: seq<Hit>, documentId: Bytes) returns (k: nat)
    ensures FirstHit(hits, documentId).Some? ==> IsFirst(hits, documentId, k) && FirstHit(hits, documentId).value == hits[k]
    ensures FirstHit(hits, documentId).None? <==>
              documentId == [] || forall j :: 0 <= j < |hits| ==> hits[j].documentId != documentId
  {
    k := 0;
    if documentId == [] || hits == [] {
    } else if hits[0].documentId != documentId {
      var j := FirstHitIsFirst(hits[1..], documentId);
      k := j + 1;
      assert forall i :: 0 < i < |hits| ==> hits[i] == hits[1..][i - 1];
    }
  }

  /** The first hit naming the document; an empty id names none. */
  method FindHit(hits: seq<Hit>, documentId: Bytes) returns (hit: Option<Hit>)
    ensures hit == FirstHit(hits, documentId)
    ensures hit.Some? ==> exists k: nat :: IsFirst(hits, documentId, k) && hit.value == hits[k]
    ensures hit.None? <==> documentId == [] || forall j :: 0 <= j < |hits| ==> hits[j].documentId != documentId
  {
    ghost var first := FirstHitIsFirst(hits, documentId);
    if documentId == [] {
      return None;
    }
    for k := 0 to |hits|
      invariant FirstHit(hits, documentId) == FirstHit(hits[k..], documentId)
    {
      assert hits[k..][1..] == hits[k + 1..];
      if hits[k].documentId == documentId {
        return Some(hits[k]);
      }
    }
    return None;
  }

  function FirstHit(hits: seq<Hit>, documentId: Bytes): (r: Option<Hit>)
    ensures r.Some? ==> r.value in hits && r.value.documentId == documentId && documentId != []
    ensures r.None? ==> documentId == [] || forall h :: h in hits ==> h.documentId != documentId
  {
    if documentId == [] || hits == [] then None
    else if hits[0].documentId == documentId then Some(hits[0])
    else FirstHit(hits[1..], documentId)
  }

  function QueryRef(query: Bytes): Bytes { SEARCH_KNOWLEDGE + [40] + query + [41] }

  /** What a row must satisfy to stand for a citation of this run. */
  ghost predicate Supports(records: map<int, Record>, c: Citation, row: Row) {
    && c.step in records && row.note == c.note
    && var rec := records[c.step];
    && row.stepId == rec.ref.stepId
    && match rec.action
       case Retrieve =>
         && row.sourceType == Retrieval && row.toolCallId == []
         && if row.documentId == [] then
              row.sourceRef == [115, 101, 97, 114, 99, 104, 95, 107, 110, 111, 119, 108, 101, 100, 103, 101, 40] + rec.query + [41]
              && row.summary == Summary.Capped(rec.observation, Summary.LIMIT_BYTES)
              && (c.documentId == [] || forall h :: h in rec.hits ==> h.documentId != c.documentId)
            else
              row.documentId == c.documentId
              && exists k: nat :: IsFirst(rec.hits, c.documentId, k) && row.sourceRef == rec.hits[k].source
                   && row.summary == Summary.Capped(rec.hits[k].content, Summary.LIMIT_BYTES)
       case CallTool =>
         && row.sourceType == Tool && row.toolCallId == rec.ref.toolCallId && row.documentId == []
         && row.sourceRef == rec.toolName && row.summary == Summary.Capped(rec.observation, Summary.LIMIT_BYTES)
       case NoAction => false
       case Finish => false
  }

  /** Only a step that produced an observation can be cited. */
  predicate Citable(records: map<int, Record>, c: Citation) {
    c.step in records && (records[c.step].action.Retrieve? || records[c.step].action.CallTool?)
  }

  function RowFor(records: map<int, Record>, c: Citation): (row: Row)
    requires Citable(records, c)
  {
    var rec := records[c.step];
    var observed := Summary.Capped(rec.observation, Summary.LIMIT_BYTES);
    match rec.action
    case CallTool => Row(rec.ref.stepId, rec.ref.toolCallId, Tool, rec.toolName, [], observed, c.note)
    case _ =>
      match FirstHit(rec.hits, c.documentId)
      case Some(h) =>
        Row(rec.ref.stepId, [], Retrieval, h.source, h.documentId,
            Summary.Capped(h.content, Summary.LIMIT_BYTES), c.note)
      case None => Row(rec.ref.stepId, [], Retrieval, QueryRef(rec.query), [], observed, c.note)
  }

  function Resolved(records: map<int, Record>, citations: seq<Citation>): seq<Row> {
    if citations == [] then []
    else
      var n := |citations| - 1;
      Resolved(records, citations[..n])
      + (if Citable(records, citations[n]) then [RowFor(records, citations[n])] else [])
  }

  method ResolveEvidence(records: map<int, Record>, citations: seq<Citation>) returns (out: seq<Row>)
    ensures out == Resolved(records, citations)
  {
    out := [];
    for i := 0 to |citations|
      invariant out == Resolved(records, citations[..i])
    {
      assert citations[..i + 1][..i] == citations[..i];
      var c := citations[i];
      if c.step in records {
        var rec := records[c.step];
        var row := Row(rec.ref.stepId, [], Retrieval, [], [], [], c.note);
        match rec.action
        case Retrieve =>
          var hit := FindHit(rec.hits, c.documentId);
          var cited := rec.observation;
          if hit.Some? {
            row := row.(documentId := hit.value.documentId, sourceRef := hit.value.source);
            cited := hit.value.content;
          } else {
            row := row.(sourceRef := QueryRef(rec.query));
          }
          var summary, _, _ := Summary.Cap(cited);
          out := out + [row.(summary := summary)];
        case CallTool =>
          var summary, _, _ := Summary.Cap(rec.observation);
          row := row.(sourceType := Tool, toolCallId := rec.ref.toolCallId, sourceRef := rec.toolName);
          out := out + [row.(summary := summary)];
        case NoAction =>
        case Finish =>
      }
    }
    assert citations[..|citations|] == citations;
  }

  /** A citable citation is the only kind any row can support, and its row supports it. */
  lemma CitableExactlyWhenSupported(records: map<int, Record>, c: Citation)
    ensures Citable(records, c) ==> Supports(records, c, RowFor(records, c))
    ensures (exists row :: Supports(records, c, row)) ==> Citable(records, c)
  {
    if Citable(records, c) && records[c.step].action.Retrieve? {
      var _ := FirstHitIsFirst(records[c.step].hits, c.documentId);
    }
  }

  /**
    The rows are an order-preserving selection of the citations: row k supports citation from[k], and
    the citations passed over are exactly those of steps that never happened or observed nothing.
  */
  lemma {:induction false} EvidenceIsSound(records: map<int, Record>, citations: seq<Citation>) returns (from: seq<nat>)
    ensures |from| == |Resolved(records, citations)|
    ensures forall k :: 0 <= k < |from| ==> from[k] < |citations|
    ensures forall j, k :: 0 <= j < k < |from| ==> from[j] < from[k]
    ensures forall k :: 0 <= k < |from| ==> Supports(records, citations[from[k]], Resolved(records, citations)[k])
    ensures forall i: nat :: i < |citations| ==> (Citable(records, citations[i]) <==> i in from)
  {
    hide Supports, RowFor, Citable;
    from := [];
    if citations == [] {
    } else {
      var n := |citations| - 1;
      from := EvidenceIsSound(records, citations[..n]);
      CitableExactlyWhenSupported(records, citations[n]);
      var before := from;
      if Citable(records, citations[n]) {
        from := before + [n];
        assert Resolved(records, citations) == Resolved(records, citations[..n]) + [RowFor(records, citations[n])];
      } else {
        assert Resolved(records, citations) == Resolved(records, citations[..n]);
      }
      forall i: nat | i < |citations| ensures Citable(records, citations[i]) <==> i in from {
        if i < n {
          assert citations[..n][i] == citations[i];
          assert i in from <==> i in before;
        }
      }
      forall k | 0 <= k < |from| ensures Supports(records, citations[from[k]], Resolved(records, citations)[k]) {
        if k < |before| {
          assert citations[..n][before[k]] == citations[from[k]];
        }
      }
    }
  }
}
