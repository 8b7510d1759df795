/**
  The settings and the ingest protocol together, over every behaviour: if each worker's effects come
  when its own delivery gets to them, and the lease has room for the latest end, then a READY document
  is indexed exactly (internal/config/reconcile.go, internal/ingest/handler.go).
*/
module TimedDelivery {
  import opened Prelude
  import opened DocumentRows
  import opened IngestProtocol
  import opened SearchIndex
  import opened IngestHandler

  /** What one claim's delivery meets: the index as it was, the requests made before, and the answers. */
  datatype Plan = Plan(index: Index, calls: nat, delivery: Delivery)

  datatype Limits = Limits(documentTimeout: nat, claiming: nat, reading: nat)

  /** The delivery of worker `k` is this one, bound by its deadline. */
  ghost predicate Carries(l: Limits, k: Worker, p: Plan) {
    Possible(p.index, p.calls, k.doc, p.delivery, k.since, l.documentTimeout, l.claiming, l.reading)
  }

  /** When the worker's own delivery has got to this effect. */
  function EffectBy(l: Limits, k: Worker, p: Plan, a: Action): Time
    requires TouchesIndex(a) ==> Prepared(p.delivery)
  {
    var d, t := p.delivery, k.since + p.delivery.claiming;
    var deadline := t + l.documentTimeout;
    if !TouchesIndex(a) then EndsAt(p.index, p.calls, k.doc, d, t, l.documentTimeout)
    else
      var deleted := Within(VectorsAt(d, t, deadline), d.deleting, deadline);
      var indexed := RequestsEnd(deleted, d.indexing, p.calls, IndexCalls(p.index, p.calls, k.doc, d), deadline);
      if a.Delete? || a.DeletePartly? then deleted
      else if a.Bulk? || a.BulkPartly? then indexed
      else indexed + Min(d.cleaning, TERMINAL_TIMEOUT)
  }

  /** Only a delivery with every vector in hand touches the index, and each effect comes by its time. */
  ghost predicate OnTime(l: Limits, plan: (DocId, nat) -> Plan, at: State, a: Action) {
    (TouchesIndex(a) || MarksRow(a)) && a.w in at.workers ==> (
      var k := at.workers[a.w];
      var p := plan(k.doc, k.own);
      Carries(l, k, p) && (TouchesIndex(a) ==> Prepared(p.delivery)) && at.now <= EffectBy(l, k, p, a))
  }

  /** The vectors of a prepared delivery were in hand by its deadline, so the requests are over by it. */
  lemma RequestsEndByTheDeadline(l: Limits, k: Worker, p: Plan)
    requires Carries(l, k, p) && Prepared(p.delivery)
    ensures var d, t := p.delivery, k.since + p.delivery.claiming;
            var deadline := t + l.documentTimeout;
            var deleted := Within(VectorsAt(d, t, deadline), d.deleting, deadline);
            deleted <= deadline &&
            RequestsEnd(deleted, d.indexing, p.calls, IndexCalls(p.index, p.calls, k.doc, d), deadline) <= deadline
  {
    hide RequestsEnd, IndexCalls;
    var d, t := p.delivery, k.since + p.delivery.claiming;
    var deadline := t + l.documentTimeout;
    RequestsEndInTime(Within(VectorsAt(d, t, deadline), d.deleting, deadline), d.indexing, p.calls,
                      IndexCalls(p.index, p.calls, k.doc, d), deadline);
  }

  lemma EffectsComeByTheLatestEnd(l: Limits, k: Worker, p: Plan, a: Action)
    requires Carries(l, k, p) && (TouchesIndex(a) ==> Prepared(p.delivery))
    ensures EffectBy(l, k, p, a) <= k.since + LatestEnd(l.documentTimeout, l.claiming, l.reading)
  {
    hide RequestsEnd, IndexCalls, VectorsAt, Within, EndsAt, HeedsItsDeadline;
    if TouchesIndex(a) {
      RequestsEndByTheDeadline(l, k, p);
    } else {
      EndsByTheLatest(p.index, p.calls, k.doc, p.delivery, k.since, l.documentTimeout, l.claiming, l.reading);
    }
  }

  /** However many workers there are and however they interleave, every effect is in its lease. */
  lemma EffectsOnTimeAreInTheirLeases(c: Config, l: Limits, plan: (DocId, nat) -> Plan, b: seq<State>, acts: seq<Action>)
    requires Behavior(c, b, acts) && LatestEnd(l.documentTimeout, l.claiming, l.reading) <= c.lease
    requires forall i :: 0 <= i < |acts| ==> OnTime(l, plan, b[i], acts[i])
    ensures EffectsInLease(c, b, acts)
  {
    hide EffectBy, LatestEnd, Carries, Next, Init;
    forall i | 0 <= i < |acts| ensures EffectInLease(c, b[i], acts[i]) {
      var s, a := b[i], acts[i];
      assert OnTime(l, plan, s, a);
      if (TouchesIndex(a) || MarksRow(a)) && a.w in s.workers {
        var k := s.workers[a.w];
        EffectsComeByTheLatestEnd(l, k, plan(k.doc, k.own), a);
      }
    }
  }

  /** So in all of them a READY document's chunks are exactly the chunker's output. */
  lemma DeliveriesOnTimeIndexExactly(c: Config, l: Limits, plan: (DocId, nat) -> Plan, b: seq<State>, acts: seq<Action>,
                                     i: nat, d: DocId)
    requires Behavior(c, b, acts) && LatestEnd(l.documentTimeout, l.claiming, l.reading) <= c.lease
    requires forall j :: 0 <= j < |acts| ==> OnTime(l, plan, b[j], acts[j])
    requires i < |b| && d in b[i].docs && b[i].docs[d].status.Ready?
    ensures c.chunked(d).Some? && b[i].docs[d].chunkCount == |c.chunked(d).value|
    ensures forall k: nat :: (d, k) in b[i].index.chunks <==> k < |c.chunked(d).value|
    ensures forall k: nat :: k < |c.chunked(d).value| ==> b[i].index.chunks[(d, k)] == c.chunked(d).value[k]
  {
    hide *;
    EffectsOnTimeAreInTheirLeases(c, l, plan, b, acts);
    LeasesKeepEffectsUnderTheirClaims(c, b, acts);
    ReadyDocumentsAreExactlyIndexed(c, b, acts, i, d);
  }
}
