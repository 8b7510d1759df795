/** Batches of texts to vectors, paired by the indices of the replies (internal/embed/embed.go). */
module Embedding {
  import opened Prelude

  const DIMENSIONS: nat := 1024

  type Vector = seq<real>

  datatype Item = Item(index: int, vector: Vector)

  datatype PairError = WrongCount(got: nat, want: nat) | OutOfRange(index: int) | Twice(index: int) | Dimension(got: nat)

  // ---------------------------------------------------------------- pairing one reply

  predicate InRange(x: int, n: nat) { 0 <= x < n }

  predicate Repeats(data: seq<Item>, k: nat)
    requires k < |data|
  {
    exists j :: 0 <= j < k && data[j].index == data[k].index
  }

  /** What is wrong with item k, in the order the checks are made; None when it is placed. */
  function Fault(data: seq<Item>, k: nat): Option<PairError>
    requires k < |data|
  {
    var item := data[k];
    if !InRange(item.index, |data|) then Some(OutOfRange(item.index))
    else if Repeats(data, k) then Some(Twice(item.index))
    else if |item.vector| != DIMENSIONS then Some(Dimension(|item.vector|))
    else None
  }

  /** An index outside the batch, then one that came before, then a vector that is not 1024 long. */
  lemma FaultIs(data: seq<Item>, k: nat)
    requires k < |data|
    ensures var x := data[k].index;
            var taken := exists j :: 0 <= j < k && data[j].index == x;
            && (Fault(data, k) == Some(OutOfRange(x)) <==> x < 0 || x >= |data|)
            && (Fault(data, k) == Some(Twice(x)) <==> 0 <= x < |data| && taken)
            && (Fault(data, k) == Some(Dimension(|data[k].vector|)) <==>
                  0 <= x < |data| && !taken && |data[k].vector| != 1024)
            && (Fault(data, k) == None <==> 0 <= x < |data| && !taken && |data[k].vector| == 1024)
  {
  }

  /** The item's vector is in the slot its index names. */
  predicate Filled(slots: seq<Option<Vector>>, item: Item) {
    InRange(item.index, |slots|) && slots[item.index] == Some(item.vector)
  }

  /** Slot by slot, the vector whose index field names the slot; or the first fault. */
  method Pair(data: seq<Item>, want: nat) returns (r: Result<seq<Option<Vector>>, PairError>)
    ensures |data| != want <==> r == Err(WrongCount(|data|, want))
    ensures r.Ok? <==> |data| == want && forall k :: 0 <= k < want ==> Fault(data, k).None?
    ensures r.Err? && |data| == want ==>
              exists k :: 0 <= k < want && Fault(data, k) == Some(r.error) && forall j :: 0 <= j < k ==> Fault(data, j).None?
    ensures r.Ok? ==> |r.value| == want
    ensures r.Ok? ==> forall k :: 0 <= k < want ==> Filled(r.value, data[k])
    ensures r.Ok? ==> forall i :: 0 <= i < want ==> r.value[i].Some? && |r.value[i].value| == DIMENSIONS
  {
    if |data| != want {
      return Err(WrongCount(|data|, want));
    }
    var out := seq(want, _ => None);
    for k := 0 to want
      invariant |out| == want
      invariant forall j :: 0 <= j < k ==> Fault(data, j).None?
      invariant forall j :: 0 <= j < k ==> Filled(out, data[j])
      invariant forall i :: 0 <= i < want && out[i].Some? ==> exists j :: 0 <= j < k && data[j].index == i
    {
      var item := data[k];
      if item.index < 0 || item.index >= want {
        assert Fault(data, k) == Some(OutOfRange(item.index));
        return Err(OutOfRange(item.index));
      } else if out[item.index].Some? {
        assert Fault(data, k) == Some(Twice(item.index));
        return Err(Twice(item.index));
      } else if |item.vector| != DIMENSIONS {
        assert Fault(data, k) == Some(Dimension(|item.vector|));
        return Err(Dimension(|item.vector|));
      }
      assert Fault(data, k).None?;
      assert forall j :: 0 <= j < k ==> data[j].index != item.index;
      out := out[item.index := Some(item.vector)];
    }
    forall i | 0 <= i < want ensures out[i].Some? && |out[i].value| == DIMENSIONS {
      AcceptedRepliesFillEverySlot(data, i);
      var k :| 0 <= k < want && data[k].index == i && |data[k].vector| == DIMENSIONS;
      assert Filled(out, data[k]);
    }
    return Ok(out);
  }

  // ---------------------------------------------------------------- no slot is left empty

  function Range(n: nat): (s: set<int>)
    ensures |s| == n && forall x :: x in s <==> 0 <= x < n
  {
    if n == 0 then {} else Range(n - 1) + {n - 1}
  }

  lemma {:induction false} DistinctIndices(data: seq<Item>, k: nat) returns (seen: set<int>)
    requires k <= |data| && forall j :: 0 <= j < k ==> Fault(data, j).None?
    ensures |seen| == k && seen <= Range(|data|)
    ensures forall i :: i in seen <==> exists j :: 0 <= j < k && data[j].index == i
  {
    seen := {};
    if k == 0 {
    } else {
      var before := DistinctIndices(data, k - 1);
      assert Fault(data, k - 1).None?;
      seen := before + {data[k - 1].index};
    }
  }

  lemma {:induction false} SubsetsOfARangeAreSmall(s: set<int>, n: nat)
    requires s <= Range(n)
    ensures |s| <= n
  {
    if n > 0 {
      SubsetsOfARangeAreSmall(s - {n - 1}, n - 1);
      assert |s| <= |s - {n - 1}| + 1 by {
        if n - 1 in s {
          assert s == (s - {n - 1}) + {n - 1};
        } else {
          assert s == s - {n - 1};
        }
      }
    } else {
      assert s == {};
    }
  }

  /** n distinct numbers below n leave none of them out. */
  lemma Pigeonhole(s: set<int>, n: nat, i: nat)
    requires s <= Range(n) && |s| == n && i < n
    ensures i in s
  {
    if i !in s {
      var most := if n - 1 in s then s - {n - 1} + {i} else s;
      if n - 1 in s {
        assert s == (s - {n - 1}) + {n - 1};
        assert |most| == |s|;
      }
      SubsetsOfARangeAreSmall(most, n - 1);
      assert false;
    }
  }

  /** A reply that is accepted names every index from 0 to n - 1, so by counting no slot is empty. */
  lemma AcceptedRepliesFillEverySlot(data: seq<Item>, i: nat)
    requires i < |data| && forall k :: 0 <= k < |data| ==> Fault(data, k).None?
    ensures exists k :: 0 <= k < |data| && data[k].index == i && |data[k].vector| == DIMENSIONS
  {
    var seen := DistinctIndices(data, |data|);
    Pigeonhole(seen, |data|, i);
    var k :| 0 <= k < |data| && data[k].index == i;
    assert Fault(data, k).None?;
  }

  // ---------------------------------------------------------------- every batch

  /** What one request brings back: the provider's items in whatever order, or a failure. */
  datatype Reply = Items(data: seq<Item>) | Failed

  datatype EmbedError = Unpaired(error: PairError) | RequestFailed

  /** How many requests it takes to send n texts. */
  function Requests(n: nat, batchSize: nat): nat
    requires batchSize >= 1
  {
    (n + batchSize - 1) / batchSize
  }

  /** How many texts request r carries. */
  function BatchLength(n: nat, batchSize: nat, r: nat): nat
    requires batchSize >= 1
  {
    Max(0, Min(batchSize, n - r * batchSize))
  }

  /** Every request but the last carries a whole batch, and the last one what is left. */
  lemma BatchLengthIs(n: nat, batchSize: nat, r: nat)
    requires batchSize >= 1
    ensures n <= r * batchSize ==> BatchLength(n, batchSize, r) == 0
    ensures r * batchSize < n < r * batchSize + batchSize ==> BatchLength(n, batchSize, r) == n - r * batchSize
    ensures r * batchSize + batchSize <= n ==> BatchLength(n, batchSize, r) == batchSize
  {
  }

  /** The reply to request r is accepted: one faultless item for each of its texts. */
  predicate Accepted(n: nat, batchSize: nat, r: nat, reply: Reply)
    requires batchSize >= 1
  {
    && reply.Items? && |reply.data| == BatchLength(n, batchSize, r)
    && forall k :: 0 <= k < |reply.data| ==> Fault(reply.data, k).None?
  }

  /** `v` is the vector that the reply gives to place `i` of its batch, by its index field. */
  predicate IsFor(reply: Reply, i: int, v: Vector) {
    reply.Items? && exists k :: 0 <= k < |reply.data| && reply.data[k] == Item(i, v)
  }

  /** An accepted reply names each index once, so there is one vector for a place. */
  lemma OneVectorForAPlace(n: nat, batchSize: nat, r: nat, reply: Reply, i: int, u: Vector, v: Vector)
    requires batchSize >= 1 && Accepted(n, batchSize, r, reply) && IsFor(reply, i, u) && IsFor(reply, i, v)
    ensures u == v
  {
    var j :| 0 <= j < |reply.data| && reply.data[j] == Item(i, u);
    var k :| 0 <= k < |reply.data| && reply.data[k] == Item(i, v);
    assert Fault(reply.data, j).None? && Fault(reply.data, k).None?;
  }

  /** One request: its reply, paired with the texts it carried. */
  method EmbedOne(n: nat, batchSize: nat, r: nat, reply: Reply) returns (out: Result<seq<Vector>, EmbedError>)
    requires batchSize >= 1
    ensures out.Ok? <==> Accepted(n, batchSize, r, reply)
    ensures out == Err(RequestFailed) <==> reply.Failed?
    ensures out.Ok? ==> |out.value| == BatchLength(n, batchSize, r)
    ensures out.Ok? ==> forall i :: 0 <= i < |out.value| ==> IsFor(reply, i, out.value[i])
  {
    if reply.Failed? {
      return Err(RequestFailed);
    }
    var paired := Pair(reply.data, BatchLength(n, batchSize, r));
    if paired.Err? {
      return Err(Unpaired(paired.error));
    }
    var slots := paired.value;
    var vectors: seq<Vector> := seq(|slots|, i requires 0 <= i < |slots| => slots[i].GetOr([]));
    forall i | 0 <= i < |vectors| ensures IsFor(reply, i, vectors[i]) {
      AcceptedRepliesFillEverySlot(reply.data, i);
      var k :| 0 <= k < |reply.data| && reply.data[k].index == i;
      assert Filled(slots, reply.data[k]);
      assert reply.data[k] == Item(i, vectors[i]);
    }
    return Ok(vectors);
  }

  lemma MoreTimesIsMore(a: int, b: int, times: nat)
    ensures a <= b ==> a * times <= b * times
  {
  }

  lemma PlaceInItsBatch(k: nat, batchSize: nat, r: nat)
    requires batchSize >= 1 && r * batchSize <= k < r * batchSize + batchSize
    ensures k / batchSize == r && k % batchSize == k - r * batchSize
  {
    var q, m := k / batchSize, k % batchSize;
    assert k == q * batchSize + m;
    MoreTimesIsMore(q, r - 1, batchSize);
    MoreTimesIsMore(r + 1, q, batchSize);
    assert (r - 1) * batchSize == r * batchSize - batchSize && (r + 1) * batchSize == r * batchSize + batchSize;
  }

  /** The vectors of the first r batches, each the one its reply gives to its text's place. */
  ghost predicate Placed(replies: nat -> Reply, batchSize: nat, out: seq<Vector>)
    requires batchSize >= 1
  {
    forall k :: 0 <= k < |out| ==> IsFor(replies(k / batchSize), k % batchSize, out[k])
  }

  lemma OneBatchMore(replies: nat -> Reply, batchSize: nat, out: seq<Vector>, r: nat, more: seq<Vector>)
    requires batchSize >= 1 && |out| == r * batchSize && |more| <= batchSize && Placed(replies, batchSize, out)
    requires forall i :: 0 <= i < |more| ==> IsFor(replies(r), i, more[i])
    ensures Placed(replies, batchSize, out + more)
  {
    forall k | 0 <= k < |out + more| ensures IsFor(replies(k / batchSize), k % batchSize, (out + more)[k]) {
      if k >= |out| {
        PlaceInItsBatch(k, batchSize, r);
        assert (out + more)[k] == more[k - |out|];
      }
    }
  }

  lemma RequestsCover(n: nat, batchSize: nat, r: nat)
    requires batchSize >= 1 && r > 0 && (r - 1) * batchSize < n <= r * batchSize
    ensures Requests(n, batchSize) == r
  {
    var top := n + batchSize - 1;
    assert r * batchSize == (r - 1) * batchSize + batchSize;
    PlaceInItsBatch(top, batchSize, r);
  }

  /**
    One vector per text, whatever the batch size and in whatever order the provider answers: the k-th
    is the one whose index is k's place in its batch, in the reply to that batch. The first request
    that fails, or is answered wrongly, fails the whole.
  */
  method Embed<T>(texts: seq<T>, batchSize: nat, replies: nat -> Reply)
    returns (r: Result<seq<Vector>, EmbedError>, requests: nat)
    requires batchSize >= 1
    ensures r.Ok? ==> |r.value| == |texts| && Placed(replies, batchSize, r.value)
    ensures r.Ok? <==> forall q: nat :: q < Requests(|texts|, batchSize) ==> Accepted(|texts|, batchSize, q, replies(q))
    ensures r.Ok? ==> requests == Requests(|texts|, batchSize)
    ensures r.Err? ==> 0 < requests <= Requests(|texts|, batchSize)
                       && !Accepted(|texts|, batchSize, requests - 1, replies(requests - 1))
    ensures forall q: nat :: q < requests - 1 ==> Accepted(|texts|, batchSize, q, replies(q))
  {
    hide *;
    var n := |texts|;
    var out: seq<Vector> := [];
    requests := 0;
    var start := 0;
    NoneYet(replies, batchSize, n);
    while start < n
      invariant Reached(n, batchSize, requests, start) && |out| == (if start < n then start else n)
      invariant Placed(replies, batchSize, out)
      invariant forall q: nat :: q < requests ==> Accepted(n, batchSize, q, replies(q))
      decreases n - start
    {
      var answer := EmbedOne(n, batchSize, requests, replies(requests));
      ReachedMore(n, batchSize, requests, start);
      requests := requests + 1;
      if answer.Err? {
        return Err(answer.error), requests;
      }
      OneBatchMore(replies, batchSize, out, requests - 1, answer.value);
      out := out + answer.value;
      start := start + batchSize;
    }
    ReachedAll(n, batchSize, requests, start);
    return Ok(out), requests;
  }

  /** r requests have been sent, the first text left is at `start`, and the last request was needed. */
  ghost predicate Reached(n: nat, batchSize: nat, r: nat, start: nat)
    requires batchSize >= 1
  {
    start == r * batchSize && (r > 0 ==> (r - 1) * batchSize < n)
  }

  lemma ReachedMore(n: nat, batchSize: nat, r: nat, start: nat)
    requires batchSize >= 1 && Reached(n, batchSize, r, start) && start < n
    ensures Reached(n, batchSize, r + 1, start + batchSize) && start == r * batchSize
    ensures r < Requests(n, batchSize)
    ensures BatchLength(n, batchSize, r) == (if start + batchSize < n then batchSize else n - start)
  {
    assert (r + 1) * batchSize == r * batchSize + batchSize;
    StillNeeded(n, batchSize, r);
  }

  lemma ReachedAll(n: nat, batchSize: nat, r: nat, start: nat)
    requires batchSize >= 1 && Reached(n, batchSize, r, start) && start >= n
    ensures Requests(n, batchSize) == r
  {
    if r > 0 {
      RequestsCover(n, batchSize, r);
    } else {
      NoneNeeded(batchSize);
    }
  }

  lemma NoneNeeded(batchSize: nat)
    requires batchSize >= 1
    ensures Requests(0, batchSize) == 0
  {
    PlaceInItsBatch(batchSize - 1, batchSize, 0);
  }

  lemma NoneYet(replies: nat -> Reply, batchSize: nat, n: nat)
    requires batchSize >= 1
    ensures Placed(replies, batchSize, []) && Reached(n, batchSize, 0, 0)
  {
  }

  lemma StillNeeded(n: nat, batchSize: nat, r: nat)
    requires batchSize >= 1 && r * batchSize < n
    ensures r < Requests(n, batchSize)
  {
    var q := Requests(n, batchSize);
    var top := n + batchSize - 1;
    assert top == q * batchSize + top % batchSize;
    MoreTimesIsMore(q, r, batchSize);
  }
}
