/** The watermark acker of one delivery term (mq/redismq/acker.go). */
module AckerSpec {
  import opened Ids

  // pending: delivered but unacked ids; watermark: highest marked id, NONE before any mark.
  datatype Ack = Ack(pending: seq<Id>, watermark: int)

  const FRESH := Ack([], NONE)

  function OnDeliver(a: Ack, id: Id): Ack {
    a.(pending := a.pending + [id])
  }

  function Mark(a: Ack, id: Id): Ack {
    if id > a.watermark then a.(watermark := id) else a
  }

  // Length of the longest prefix of ids that are at most w.
  function PrefixLen(ids: seq<Id>, w: int): (n: nat)
    ensures n <= |ids|
    ensures forall i :: 0 <= i < n ==> ids[i] <= w
    ensures n < |ids| ==> ids[n] > w
  {
    PrefixEnd(ids, w, 0)
  }

  function PrefixEnd(ids: seq<Id>, w: int, from: nat): (n: nat)
    requires from <= |ids|
    ensures from <= n <= |ids|
    ensures forall i :: from <= i < n ==> ids[i] <= w
    ensures n < |ids| ==> ids[n] > w
    decreases |ids| - from
  {
    if from == |ids| || ids[from] > w then from else PrefixEnd(ids, w, from + 1)
  }

  function Batch(a: Ack): seq<Id> {
    a.pending[..PrefixLen(a.pending, a.watermark)]
  }

  function AfterTake(a: Ack): Ack {
    a.(pending := a.pending[PrefixLen(a.pending, a.watermark)..])
  }

  function Requeue(a: Ack, batch: seq<Id>): Ack {
    a.(pending := batch + a.pending)
  }

  // A block of ids at or below the watermark, then a strictly ascending block.
  ghost predicate SplitAt(a: Ack, k: nat) {
    && k <= |a.pending|
    && (forall i :: 0 <= i < k ==> a.pending[i] <= a.watermark)
    && Ascending(a.pending[k..])
  }

  // The same shape without naming the split point.
  ghost predicate Split(a: Ack) {
    forall i, j :: 0 <= i < j < |a.pending| ==> a.pending[i] <= a.watermark || a.pending[i] < a.pending[j]
  }

  lemma SplitMeansSplitAt(a: Ack)
    ensures Split(a) <==> exists k: nat :: SplitAt(a, k)
  {
    if Split(a) {
      var k := PrefixLen(a.pending, a.watermark);
      forall i, j | k <= i < j < |a.pending|
        ensures a.pending[i] < a.pending[j]
      {
        if k < i {
          assert a.pending[k] < a.pending[i];
        }
      }
      assert SplitAt(a, k);
    }
    if k: nat :| SplitAt(a, k) {
      forall i, j | 0 <= i < j < |a.pending|
        ensures a.pending[i] <= a.watermark || a.pending[i] < a.pending[j]
      {
        if k <= i {
          assert a.pending[k..][i - k] < a.pending[k..][j - k];
        }
      }
    }
  }

  lemma RestIsAbove(a: Ack)
    requires Split(a)
    ensures var n := PrefixLen(a.pending, a.watermark);
            forall i :: n <= i < |a.pending| ==> a.pending[i] > a.watermark
  {
    var n := PrefixLen(a.pending, a.watermark);
    forall i | n < i < |a.pending|
      ensures a.pending[i] > a.watermark
    {
      assert a.pending[n] < a.pending[i];
    }
  }

  // On a split queue the counting loop stops only when nothing markable is left behind:
  // the batch is every pending id at or below the watermark, and what stays is ascending.
  lemma TakeIsExact(a: Ack)
    requires Split(a)
    ensures Batch(a) + AfterTake(a).pending == a.pending
    ensures forall i :: 0 <= i < |Batch(a)| ==> Batch(a)[i] <= a.watermark
    ensures forall i :: 0 <= i < |AfterTake(a).pending| ==> AfterTake(a).pending[i] > a.watermark
    ensures Ascending(AfterTake(a).pending)
  {
    RestIsAbove(a);
    TailIsAbove(a, PrefixLen(a.pending, a.watermark));
  }

  lemma TailIsAbove(a: Ack, n: nat)
    requires Split(a) && n <= |a.pending| && forall i :: n <= i < |a.pending| ==> a.pending[i] > a.watermark
    ensures a.pending[..n] + a.pending[n..] == a.pending
    ensures forall i :: 0 <= i < |a.pending[n..]| ==> a.pending[n..][i] > a.watermark
    ensures Ascending(a.pending[n..])
  {
    var rest := a.pending[n..];
    forall i, j | 0 <= i < j < |rest| ensures rest[i] < rest[j] {
      assert rest[i] == a.pending[n + i] && rest[j] == a.pending[n + j];
    }
  }

  // The queue stays split under every locked section, in any order: an id above all
  // pending ones is delivered, a mark lands, a flush takes its batch, and a batch
  // taken earlier (hence at or below the watermark) is put back after a failed XACK.
  lemma SplitKept(a: Ack, id: Id, batch: seq<Id>)
    requires Split(a)
    ensures (forall i :: 0 <= i < |a.pending| ==> a.pending[i] < id) ==> Split(OnDeliver(a, id))
    ensures Split(Mark(a, id))
    ensures Split(AfterTake(a))
    ensures (forall i :: 0 <= i < |batch| ==> batch[i] <= a.watermark) ==> Split(Requeue(a, batch))
  {
    if forall i :: 0 <= i < |a.pending| ==> a.pending[i] < id {
      DeliverKeepsSplit(a, id);
    }
    TakeKeepsSplit(a);
    if forall i :: 0 <= i < |batch| ==> batch[i] <= a.watermark {
      RequeueKeepsSplit(a, batch);
    }
  }

  lemma DeliverKeepsSplit(a: Ack, id: Id)
    requires Split(a) && forall i :: 0 <= i < |a.pending| ==> a.pending[i] < id
    ensures Split(OnDeliver(a, id))
  {
  }

  lemma TakeKeepsSplit(a: Ack)
    requires Split(a)
    ensures Split(AfterTake(a))
  {
    TailKeepsSplit(a, PrefixLen(a.pending, a.watermark));
  }

  lemma TailKeepsSplit(a: Ack, n: nat)
    requires Split(a) && n <= |a.pending|
    ensures Split(a.(pending := a.pending[n..]))
  {
    var rest := a.pending[n..];
    forall i, j | 0 <= i < j < |rest| ensures rest[i] <= a.watermark || rest[i] < rest[j] {
      assert rest[i] == a.pending[n + i] && rest[j] == a.pending[n + j];
    }
  }

  lemma RequeueKeepsSplit(a: Ack, batch: seq<Id>)
    requires Split(a) && forall i :: 0 <= i < |batch| ==> batch[i] <= a.watermark
    ensures Split(Requeue(a, batch))
  {
    var all := batch + a.pending;
    forall i, j | 0 <= i < j < |all| ensures all[i] <= a.watermark || all[i] < all[j] {
      if i >= |batch| {
        assert all[i] == a.pending[i - |batch|] && all[j] == a.pending[j - |batch|];
      }
    }
  }
}

/** The acker object itself; its mutex sections are its methods. */
module Acker {
  import opened Ids
  import opened AckerSpec

  class AckQueue {
    var pending: seq<Id>
    var watermark: int

    constructor ()
      ensures State() == FRESH
    {
      pending, watermark := [], NONE;
    }

    function State(): Ack
      reads this
    {
      Ack(pending, watermark)
    }

    method OnDeliver(id: Id)
      modifies this
      ensures State() == AckerSpec.OnDeliver(old(State()), id)
    {
      pending := pending + [id];
    }

    method Mark(id: Id)
      modifies this
      ensures State() == AckerSpec.Mark(old(State()), id)
    {
      if id > watermark {
        watermark := id;
      }
    }

    // The first critical section of flush: batch is what the XACK will carry, and no
    // XACK is sent when it is empty.
    method Take() returns (batch: seq<Id>)
      modifies this
      ensures batch == Batch(old(State()))
      ensures State() == AfterTake(old(State()))
    {
      if watermark == NONE || |pending| == 0 {
        return [];
      }
      var n := 0;
      while n < |pending| && pending[n] <= watermark
        invariant n <= |pending|
        invariant PrefixLen(pending, watermark) == PrefixEnd(pending, watermark, n)
      {
        n := n + 1;
      }
      if n == 0 {
        return [];
      }
      batch := pending[..n];
      pending := pending[n..];
    }

    // The second critical section of flush, reached only when the XACK failed.
    method Requeue(batch: seq<Id>)
      modifies this
      ensures State() == AckerSpec.Requeue(old(State()), batch)
    {
      pending := batch + pending;
    }

    // flush with no other section in between: acked ids leave the queue, and after a
    // failed XACK the queue is exactly what it was.
    method Flush(ackFails: bool) returns (acked: seq<Id>)
      modifies this
      ensures acked == if ackFails then [] else Batch(old(State()))
      ensures State() == if ackFails then old(State()) else AfterTake(old(State()))
    {
      ghost var before := State();
      var batch := Take();
      if ackFails {
        Requeue(batch);
        assert batch + AfterTake(before).pending == before.pending;
        return [];
      }
      return batch;
    }
  }
}
