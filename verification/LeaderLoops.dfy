/** The leader's loops over Redis, with other clients acting between any two commands. */
module LeaderLoops {
  import opened Basics
  import opened Ids
  import opened Terms
  import opened RedisStream
  import QueueSafety

  // What other clients may do to the server while consumer me is between two commands:
  // anything that keeps the server sound, except make entries pending under me.
  ghost predicate Rely(a: Server, b: Server, me: Name) {
    && ServerOk(b)
    && a.delivered <= b.delivered
    && (forall e :: e in b.pel ==> e in a.pel || e > a.delivered)
    && OwnedBy(b, me) <= OwnedBy(a, me)
  }

  // What XPENDING answers: the smallest pending id and, per owner, its number of entries.
  datatype Summary = Summary(lower: Option<Id>, consumers: map<Name, nat>)

  ghost predicate Summarises(p: Summary, s: Server) {
    && (p.lower.None? <==> s.pel == map[])
    && (p.lower.Some? ==> IsMin(p.lower.value, s.pel.Keys))
    && (forall n :: n in p.consumers ==> p.consumers[n] == |OwnedBy(s, n)| > 0)
    && (forall e :: e in s.pel ==> s.pel[e] in p.consumers)
  }

  method Smallest(ids: set<Id>) returns (m: Id)
    requires ids != {}
    ensures IsMin(m, ids)
  {
    m :| m in ids;
    var rest := ids - {m};
    while rest != {}
      invariant m in ids && rest <= ids
      invariant forall x :: x in ids ==> m <= x || x in rest
      decreases rest
    {
      var x :| x in rest;
      rest := rest - {x};
      if x < m {
        m := x;
      }
    }
  }

  method SortIds(ids: set<Id>) returns (order: seq<Id>)
    ensures Ascending(order) && Elems(order) == ids
  {
    order := [];
    var rest := ids;
    while rest != {}
      invariant Ascending(order)
      invariant Elems(order) + rest == ids && Elems(order) !! rest
      invariant forall i, x :: 0 <= i < |order| && x in rest ==> order[i] < x
      decreases rest
    {
      var m := Smallest(rest);
      assert forall i :: 0 <= i < |order| ==> order[i] < m;
      assert Elems(order + [m]) == Elems(order) + {m};
      order := order + [m];
      rest := rest - {m};
    }
  }

  class Redis {
    var sv: Server

    ghost predicate Valid()
      reads this
    {
      ServerOk(sv)
    }

    constructor (history: set<Id>, top: Id)
      requires forall e :: e in history ==> e <= top
      ensures Valid() && sv == Created(history, top)
    {
      sv := Created(history, top);
    }

    // Callers know of it only what the contract says.
    method Others(me: Name)
      requires Valid()
      modifies this
      ensures Valid() && Rely(old(sv), sv, me)
    {
    }

    method XInfoGroups() returns (delivered: Id, pending: nat)
      ensures delivered == sv.delivered && pending == |sv.pel|
    {
      return sv.delivered, |sv.pel|;
    }

    method XPending() returns (p: Summary)
      ensures Summarises(p, sv)
    {
      var lower: Option<Id> := None;
      if sv.pel != map[] {
        assert exists e :: e in sv.pel;
        var m := Smallest(sv.pel.Keys);
        lower := Some(m);
      }
      var owners := set e | e in sv.pel :: sv.pel[e];
      p := Summary(lower, map n | n in owners :: |OwnedBy(sv, n)|);
      forall n | n in p.consumers
        ensures |OwnedBy(sv, n)| > 0
      {
        var e :| e in sv.pel && sv.pel[e] == n;
        assert e in OwnedBy(sv, n);
      }
    }

    method XTrimMinId(m: Id)
      requires Valid() && Floor(sv, m)
      modifies this
      ensures Valid() && sv == RedisStream.XTrimMinId(old(sv), m)
    {
      sv := RedisStream.XTrimMinId(sv, m);
    }

    // One page: ids is what was claimed, next the cursor of the following page, 0 after
    // the last one. Idle times decide which entries of the page are claimed.
    method XAutoClaim(me: Name, start: Id) returns (ids: set<Id>, next: Id)
      requires Valid()
      modifies this
      ensures Valid()
      ensures ids <= old(sv).pel.Keys && (forall e :: e in ids ==> e >= start)
      ensures sv == RedisStream.XAutoClaim(old(sv), me, ids)
    {
      var ripe: set<Id> := *;
      next := *;
      ids := set e | e in sv.pel && start <= e && (e < next || next == 0) && e in ripe;
      sv := RedisStream.XAutoClaim(sv, me, ids);
    }

    // XREADGROUP with ">": the next undelivered entries, or nothing before BLOCK ends.
    method XReadGroup(me: Name, count: nat) returns (batch: seq<Id>)
      requires Valid() && count > 0
      modifies this
      ensures Valid() && |batch| <= count
      ensures batch == [] ==> sv == old(sv)
      ensures batch != [] ==> IsNextBatch(old(sv), batch) && sv == RedisStream.XReadGroup(old(sv), me, batch)
    {
      var undelivered := set e | e in sv.entries && e > sv.delivered;
      var order := SortIds(undelivered);
      batch := if |order| <= count then order else order[..count];
      if batch != [] {
        assert batch == order[..|batch|];
        FirstAreNext(sv, undelivered, order, |batch|);
        QueueSafety.ReadKeepsServer(sv, me, batch);
        sv := RedisStream.XReadGroup(sv, me, batch);
      }
    }
  }

  lemma FirstAreNext(s: Server, undelivered: set<Id>, order: seq<Id>, k: nat)
    requires undelivered == set e | e in s.entries && e > s.delivered
    requires Ascending(order) && Elems(order) == undelivered && 0 < k <= |order|
    ensures IsNextBatch(s, order[..k])
  {
    forall e | e in order[..k]
      ensures e in undelivered
    {
      assert e in Elems(order);
    }
    forall e | e in s.entries && s.delivered < e <= order[k - 1]
      ensures e in order[..k]
    {
      assert e in Elems(order);
      var i :| 0 <= i < |order| && order[i] == e;
      assert i < k;
    }
  }

  // trimStream: XINFO GROUPS, then XPENDING, then XTRIM, with other clients in between.
  // The trim is issued only at a floor of what is still pending or undelivered, so the
  // server stays sound: no pending and no undelivered entry is dropped.
  method TrimStream(redis: Redis, me: Name) returns (minId: Id, ghost info: Server, ghost summary: Server, ghost before: Server)
    requires redis.Valid()
    modifies redis
    ensures redis.Valid()
    ensures minId == 0 ==> redis.sv == before
    ensures minId != 0 ==> redis.sv == XTrimMinId(before, minId)
    ensures minId != 0 && (info.pel == map[] || summary.pel == map[]) ==> minId == info.delivered
    ensures minId != 0 && info.pel != map[] && summary.pel != map[] ==> IsMin(minId, summary.pel.Keys)
    ensures forall e: Id :: Waiting(before, e) ==> Waiting(redis.sv, e)
  {
    info, summary, before := redis.sv, redis.sv, redis.sv;
    var failed: bool := *;
    if failed {
      return 0, info, summary, before;
    }
    var pending;
    minId, pending := redis.XInfoGroups();
    assert pending == 0 ==> Floor(redis.sv, minId);
    redis.Others(me);
    if pending > 0 {
      summary := redis.sv;
      failed := *;
      if failed {
        return 0, info, summary, redis.sv;
      }
      var p := redis.XPending();
      if p.lower.Some? {
        minId := p.lower.value;
        assert minId in redis.sv.pel;
      }
      redis.Others(me);
    }
    before := redis.sv;
    if minId == 0 {
      return;
    }
    failed := *;
    if failed {
      return 0, info, summary, before;
    }
    redis.XTrimMinId(minId);
  }

  // orphanedPending: how many pending entries other names own.
  method OrphanedPending(redis: Redis, me: Name) returns (n: nat)
    requires redis.Valid()
    ensures n == 0 <==> redis.sv.pel.Keys == OwnedBy(redis.sv, me)
  {
    var p := redis.XPending();
    n := 0;
    var rest := p.consumers.Keys;
    while rest != {}
      invariant rest <= p.consumers.Keys
      invariant n == 0 <==> forall c :: c in p.consumers.Keys && c !in rest ==> c == me
      decreases rest
    {
      var c :| c in rest;
      rest := rest - {c};
      assert p.consumers[c] > 0;
      if c != me {
        n := n + p.consumers[c];
      }
    }
    if n == 0 {
      assert rest == {};
      assert forall e :: e in redis.sv.pel ==> redis.sv.pel[e] in p.consumers.Keys;
    } else {
      var c :| c in p.consumers.Keys && c != me;
      var e :| e in OwnedBy(redis.sv, c);
      assert e in redis.sv.pel.Keys && e !in OwnedBy(redis.sv, me);
    }
  }

  // claimScan: one paginated pass; life counts how often the context is still alive.
  // Whatever is pending under me at the end has been collected, if that was so before;
  // a failed call has no effect here (QueueProtocol has lost answers too).
  method ClaimScan(redis: Redis, me: Name, claimed: set<Id>, life: nat) returns (ok: bool, all: set<Id>, left: nat)
    requires redis.Valid()
    requires forall e :: e in claimed ==> e <= redis.sv.delivered
    modifies redis
    ensures redis.Valid() && old(redis.sv).delivered <= redis.sv.delivered
    ensures claimed <= all && forall e :: e in all ==> e <= redis.sv.delivered
    ensures OwnedBy(old(redis.sv), me) <= claimed ==> OwnedBy(redis.sv, me) <= all
    ensures left <= life
  {
    all, left := claimed, life;
    var cursor := 0;
    while true
      invariant redis.Valid() && old(redis.sv).delivered <= redis.sv.delivered
      invariant claimed <= all && forall e :: e in all ==> e <= redis.sv.delivered
      invariant OwnedBy(old(redis.sv), me) <= claimed ==> OwnedBy(redis.sv, me) <= all
      invariant left <= life
      decreases left
    {
      if left == 0 {
        return false, all, left;
      }
      left := left - 1;
      redis.Others(me);
      var failed: bool := *;
      if failed {
        return false, all, left;
      }
      var ids, next := redis.XAutoClaim(me, cursor);
      all := all + ids;
      if next == 0 {
        return true, all, left;
      }
      cursor := next;
    }
  }

  // deliverClaimed: in id order, until the context ends.
  method DeliverClaimed(claimed: set<Id>, life: nat) returns (sent: seq<Id>, left: nat)
    ensures Ascending(sent) && Elems(sent) <= claimed
    ensures left > 0 ==> Elems(sent) == claimed
    ensures left <= life
  {
    var order := SortIds(claimed);
    sent, left := [], life;
    var i := 0;
    while i < |order|
      invariant i <= |order| && sent == order[..i] && left <= life
    {
      assert forall e :: e in order[..i] ==> e in Elems(order);
      if left == 0 {
        return;
      }
      left := left - 1;
      sent := sent + [order[i]];
      i := i + 1;
    }
    assert sent == order;
  }

  // reclaimPending: passes are repeated until nothing is owned by another name; only
  // then is the collection delivered. zero is the server when the count was zero. For a
  // name that owned nothing pending, everything pending then has been collected.
  method ReclaimPending(redis: Redis, me: Name, life: nat) returns (sent: seq<Id>, ghost zero: Server, left: nat)
    requires redis.Valid()
    modifies redis
    ensures redis.Valid() && left <= life
    ensures Ascending(sent) && forall e :: e in sent ==> e <= redis.sv.delivered
    ensures left > 0 && OwnedBy(old(redis.sv), me) == {} ==> zero.pel.Keys <= Elems(sent)
  {
    var claimed: set<Id> := {};
    left := life;
    zero := redis.sv;
    while left > 0
      invariant redis.Valid() && left <= life
      invariant OwnedBy(old(redis.sv), me) == {} ==> OwnedBy(redis.sv, me) <= claimed
      invariant forall e :: e in claimed ==> e <= redis.sv.delivered
      decreases left
    {
      left := left - 1;
      var ok;
      ok, claimed, left := ClaimScan(redis, me, claimed, left);
      var failed: bool := *;
      if ok && !failed {
        redis.Others(me);
        var orphaned := OrphanedPending(redis, me);
        if orphaned == 0 {
          zero := redis.sv;
          sent, left := DeliverClaimed(claimed, left);
          assert forall e :: e in sent ==> e in Elems(sent);
          return;
        }
      }
      redis.Others(me);
    }
    sent := [];
  }

  // One reader goroutine: reclaim, then the live loop. Everything it delivers, over both
  // phases and all passes, is in strictly ascending id order.
  method ReadTerm(redis: Redis, me: Name, count: nat, life: nat) returns (sent: seq<Id>)
    requires redis.Valid() && count > 0
    modifies redis
    ensures redis.Valid()
    ensures Ascending(sent)
  {
    ghost var zero;
    var left;
    sent, zero, left := ReclaimPending(redis, me, life);
    while left > 0
      invariant redis.Valid() && Ascending(sent)
      invariant forall e :: e in sent ==> e <= redis.sv.delivered
      decreases left
    {
      left := left - 1;
      redis.Others(me);
      ghost var before := redis.sv.delivered;
      var batch := redis.XReadGroup(me, count);
      assert forall e :: e in batch ==> before < e <= redis.sv.delivered;
      ghost var after := redis.sv;
      assert batch != [] ==> batch[0] in batch;
      var i := 0;
      while i < |batch|
        invariant i <= |batch| && Ascending(sent) && redis.sv == after && before <= after.delivered
        invariant forall e :: e in sent ==> e <= before || exists j :: 0 <= j < i && e == batch[j]
      {
        var cancelled: bool := *;
        if cancelled {
          return;
        }
        AppendAscends(sent, batch, i, before);
        sent := sent + [batch[i]];
        i := i + 1;
      }
    }
  }

  lemma AppendAscends(sent: seq<Id>, batch: seq<Id>, i: nat, before: Id)
    requires Ascending(sent) && Ascending(batch) && i < |batch| && (forall e :: e in batch ==> e > before)
    requires forall e :: e in sent ==> e <= before || exists j :: 0 <= j < i && e == batch[j]
    ensures Ascending(sent + [batch[i]])
  {
    forall k | 0 <= k < |sent|
      ensures sent[k] < batch[i]
    {
      assert sent[k] in sent;
      assert batch[i] in batch;
    }
  }
}
