/** The leader lease and how long a leader outlives it (mq/redismq/consumer.go). */
module LeaseTiming {
  import opened Basics

  type Name = nat

  // The lease key: its value and the time at which its PX runs out. A key is gone once
  // the server time is past expiry. The server counts whole milliseconds.
  datatype Lease = Free | Owned(holder: Name, expiry: int)

  predicate Visible(l: Lease, now: int) {
    l.Owned? && now <= l.expiry
  }

  // leaseScript: set the key with a fresh TTL iff it is unset or already ours.
  function TryLease(l: Lease, name: Name, now: int, ttl: int): (Lease, bool) {
    if !Visible(l, now) || l.holder == name then (Owned(name, now + ttl), true) else (l, false)
  }

  // releaseScript: delete the key iff it is ours.
  function Release(l: Lease, name: Name, now: int): Lease {
    if Visible(l, now) && l.holder == name then Free else l
  }

  // The scripts the server executed, in order.
  datatype Op = Try(name: Name, at: int) | Drop(name: Name, at: int)

  predicate Timeline(h: seq<Op>) {
    forall i, j :: 0 <= i < j < |h| ==> h[i].at <= h[j].at
  }

  function Replay(h: seq<Op>, ttl: int): Lease {
    if h == [] then Free
    else
      var l := Replay(h[..|h| - 1], ttl);
      match h[|h| - 1]
      case Try(n, at) => TryLease(l, n, at, ttl).0
      case Drop(n, at) => Release(l, n, at)
  }

  // Script i was an acquisition or renewal that succeeded.
  predicate Won(h: seq<Op>, i: nat, ttl: int)
    requires i < |h|
  {
    h[i].Try? && TryLease(Replay(h[..i], ttl), h[i].name, h[i].at, ttl).1
  }

  // Until somebody else wins, a's lease of script i stands; whoever wins, wins after it
  // ran out.
  lemma {:induction false} LeaseStands(h: seq<Op>, i: nat, k: nat, ttl: int)
    requires Timeline(h) && i < k <= |h| && Won(h, i, ttl)
    requires forall m :: i < m < k ==> h[m] != Drop(h[i].name, h[m].at)
    ensures (Replay(h[..k], ttl).Owned? && Replay(h[..k], ttl).holder == h[i].name && Replay(h[..k], ttl).expiry >= h[i].at + ttl)
         || h[k - 1].at > h[i].at + ttl
    decreases k
  {
    assert h[..k][..k - 1] == h[..k - 1];
    if i + 1 < k {
      LeaseStands(h, i, k - 1, ttl);
      assert h[k - 2].at <= h[k - 1].at;
      assert h[i].at <= h[k - 1].at;
    }
  }

  // Two different names win more than a TTL apart, unless the first gave the lease back.
  lemma Exclusive(h: seq<Op>, i: nat, j: nat, ttl: int)
    requires Timeline(h) && i < j < |h| && Won(h, i, ttl) && Won(h, j, ttl)
    requires h[i].name != h[j].name
    requires forall m :: i < m < j ==> h[m] != Drop(h[i].name, h[m].at)
    ensures h[j].at > h[i].at + ttl
  {
    LeaseStands(h, i, j, ttl);
    assert h[j - 1].at <= h[j].at;
  }

  // name won the lease, its TTL has not run out at now, and name has not released it since.
  predicate Holds(h: seq<Op>, name: Name, now: int, ttl: int) {
    exists i :: 0 <= i < |h| && HoldsSince(h, i, name, now, ttl)
  }

  predicate HoldsSince(h: seq<Op>, i: nat, name: Name, now: int, ttl: int)
    requires i < |h|
  {
    && Won(h, i, ttl) && h[i].name == name && now <= h[i].at + ttl
    && forall m :: i < m < |h| ==> h[m] != Drop(name, h[m].at)
  }

  // The key as the server keeps it says, at any time not before the last script, exactly who holds
  // the lease in that sense.
  lemma HeldIff(h: seq<Op>, name: Name, now: int, ttl: int)
    requires Timeline(h) && (h != [] ==> h[|h| - 1].at <= now)
    ensures Visible(Replay(h, ttl), now) && Replay(h, ttl).holder == name <==> Holds(h, name, now, ttl)
  {
    if i: nat :| i < |h| && HoldsSince(h, i, name, now, ttl) {
      assert h[..|h|] == h;
      LeaseStands(h, i, |h|, ttl);
    }
    if Visible(Replay(h, ttl), now) && Replay(h, ttl).holder == name {
      var i := LastWin(h, now, ttl);
      assert HoldsSince(h, i, name, now, ttl);
    }
  }

  // The win that the key's value and expiry come from.
  lemma {:induction false} LastWin(h: seq<Op>, now: int, ttl: int) returns (i: nat)
    requires Timeline(h) && (h != [] ==> h[|h| - 1].at <= now) && Visible(Replay(h, ttl), now)
    ensures i < |h| && HoldsSince(h, i, Replay(h, ttl).holder, now, ttl)
  {
    var k := |h| - 1;
    var front := h[..k];
    if Won(h, k, ttl) {
      i := k;
    } else {
      assert k > 0 ==> front[k - 1].at <= h[k].at <= now;
      i := LastWin(front, now, ttl);
      assert front[..i] == h[..i];
    }
  }

  // At no time do two names hold the lease.
  lemma OneHolder(h: seq<Op>, a: Name, b: Name, now: int, ttl: int)
    requires Timeline(h) && (h != [] ==> h[|h| - 1].at <= now)
    requires Holds(h, a, now, ttl) && Holds(h, b, now, ttl)
    ensures a == b
  {
    HeldIff(h, a, now, ttl);
    HeldIff(h, b, now, ttl);
  }

  // The lease key in Redis, with every script it has executed.
  class LeaseKey {
    const ttl: int
    var lease: Lease
    ghost var h: seq<Op>

    ghost predicate Valid()
      reads this
    {
      ttl > 0 && Timeline(h) && lease == Replay(h, ttl)
    }

    constructor (ttl: int)
      requires ttl > 0
      ensures Valid() && h == [] && this.ttl == ttl
    {
      this.ttl, lease, h := ttl, Free, [];
    }

    // Answers 1 exactly when no other name holds the lease; then the caller holds it for a TTL.
    method RunLeaseScript(name: Name, now: int) returns (res: int)
      requires Valid() && (h != [] ==> h[|h| - 1].at <= now)
      modifies this
      ensures Valid() && h == old(h) + [Try(name, now)]
      ensures res == 1 <==> forall other :: other != name ==> !Holds(old(h), other, now, ttl)
      ensures res == 1 ==> Won(h, |h| - 1, ttl) && forall at :: now <= at <= now + ttl ==> Holds(h, name, at, ttl)
      ensures res != 1 ==> res == 0 && lease == old(lease)
    {
      ghost var was := h;
      h := h + [Try(name, now)];
      assert h[..|was|] == was;
      if Visible(lease, now) {
        HeldIff(was, lease.holder, now, ttl);
      }
      forall other ensures Visible(lease, now) && lease.holder == other <==> Holds(was, other, now, ttl) {
        HeldIff(was, other, now, ttl);
      }
      if !Visible(lease, now) || lease.holder == name {
        lease := Owned(name, now + ttl);
        forall at | now <= at <= now + ttl ensures Holds(h, name, at, ttl) {
          assert HoldsSince(h, |was|, name, at, ttl);
        }
        return 1;
      }
      return 0;
    }

    // Answers 1 exactly when the caller held the lease; afterwards it does not, and what any other
    // name holds is untouched.
    method RunReleaseScript(name: Name, now: int) returns (res: int)
      requires Valid() && (h != [] ==> h[|h| - 1].at <= now)
      modifies this
      ensures Valid() && h == old(h) + [Drop(name, now)]
      ensures res == (if Holds(old(h), name, now, ttl) then 1 else 0)
      ensures forall at :: now <= at ==> !Holds(h, name, at, ttl)
      ensures forall other, at :: other != name && now <= at ==> (Holds(h, other, at, ttl) <==> Holds(old(h), other, at, ttl))
    {
      ghost var was := h;
      h := h + [Drop(name, now)];
      assert h[..|was|] == was;
      HeldIff(was, name, now, ttl);
      if Visible(lease, now) && lease.holder == name {
        lease := Free;
        res := 1;
      } else {
        res := 0;
      }
      forall other, at | now <= at
        ensures Holds(h, other, at, ttl) <==> other != name && Holds(was, other, at, ttl)
      {
        HeldIff(h, other, at, ttl);
        HeldIff(was, other, at, ttl);
        HeldIff(was, other, now, ttl);
      }
    }
  }

  datatype Outcome = Held | Errored | Refused

  // One tryLease call as its caller sees it; write is when the server set the key.
  datatype Call = Call(start: int, end: int, write: Option<int>, outcome: Outcome)

  // The TTL and the server's clock are in milliseconds. All other times are in ticks, u to a
  // millisecond, for any u: d bounds a call, renew the pause between two calls.
  datatype Timing = Timing(ttl: nat, renew: nat, d: nat, u: nat)

  predicate WellFormed(t: Timing) {
    t.ttl > 0 && t.u > 0
  }

  // LeaseTTL as the caller's clock measures it.
  function Life(t: Timing): int { Times(t.ttl, t.u) }

  predicate CallOk(c: Call, t: Timing) {
    && c.start <= c.end <= c.start + t.d
    && (c.outcome.Held? ==> c.write.Some? && c.start <= c.write.value <= c.end)
  }

  // The calls of one leadership: the one that won it, then the renewals.
  predicate Schedule(calls: seq<Call>, t: Timing) {
    && WellFormed(t)
    && calls != [] && calls[0].outcome.Held?
    && (forall k :: 0 <= k < |calls| ==> CallOk(calls[k], t))
    && (forall k :: 0 < k < |calls| ==> calls[k - 1].end <= calls[k].start <= calls[k - 1].end + t.renew)
  }

  function LastHeld(calls: seq<Call>, k: nat): (h: nat)
    requires k < |calls| && calls[0].outcome.Held?
    ensures h <= k && calls[h].outcome.Held?
    ensures forall m :: h < m <= k ==> !calls[m].outcome.Held?
  {
    if calls[k].outcome.Held? then k else LastHeld(calls, k - 1)
  }

  // runLeader has not returned after call k; life is LeaseTTL.
  predicate Running(calls: seq<Call>, k: nat, life: int)
    requires k < |calls| && calls[0].outcome.Held?
  {
    forall m {:trigger calls[m]} :: 0 < m <= k ==>
      calls[m].outcome.Held? || (calls[m].outcome.Errored? && calls[m].end - calls[LastHeld(calls, m - 1)].end < life)
  }

  // runLeader's loop: it returns after call number exit, or is still running after all.
  method RunLeader(calls: seq<Call>, life: int) returns (exit: nat)
    requires calls != [] && calls[0].outcome.Held?
    ensures 0 < exit <= |calls|
    ensures Running(calls, exit - 1, life)
    ensures exit < |calls| ==> !Running(calls, exit, life)
  {
    var lastRenew := calls[0].end;
    exit := 1;
    while exit < |calls|
      invariant 1 <= exit <= |calls|
      invariant Running(calls, exit - 1, life)
      invariant lastRenew == calls[LastHeld(calls, exit - 1)].end
    {
      var c := calls[exit];
      match c.outcome {
        case Held =>
          lastRenew := c.end;
        case Errored =>
          if c.end - lastRenew >= life {
            return;
          }
        case Refused =>
          return;
      }
      exit := exit + 1;
    }
  }

  // Time at is covered by the leadership: call k has ended and the next has not. It starts
  // within renew and takes at most d.
  predicate LeadsAt(calls: seq<Call>, k: nat, at: int, t: Timing)
    requires k < |calls| && calls[0].outcome.Held?
  {
    Running(calls, k, Life(t)) && calls[k].end <= at <= calls[k].end + t.renew + t.d
  }

  // A leader steps down before its last lease write is ttl + renew + 2d old.
  lemma LeaderBound(calls: seq<Call>, k: nat, at: int, t: Timing)
    requires Schedule(calls, t) && k < |calls| && LeadsAt(calls, k, at, t)
    ensures at < calls[LastHeld(calls, k)].write.value + Life(t) + t.renew + 2 * t.d
  {
    var h := LastHeld(calls, k);
    assert CallOk(calls[h], t);
    LifeIsPositive(t);
    if h < k {
      assert calls[k].outcome.Errored?;
    }
  }

  // The call after which runLeader returned ended within the same bound.
  lemma ExitBound(calls: seq<Call>, k: nat, t: Timing)
    requires Schedule(calls, t) && k + 1 < |calls| && Running(calls, k, Life(t))
    ensures calls[k + 1].end < calls[LastHeld(calls, k)].write.value + Life(t) + t.renew + 2 * t.d
  {
    assert CallOk(calls[k + 1], t);
    LeaderBound(calls, k, calls[k + 1].end, t);
  }

  // ----- ticks and milliseconds -----

  lemma LifeIsPositive(t: Timing)
    requires WellFormed(t)
    ensures Life(t) > 0
  {
    TimesGrows(1, t.ttl, t.u);
    assert Times(1, t.u) == Times(0, t.u) + t.u;
  }

  // The server's clock at a tick.
  function Ms(tick: nat, u: nat): nat
    requires u > 0
  {
    tick / u
  }

  lemma MsBounds(tick: nat, u: nat)
    requires u > 0
    ensures Times(Ms(tick, u), u) <= tick < Times(Ms(tick, u), u) + u
  {
    TimesIsProduct(Ms(tick, u), u);
  }

  lemma MsIs(tick: nat, ms: nat, u: nat)
    requires u > 0 && Times(ms, u) <= tick < Times(ms, u) + u
    ensures Ms(tick, u) == ms
  {
    var e := Ms(tick, u);
    MsBounds(tick, u);
    if e < ms { TimesGrows(e + 1, ms, u); }
    if ms < e { TimesGrows(ms + 1, e, u); }
  }

  lemma MsGrows(a: nat, b: nat, u: nat)
    requires u > 0 && a <= b
    ensures Ms(a, u) <= Ms(b, u)
  {
    MsBounds(a, u);
    MsBounds(b, u);
    if Ms(b, u) < Ms(a, u) { TimesGrows(Ms(b, u) + 1, Ms(a, u), u); }
  }

  // ticks are when the scripts of h ran; the server saw its own clock.
  predicate Stamped(h: seq<Op>, ticks: seq<nat>, u: nat)
    requires u > 0
  {
    && |ticks| == |h|
    && (forall i :: 0 <= i < |h| ==> h[i].at == Ms(ticks[i], u))
    && (forall i, j :: 0 <= i < j < |h| ==> ticks[i] <= ticks[j])
  }

  lemma StampedIsTimeline(h: seq<Op>, ticks: seq<nat>, u: nat)
    requires u > 0 && Stamped(h, ticks, u)
    ensures Timeline(h)
  {
    forall i, j | 0 <= i < j < |h| ensures h[i].at <= h[j].at {
      MsGrows(ticks[i], ticks[j], u);
    }
  }

  // The later of two wins of different names is at least ttl + 1 milliseconds after the one in
  // which the earlier fell.
  lemma WinsApart(h: seq<Op>, ticks: seq<nat>, i: nat, j: nat, t: Timing)
    requires WellFormed(t) && Stamped(h, ticks, t.u) && i < j < |h| && Won(h, i, t.ttl) && Won(h, j, t.ttl)
    requires h[i].name != h[j].name && NeverDrops(h, h[i].name)
    ensures 0 <= h[i].at && h[i].at + t.ttl + 1 <= h[j].at
    ensures ticks[j] >= Times(h[i].at, t.u) + Life(t) + t.u && ticks[j] > ticks[i] + Life(t)
  {
    StampedIsTimeline(h, ticks, t.u);
    Exclusive(h, i, j, t.ttl);
    MsBounds(ticks[i], t.u);
    MsBounds(ticks[j], t.u);
    var next: nat := h[i].at + t.ttl + 1;
    TimesGrows(next, h[j].at, t.u);
    TimesAdd(h[i].at, t.ttl, t.u);
    assert Times(next, t.u) == Times(h[i].at + t.ttl, t.u) + t.u;
  }

  // The successful calls of leader a are wins in the server's history, in order.
  predicate Recorded(h: seq<Op>, ticks: seq<nat>, a: Name, calls: seq<Call>, ops: seq<nat>, t: Timing) {
    && |ops| == |calls| && |ticks| == |h|
    && (forall m :: 0 <= m < |calls| && calls[m].outcome.Held? ==>
          ops[m] < |h| && Won(h, ops[m], t.ttl) && h[ops[m]].name == a && calls[m].write == Some(ticks[ops[m]]))
    && (forall m, n :: 0 <= m < n < |calls| && calls[m].outcome.Held? && calls[n].outcome.Held? ==> ops[m] < ops[n])
  }

  predicate NeverDrops(h: seq<Op>, name: Name) {
    forall m :: 0 <= m < |h| ==> h[m] != Drop(name, h[m].at)
  }

  // A leadership of a with its calls in the server's history, leading at time at after its call k,
  // and a win of another name in script j.
  predicate Rivals(h: seq<Op>, ticks: seq<nat>, a: Name, calls: seq<Call>, ops: seq<nat>, k: nat, at: int, j: nat, t: Timing) {
    && WellFormed(t) && Stamped(h, ticks, t.u) && Schedule(calls, t) && Recorded(h, ticks, a, calls, ops, t)
    && k < |calls| && LeadsAt(calls, k, at, t)
    && j < |h| && Won(h, j, t.ttl) && h[j].name != a
    && NeverDrops(h, a) && NeverDrops(h, h[j].name)
  }

  // Split-brain window: once b has won, a still leads only for less than renew + 2d,
  // or by a lease it wrote itself more than a TTL after b's win.
  lemma Overlap(h: seq<Op>, ticks: seq<nat>, a: Name, calls: seq<Call>, ops: seq<nat>, k: nat, at: int, j: nat, t: Timing)
    requires Rivals(h, ticks, a, calls, ops, k, at, j, t)
    ensures at < ticks[j] + t.renew + 2 * t.d || calls[LastHeld(calls, k)].write.value > ticks[j] + Life(t)
  {
    var last := LastHeld(calls, k);
    LeaderBound(calls, k, at, t);
    if ops[last] < j {
      WinsApart(h, ticks, ops[last], j, t);
    } else {
      WinsApart(h, ticks, j, ops[last], t);
    }
  }

  // The same with the win of b later than the one that began the leadership.
  predicate Scenario(h: seq<Op>, ticks: seq<nat>, a: Name, calls: seq<Call>, ops: seq<nat>, k: nat, at: int, j: nat, t: Timing) {
    Rivals(h, ticks, a, calls, ops, k, at, j, t) && ops[0] < j
  }

  // When renew + 2d is at most a millisecond and a tick over the TTL there is no comeback, and the
  // window is the whole overlap: from b's win on, a leads for less than renew + 2d.
  lemma {:induction false} OverlapIsShort(h: seq<Op>, ticks: seq<nat>, a: Name, calls: seq<Call>, ops: seq<nat>, k: nat, at: int, j: nat, t: Timing)
    requires Scenario(h, ticks, a, calls, ops, k, at, j, t)
    requires t.renew + 2 * t.d <= Life(t) + t.u + 1
    ensures at < ticks[j] + t.renew + 2 * t.d && ops[LastHeld(calls, k)] < j
    decreases k
  {
    if k > 0 {
      assert calls[k - 1].end <= calls[k].start;
      assert CallOk(calls[k], t);
      OverlapIsShort(h, ticks, a, calls, ops, k - 1, calls[k].end, j, t);
      if calls[k].outcome.Held? {
        NoComeback(h, ticks, a, calls, ops, k, j, t);
      }
    }
    LeaderBound(calls, k, at, t);
    WinsApart(h, ticks, ops[LastHeld(calls, k)], j, t);
  }

  // A renewal that follows in time cannot find b's lease run out, so it came before b's win.
  lemma NoComeback(h: seq<Op>, ticks: seq<nat>, a: Name, calls: seq<Call>, ops: seq<nat>, k: nat, j: nat, t: Timing)
    requires 0 < k < |calls| && Rivals(h, ticks, a, calls, ops, k - 1, calls[k].end, j, t) && calls[k].outcome.Held?
    requires ops[LastHeld(calls, k - 1)] < j && t.renew + 2 * t.d <= Life(t) + t.u + 1
    ensures ops[k] < j
  {
    LeaderBound(calls, k - 1, calls[k].end, t);
    assert CallOk(calls[k], t);
    TooSoon(h, ticks, ops[LastHeld(calls, k - 1)], j, ops[k], t);
  }

  // Of three wins of two names in turn, the third is at least 2(ttl + 1) milliseconds after the one
  // in which the first fell.
  lemma TooSoon(h: seq<Op>, ticks: seq<nat>, i: nat, j: nat, k: nat, t: Timing)
    requires WellFormed(t) && Stamped(h, ticks, t.u) && i < j < |h| && k < |h|
    requires Won(h, i, t.ttl) && Won(h, j, t.ttl) && Won(h, k, t.ttl)
    requires h[k].name == h[i].name != h[j].name && NeverDrops(h, h[i].name) && NeverDrops(h, h[j].name)
    requires ticks[k] <= ticks[i] + Life(t) + Life(t) + t.u
    ensures k < j
  {
    WinsApart(h, ticks, i, j, t);
    MsBounds(ticks[i], t.u);
    var next: nat := h[i].at + t.ttl + 1;
    TimesGrows(next, h[j].at, t.u);
    TimesAdd(h[i].at, t.ttl, t.u);
    assert Times(next, t.u) == Times(h[i].at + t.ttl, t.u) + t.u;
    if j < k {
      WinsApart(h, ticks, j, k, t);
    }
  }

  lemma ReplayNext(h: seq<Op>, k: nat, ttl: int)
    requires k < |h| && h[k].Try?
    ensures Replay(h[..k + 1], ttl) == TryLease(Replay(h[..k], ttl), h[k].name, h[k].at, ttl).0
  {
    assert h[..k + 1][..k] == h[..k];
  }

  // The other half, for every timing beyond that: leader 0 wins in the last tick of millisecond 0;
  // two of its calls fail, the second as late as it may; meanwhile its lease runs out, leader 1 wins,
  // that lease runs out too, and leader 0 renews and leads on.
  function Scripts(t: Timing): seq<Op> {
    [Try(0, 0), Try(1, t.ttl + 1), Try(0, 2 * t.ttl + 2)]
  }

  function Ticks(t: Timing): seq<nat>
    requires WellFormed(t)
  {
    [t.u - 1, Life(t) + t.u, 2 * (Life(t) + t.u)]
  }

  function Min(a: int, b: int): int { if a <= b then a else b }

  function Max(a: int, b: int): int { if a >= b then a else b }

  // life is the TTL in ticks.
  function Comeback(life: int, renew: int, d: int, u: int): seq<Call> {
    var e0 := u - 1 + Min(d, life + u + 2);
    var e2 := e0 + life - 1;
    var e1 := Min(e2, e0 + renew + d);
    var last := 2 * (life + u);
    var s3 := Min(last, e2 + renew);
    [Call(u - 1, e0, Some(u - 1), Held),
     Call(Max(e0, e1 - d), e1, None, Errored),
     Call(Max(e1, e2 - d), e2, None, Errored),
     Call(s3, s3 + d, Some(last), Held)]
  }

  function ComebackOf(t: Timing): seq<Call> { Comeback(Life(t), t.renew, t.d, t.u) }

  lemma ScriptsWin(t: Timing)
    requires t.ttl > 0
    ensures Won(Scripts(t), 0, t.ttl) && Won(Scripts(t), 1, t.ttl) && Won(Scripts(t), 2, t.ttl)
  {
    var h := Scripts(t);
    assert h[..0] == [];
    ReplayNext(h, 0, t.ttl);
    ReplayNext(h, 1, t.ttl);
  }

  lemma ScriptsAreStamped(t: Timing)
    requires WellFormed(t)
    ensures Stamped(Scripts(t), Ticks(t), t.u)
  {
    var once, twice := t.ttl + 1, (t.ttl + 1) + (t.ttl + 1);
    LifeIsPositive(t);
    MsIs(t.u - 1, 0, t.u);
    assert Times(once, t.u) == Life(t) + t.u;
    MsIs(Life(t) + t.u, once, t.u);
    TimesAdd(once, once, t.u);
    MsIs(2 * (Life(t) + t.u), twice, t.u);
  }

  lemma ComebackCalls(life: int, t: Timing)
    requires WellFormed(t) && life > 0 && t.renew + 2 * t.d >= life + t.u + 2
    ensures Schedule(Comeback(life, t.renew, t.d, t.u), t)
  {
  }

  lemma ComebackRuns(life: int, renew: int, d: int, u: int)
    requires life > 0 && u > 0 && d >= 0 && renew >= 0 && renew + 2 * d >= life + u + 2
    ensures var calls := Comeback(life, renew, d, u);
            Running(calls, 3, life) && calls[3].end + renew + d >= life + u + renew + 2 * d
  {
    var calls := Comeback(life, renew, d, u);
    assert LastHeld(calls, 0) == 0;
    assert LastHeld(calls, 1) == 0;
    assert LastHeld(calls, 2) == 0;
  }

  lemma ComebackIsRecorded(life: nat, t: Timing)
    requires WellFormed(t) && life == Life(t)
    ensures Recorded(Scripts(t), Ticks(t), 0, Comeback(life, t.renew, t.d, t.u), [0, 0, 0, 2], t)
  {
    ScriptsWin(t);
  }

  lemma ComebackIsPossible(t: Timing)
    requires WellFormed(t) && t.renew + 2 * t.d > Life(t) + t.u + 1
    ensures var at := ComebackOf(t)[3].end + t.renew + t.d;
            Scenario(Scripts(t), Ticks(t), 0, ComebackOf(t), [0, 0, 0, 2], 3, at, 1, t) && at >= Ticks(t)[1] + t.renew + 2 * t.d
  {
    LifeIsPositive(t);
    ScriptsAreStamped(t);
    ComebackCalls(Life(t), t);
    ComebackRuns(Life(t), t.renew, t.d, t.u);
    ComebackIsRecorded(Life(t), t);
    ScriptsWin(t);
  }

  ghost predicate AlwaysShort(t: Timing) {
    forall h: seq<Op>, ticks: seq<nat>, a: Name, calls: seq<Call>, ops: seq<nat>, k: nat, at: int, j: nat ::
      Scenario(h, ticks, a, calls, ops, k, at, j, t) ==> at < ticks[j] + t.renew + 2 * t.d
  }

  // Two leaders never overlap for renew + 2d or longer if and only if renew + 2d is at most a
  // millisecond and a tick over the TTL, however fine the ticks.
  lemma OverlapIsShortIff(t: Timing)
    requires WellFormed(t)
    ensures AlwaysShort(t) <==> t.renew + 2 * t.d <= (t.ttl + 1) * t.u + 1
  {
    assert Times(t.ttl + 1, t.u) == Life(t) + t.u;
    TimesIsProduct(t.ttl + 1, t.u);
    if t.renew + 2 * t.d <= Life(t) + t.u + 1 {
      forall h: seq<Op>, ticks: seq<nat>, a: Name, calls: seq<Call>, ops: seq<nat>, k: nat, at: int, j: nat |
          Scenario(h, ticks, a, calls, ops, k, at, j, t)
        ensures at < ticks[j] + t.renew + 2 * t.d
      {
        OverlapIsShort(h, ticks, a, calls, ops, k, at, j, t);
      }
    } else {
      ComebackIsPossible(t);
    }
  }
}
