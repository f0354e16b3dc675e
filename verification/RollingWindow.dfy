/** The ring of buckets as a value, and the log of points it stands for (stability/internal/window). */
module RingSpec {
  import opened Basics

  // offset is the slot of the active bucket; slots behind it, cyclically, are older.
  datatype Ring = Ring(slots: seq<seq<real>>, offset: nat)

  predicate RingOk(r: Ring) {
    r.offset < |r.slots|
  }

  function ClearSlots(slots: seq<seq<real>>, from: nat, count: nat): (c: seq<seq<real>>)
    requires slots != []
    ensures |c| == |slots|
  {
    if count == 0 then slots
    else ClearSlots(slots, from, count - 1)[Wrap(from + count - 1, |slots|) := []]
  }

  function ClearAll(n: nat): seq<seq<real>> {
    seq(n, _ => [])
  }

  // Add when span bucket durations have passed.
  function Rotate(r: Ring, span: nat): (r': Ring)
    requires RingOk(r)
    ensures RingOk(r') && |r'.slots| == |r.slots|
  {
    if span == 0 then r
    else if span >= |r.slots| then Ring(ClearAll(|r.slots|), 0)
    else Ring(ClearSlots(r.slots, r.offset + 1, span), Wrap(r.offset + span, |r.slots|))
  }

  function Put(r: Ring, v: real): (r': Ring)
    requires RingOk(r)
    ensures RingOk(r') && |r'.slots| == |r.slots|
  {
    r.(slots := r.slots[r.offset := r.slots[r.offset] + [v]])
  }

  // The buckets an iterator visits: count of them from slot from on, cyclically.
  function Visit(slots: seq<seq<real>>, from: nat, count: nat): seq<seq<real>>
    requires slots != []
  {
    seq(count, i requires 0 <= i => slots[Wrap(from + i, |slots|)])
  }

  function Visited(r: Ring, span: nat): seq<seq<real>>
    requires RingOk(r)
  {
    if span >= |r.slots| then [] else Visit(r.slots, Wrap(r.offset + span + 1, |r.slots|), |r.slots| - span)
  }

  function Flatten(groups: seq<seq<real>>): seq<real> {
    FlattenFirst(groups, |groups|)
  }

  function FlattenFirst(groups: seq<seq<real>>, n: nat): seq<real>
    requires n <= |groups|
  {
    if n == 0 then [] else FlattenFirst(groups, n - 1) + groups[n - 1]
  }

  lemma {:induction false} FlattenPrefix(a: seq<seq<real>>, b: seq<seq<real>>, n: nat)
    requires n <= |a| && n <= |b| && forall i :: 0 <= i < n ==> a[i] == b[i]
    ensures FlattenFirst(a, n) == FlattenFirst(b, n)
  {
    if n > 0 {
      FlattenPrefix(a, b, n - 1);
    }
  }

  function SumOf(points: seq<real>): real {
    SumFirst(points, |points|)
  }

  function SumFirst(points: seq<real>, n: nat): real
    requires n <= |points|
  {
    if n == 0 then 0.0 else SumFirst(points, n - 1) + points[n - 1]
  }

  lemma {:induction false} SumPrefix(a: seq<real>, b: seq<real>, n: nat)
    requires n <= |a| && n <= |b| && forall i :: 0 <= i < n ==> a[i] == b[i]
    ensures SumFirst(a, n) == SumFirst(b, n)
  {
    if n > 0 {
      SumPrefix(a, b, n - 1);
    }
  }

  lemma {:induction false} SumAfter(a: seq<real>, b: seq<real>, n: nat)
    requires n <= |b|
    ensures SumFirst(a + b, |a| + n) == SumOf(a) + SumFirst(b, n)
  {
    if n == 0 {
      SumPrefix(a + b, a, |a|);
    } else {
      SumAfter(a, b, n - 1);
      assert (a + b)[|a| + n - 1] == b[n - 1];
    }
  }

  lemma SumAppend(a: seq<real>, b: seq<real>)
    ensures SumOf(a + b) == SumOf(a) + SumOf(b)
  {
    SumAfter(a, b, |b|);
  }

  // A point as logged: time is the bucket period in which it was added; turn counts how
  // far the ring itself had been rotated then.
  datatype Point = Point(value: real, time: nat, turn: int)

  // now: the period of lastUpdateTime; lag: periods that Reduce or Timespan consumed
  // without rotating the ring.
  datatype Log = Log(points: seq<Point>, now: nat, lag: nat)

  function Turn(l: Log): int {
    l.now - l.lag
  }

  ghost predicate LogOk(l: Log) {
    && l.lag <= l.now
    && (forall i :: 0 <= i < |l.points| ==>
          && 0 <= l.points[i].turn <= Turn(l) && l.points[i].time <= l.now
          && l.points[i].turn <= l.points[i].time <= l.points[i].turn + l.lag)
    && (forall i, j :: 0 <= i < j < |l.points| ==>
          l.points[i].turn <= l.points[j].turn && l.points[i].time <= l.points[j].time)
  }

  function LogAdd(l: Log, now: nat, v: real): Log
    requires now >= l.now
  {
    Log(l.points + [Point(v, now, now - l.lag)], now, l.lag)
  }

  // Reduce and Timespan move the clock only.
  function LogRead(l: Log, now: nat): Log
    requires now >= l.now
  {
    l.(now := now, lag := l.lag + (now - l.now))
  }

  function InTurn(points: seq<Point>, turn: int): seq<real> {
    if points == [] then []
    else
      var p := points[|points| - 1];
      InTurn(points[..|points| - 1], turn) + if p.turn == turn then [p.value] else []
  }

  function SinceTurn(points: seq<Point>, turn: int): seq<real> {
    if points == [] then []
    else
      var p := points[|points| - 1];
      SinceTurn(points[..|points| - 1], turn) + if p.turn >= turn then [p.value] else []
  }

  // The points of the last size periods up to now: what the window is meant to hold.
  function Recent(points: seq<Point>, now: nat, size: nat): seq<real> {
    if points == [] then []
    else
      var p := points[|points| - 1];
      Recent(points[..|points| - 1], now, size) + if p.time > now - size then [p.value] else []
  }

  function Slot(offset: nat, age: nat, size: nat): nat
    requires offset < size && age < size
  {
    if age <= offset then offset - age else offset + size - age
  }

  // The bucket of age a holds exactly the points added a rotations ago, in order.
  ghost predicate Represents(r: Ring, l: Log) {
    && RingOk(r)
    && LogOk(l)
    && forall a :: 0 <= a < |r.slots| ==> r.slots[Slot(r.offset, a, |r.slots|)] == InTurn(l.points, Turn(l) - a)
  }

  lemma {:induction false} EmptyTurn(points: seq<Point>, turn: int)
    requires forall i :: 0 <= i < |points| ==> points[i].turn != turn
    ensures InTurn(points, turn) == []
  {
    if points != [] {
      EmptyTurn(points[..|points| - 1], turn);
    }
  }

  lemma {:induction false} ClearedSlots(slots: seq<seq<real>>, from: nat, count: nat, s: nat)
    requires from <= |slots| && 0 < count < |slots| && s < |slots|
    ensures var c := ClearSlots(slots, from, count);
            c[s] == if from <= s < from + count || from <= s + |slots| < from + count then [] else slots[s]
  {
    if count > 1 {
      ClearedSlots(slots, from, count - 1, s);
    }
    var last := from + count - 1;
    assert Wrap(last, |slots|) == if last < |slots| then last else last - |slots|;
  }

  lemma RotatedSlot(r: Ring, span: nat, a: nat)
    requires RingOk(r) && 0 < span < |r.slots| && a < |r.slots|
    ensures var r' := Rotate(r, span); var n := |r.slots|;
            r'.slots[Slot(r'.offset, a, n)] == if a < span then [] else r.slots[Slot(r.offset, a - span, n)]
  {
    var r', n := Rotate(r, span), |r.slots|;
    var s := Slot(r'.offset, a, n);
    ClearedSlots(r.slots, r.offset + 1, span, s);
    if a >= span {
      assert s == Slot(r.offset, a - span, n);
    }
  }

  lemma RotateKeeps(r: Ring, l: Log, now: nat)
    requires Represents(r, l) && now >= l.now
    ensures Represents(Rotate(r, now - l.now), l.(now := now))
  {
    var span, n := now - l.now, |r.slots|;
    var r', l' := Rotate(r, span), l.(now := now);
    if span > 0 {
      forall a | 0 <= a < n
        ensures r'.slots[Slot(r'.offset, a, n)] == InTurn(l.points, Turn(l') - a)
      {
        if a < span {
          EmptyTurn(l.points, Turn(l') - a);
        }
        if span < n {
          RotatedSlot(r, span, a);
        }
      }
    }
  }

  lemma PutKeeps(r: Ring, l: Log, v: real)
    requires Represents(r, l)
    ensures Represents(Put(r, v), LogAdd(l, l.now, v))
  {
    var l' := LogAdd(l, l.now, v);
    var n := |r.slots|;
    forall a | 0 <= a < n
      ensures Put(r, v).slots[Slot(r.offset, a, n)] == InTurn(l'.points, Turn(l') - a)
    {
      OneMoreInTurn(l.points, Point(v, l.now, Turn(l)), Turn(l') - a);
    }
    OneMoreInOrder(l, v);
  }

  lemma OneMoreInTurn(points: seq<Point>, p: Point, turn: int)
    ensures InTurn(points + [p], turn) == InTurn(points, turn) + if p.turn == turn then [p.value] else []
  {
    assert (points + [p])[..|points|] == points;
  }

  lemma OneMoreInOrder(l: Log, v: real)
    requires LogOk(l)
    ensures LogOk(LogAdd(l, l.now, v))
  {
  }

  lemma AddKeeps(r: Ring, l: Log, now: nat, v: real)
    requires Represents(r, l) && now >= l.now
    ensures Represents(Put(Rotate(r, now - l.now), v), LogAdd(l, now, v))
  {
    RotateKeeps(r, l, now);
    PutKeeps(Rotate(r, now - l.now), l.(now := now), v);
    assert LogAdd(l.(now := now), now, v) == LogAdd(l, now, v);
  }

  // Reading keeps the ring as it is; only the log's clock and lag move.
  lemma ReadKeeps(r: Ring, l: Log, now: nat)
    requires Represents(r, l) && now >= l.now
    ensures Represents(r, LogRead(l, now))
  {
  }

  // On a log in order, the points since a turn are those of that turn, then the later ones.
  lemma {:induction false} SinceSplits(points: seq<Point>, turn: int)
    requires forall i, j :: 0 <= i < j < |points| ==> points[i].turn <= points[j].turn
    ensures SinceTurn(points, turn) == InTurn(points, turn) + SinceTurn(points, turn + 1)
  {
    if points != [] {
      var front, p := points[..|points| - 1], points[|points| - 1];
      SinceSplits(front, turn);
      if p.turn <= turn {
        NothingSince(front, turn + 1);
      }
    }
  }

  lemma {:induction false} NothingSince(points: seq<Point>, turn: int)
    requires forall i :: 0 <= i < |points| ==> points[i].turn < turn
    ensures SinceTurn(points, turn) == []
  {
    if points != [] {
      NothingSince(points[..|points| - 1], turn);
    }
  }

  lemma {:induction false} FlattenTurns(points: seq<Point>, groups: seq<seq<real>>, n: nat, first: int)
    requires forall i, j :: 0 <= i < j < |points| ==> points[i].turn <= points[j].turn
    requires forall i :: 0 <= i < |groups| ==> groups[i] == InTurn(points, first + i)
    requires n <= |groups|
    ensures FlattenFirst(groups, n) + SinceTurn(points, first + n) == SinceTurn(points, first)
  {
    if n > 0 {
      FlattenTurns(points, groups, n - 1, first);
      SinceSplits(points, first + n - 1);
    }
  }

  lemma VisitedSlot(r: Ring, span: nat, i: nat)
    requires RingOk(r) && span < |r.slots| && i < |r.slots| - span
    ensures Visited(r, span)[i] == r.slots[Slot(r.offset, |r.slots| - 1 - span - i, |r.slots|)]
  {
    var n := |r.slots|;
    assert Wrap(Wrap(r.offset + span + 1, n) + i, n) == Slot(r.offset, n - 1 - span - i, n);
  }

  // The buckets a read visits hold, in the order they were added, exactly the points of
  // the last size - span turns.
  lemma VisitedIsSince(r: Ring, l: Log, now: nat)
    requires Represents(r, l) && now >= l.now
    ensures Flatten(Visited(r, now - l.now)) == SinceTurn(l.points, now - l.lag - |r.slots| + 1)
  {
    var span, n := now - l.now, |r.slots|;
    var first := now - l.lag - n + 1;
    if span < n {
      var groups := Visited(r, span);
      forall i | 0 <= i < |groups|
        ensures groups[i] == InTurn(l.points, first + i)
      {
        VisitedSlot(r, span, i);
      }
      FlattenTurns(l.points, groups, |groups|, first);
      NothingSince(l.points, Turn(l) + 1);
    } else {
      NothingSince(l.points, first);
    }
  }

  lemma {:induction false} RecentIsSince(points: seq<Point>, now: nat, size: nat, lag: nat)
    requires forall i :: 0 <= i < |points| ==> (points[i].time > now - size <==> points[i].turn > now - lag - size)
    ensures Recent(points, now, size) == SinceTurn(points, now - lag - size + 1)
  {
    if points != [] {
      RecentIsSince(points[..|points| - 1], now, size, lag);
    }
  }

  // As long as no read has consumed a period, a read sees exactly the points of the last
  // size periods.
  lemma ReadIsExact(r: Ring, l: Log, now: nat)
    requires Represents(r, l) && now >= l.now && l.lag == 0
    ensures Flatten(Visited(r, now - l.now)) == Recent(l.points, now, |r.slots|)
  {
    VisitedIsSince(r, l, now);
    RecentIsSince(l.points, now, |r.slots|, 0);
  }

  // Periods that reads consumed between the adding of p and now.
  function Missed(l: Log, p: Point): int {
    l.lag - (p.time - p.turn)
  }

  // Whatever reads came before, none of the points of the last size periods is left out;
  // an older one is seen again exactly when its age exceeds the window by less than the
  // periods that reads consumed since it was added.
  lemma ReadIsOneSided(r: Ring, l: Log, now: nat, i: nat)
    requires Represents(r, l) && now >= l.now && i < |l.points|
    ensures var p := l.points[i]; var size := |r.slots|;
            && (p.time > now - size ==> p.turn >= now - l.lag - size + 1)
            && (p.turn >= now - l.lag - size + 1 <==> now - p.time < size + Missed(l, p))
            && Missed(l, p) >= 0
  {
  }

  // Point p is past the window but not past what a read at now sees.
  predicate Overstays(l: Log, p: Point, now: nat, size: nat) {
    size <= now - p.time < size + Missed(l, p)
  }

  // So a read is exact if and only if no point has an age in that gap.
  lemma ReadIsExactIff(r: Ring, l: Log, now: nat)
    requires Represents(r, l) && now >= l.now
    ensures Flatten(Visited(r, now - l.now)) == Recent(l.points, now, |r.slots|)
       <==> forall i :: 0 <= i < |l.points| ==> !Overstays(l, l.points[i], now, |r.slots|)
  {
    VisitedIsSince(r, l, now);
    SinceIsExactIff(l, now, |r.slots|);
  }

  lemma SinceIsExactIff(l: Log, now: nat, size: nat)
    requires forall i :: 0 <= i < |l.points| ==> Missed(l, l.points[i]) >= 0
    ensures SinceTurn(l.points, now - l.lag - size + 1) == Recent(l.points, now, size)
       <==> forall i :: 0 <= i < |l.points| ==> !Overstays(l, l.points[i], now, size)
  {
    if i :| 0 <= i < |l.points| && Overstays(l, l.points[i], now, size) {
      SinceIsLonger(l.points, now, size, l.lag, i);
    } else {
      RecentIsSince(l.points, now, size, l.lag);
    }
  }

  lemma {:induction false} SinceIsLonger(points: seq<Point>, now: nat, size: nat, lag: nat, i: nat)
    requires i < |points| && points[i].time <= now - size && points[i].turn >= now - lag - size + 1
    requires forall j :: 0 <= j < |points| && points[j].time > now - size ==> points[j].turn >= now - lag - size + 1
    ensures |SinceTurn(points, now - lag - size + 1)| > |Recent(points, now, size)|
  {
    var k := |points| - 1;
    if i < k {
      SinceIsLonger(points[..k], now, size, lag, i);
    } else {
      SinceIsAtLeast(points[..k], now, size, lag);
    }
  }

  lemma {:induction false} SinceIsAtLeast(points: seq<Point>, now: nat, size: nat, lag: nat)
    requires forall j :: 0 <= j < |points| && points[j].time > now - size ==> points[j].turn >= now - lag - size + 1
    ensures |SinceTurn(points, now - lag - size + 1)| >= |Recent(points, now, size)|
  {
    if points != [] {
      SinceIsAtLeast(points[..|points| - 1], now, size, lag);
    }
  }

  lemma {:induction false} NoneRecent(points: seq<Point>, now: nat, size: nat)
    requires forall i :: 0 <= i < |points| ==> points[i].time <= now - size
    ensures Recent(points, now, size) == []
  {
    if points != [] {
      NoneRecent(points[..|points| - 1], now, size);
    }
  }

  lemma {:induction false} RecentSuffix(points: seq<Point>, now: nat, size: nat, turn: int) returns (k: nat)
    requires forall i, j :: 0 <= i < j < |points| ==> points[i].time <= points[j].time
    requires forall i :: 0 <= i < |points| && points[i].time > now - size ==> points[i].turn >= turn
    ensures k <= |SinceTurn(points, turn)|
    ensures SinceTurn(points, turn)[k..] == Recent(points, now, size)
  {
    k := 0;
    if points != [] {
      var front, p := points[..|points| - 1], points[|points| - 1];
      if p.time > now - size {
        k := RecentSuffix(front, now, size, turn);
        assert (SinceTurn(front, turn) + [p.value])[k..] == SinceTurn(front, turn)[k..] + [p.value];
      } else {
        NoneRecent(points, now, size);
        k := |SinceTurn(points, turn)|;
      }
    }
  }

  // The points of the last size periods are always the tail of what a read sees: older
  // points may come before them, but none of them is missing or out of order.
  lemma ReadEndsWithRecent(r: Ring, l: Log, now: nat) returns (k: nat)
    requires Represents(r, l) && now >= l.now
    ensures k <= |Flatten(Visited(r, now - l.now))|
    ensures Flatten(Visited(r, now - l.now))[k..] == Recent(l.points, now, |r.slots|)
    ensures SumOf(Flatten(Visited(r, now - l.now))) == SumOf(Flatten(Visited(r, now - l.now))[..k]) + SumOf(Recent(l.points, now, |r.slots|))
  {
    VisitedIsSince(r, l, now);
    k := RecentSuffix(l.points, now, |r.slots|, now - l.lag - |r.slots| + 1);
    var seen := Flatten(Visited(r, now - l.now));
    SumAppend(seen[..k], seen[k..]);
    assert seen[..k] + seen[k..] == seen;
  }

  // A stale read: with two buckets, the only point, of period 0, is still seen in period 2
  // when a read in period 1 has moved the clock.
  lemma StaleRead(r: Ring, l: Log)
    requires Represents(r, l) && |r.slots| == 2 && l == Log([Point(1.0, 0, 0)], 0, 0)
    ensures var l' := LogRead(l, 1);
            Represents(r, l') && Flatten(Visited(r, 2 - l'.now)) == [1.0] && Recent(l'.points, 2, 2) == []
  {
    var l' := LogRead(l, 1);
    ReadKeeps(r, l, 1);
    VisitedIsSince(r, l', 2);
    OnePoint(Point(1.0, 0, 0), 0, 2, 2);
  }

  lemma OnePoint(p: Point, turn: int, now: nat, size: nat)
    ensures SinceTurn([p], turn) == if p.turn >= turn then [p.value] else []
    ensures Recent([p], now, size) == if p.time > now - size then [p.value] else []
  {
    assert [p][..0] == [];
  }
}

/** The rolling window itself: buckets linked in a ring, an iterator, and the policy. */
module RollingWindow {
  import opened Basics
  import opened RingSpec

  class Bucket {
    var points: seq<real>
    var count: int
    var next: Bucket?

    constructor ()
      ensures points == [] && count == 0 && next == null
    {
      points, count, next := [], 0, null;
    }

    method Append(val: real)
      modifies this
      ensures points == old(points) + [val] && count == old(count) + 1 && next == old(next)
    {
      points := points + [val];
      count := count + 1;
    }

    method Reset()
      modifies this
      ensures points == [] && count == 0 && next == old(next)
    {
      points := [];
      count := 0;
    }
  }

  method NewBuckets(n: nat) returns (bs: seq<Bucket>)
    ensures |bs| == n && fresh(set b | b in bs)
    ensures forall i, j :: 0 <= i < j < n ==> bs[i] != bs[j]
    ensures forall i :: 0 <= i < n ==> bs[i].points == [] && bs[i].count == 0
  {
    bs := [];
    while |bs| < n
      invariant |bs| <= n && fresh(set b | b in bs)
      invariant forall i, j :: 0 <= i < j < |bs| ==> bs[i] != bs[j]
      invariant forall i :: 0 <= i < |bs| ==> bs[i].points == [] && bs[i].count == 0
    {
      var b := new Bucket();
      bs := bs + [b];
    }
  }

  // NewWindow's loop: every bucket points to the next one, the last to the first.
  method Link(bs: seq<Bucket>, ghost cells: set<Bucket>)
    requires bs != [] && cells == set b | b in bs
    requires forall i, j :: 0 <= i < j < |bs| ==> bs[i] != bs[j]
    modifies cells
    ensures forall i {:trigger bs[i].next} :: 0 <= i < |bs| ==> bs[i].next == bs[if i + 1 == |bs| then 0 else i + 1]
    ensures forall i :: 0 <= i < |bs| ==> bs[i].points == old(bs[i].points) && bs[i].count == old(bs[i].count)
  {
    var offset := 0;
    while offset < |bs|
      invariant 0 <= offset <= |bs|
      invariant forall i :: 0 <= i < |bs| ==> bs[i].points == old(bs[i].points) && bs[i].count == old(bs[i].count)
      invariant forall i {:trigger bs[i].next} :: 0 <= i < offset ==> bs[i].next == bs[if i + 1 == |bs| then 0 else i + 1]
    {
      var nextOffset := offset + 1;
      if nextOffset == |bs| {
        nextOffset := 0;
      }
      assert bs[offset] in cells;
      bs[offset].next := bs[nextOffset];
      offset := offset + 1;
    }
  }

  class Window {
    const buckets: seq<Bucket>
    const size: nat
    ghost const cells: set<Bucket>
    ghost var slots: seq<seq<real>>

    ghost predicate Valid()
      reads this, cells
    {
      && size == |buckets| == |slots| > 0
      && (forall i :: 0 <= i < size ==> buckets[i] in cells)
      && (forall i :: 0 <= i < size ==> slots[i] == buckets[i].points)
      && (forall i, j :: 0 <= i < j < size ==> buckets[i] != buckets[j])
      && (forall i {:trigger buckets[i].next} :: 0 <= i < size ==> buckets[i].next == buckets[if i + 1 == size then 0 else i + 1])
      && (forall i :: 0 <= i < size ==> buckets[i].count == |buckets[i].points|)
    }

    constructor (n: nat)
      requires n > 0
      ensures Valid() && size == n && fresh(cells)
      ensures slots == ClearAll(n)
    {
      var bs := NewBuckets(n);
      buckets := bs;
      cells := set b | b in bs;
      size := n;
      slots := ClearAll(n);
      new;
      Link(bs, cells);
    }

    method ResetBucket(offset: nat)
      requires Valid()
      modifies this, cells
      ensures Valid() && slots == old(slots)[Wrap(offset, size) := []]
    {
      WrapIsMod(offset, size);
      buckets[offset % size].Reset();
      slots := slots[offset % size := []];
    }

    method ResetWindow()
      requires Valid()
      modifies this, cells
      ensures Valid() && slots == ClearAll(size)
    {
      var offset := 0;
      while offset < size
        invariant 0 <= offset <= size && Valid()
        invariant forall i :: 0 <= i < offset ==> slots[i] == []
      {
        ResetBucket(offset);
        offset := offset + 1;
      }
    }

    method ResetBuckets(offset: nat, count: nat)
      requires Valid()
      modifies this, cells
      ensures Valid() && slots == ClearSlots(old(slots), offset, count)
    {
      var i := 0;
      while i < count
        invariant 0 <= i <= count && Valid()
        invariant slots == ClearSlots(old(slots), offset, i)
      {
        ResetBucket(offset + i);
        i := i + 1;
      }
    }

    method Append(offset: nat, val: real)
      requires Valid()
      modifies this, cells
      ensures Valid() && slots == var i := Wrap(offset, size); old(slots)[i := old(slots)[i] + [val]]
    {
      WrapIsMod(offset, size);
      buckets[offset % size].Append(val);
      slots := slots[offset % size := slots[offset % size] + [val]];
    }

    method Iterate(offset: nat, count: nat) returns (it: Iterator)
      requires Valid()
      ensures fresh(it) && it.Valid() && it.w == this && it.from == Wrap(offset, size)
      ensures it.count == count && it.iteratedCount == 0
    {
      WrapIsMod(offset, size);
      it := new Iterator(this, offset % size, count);
    }
  }

  datatype View = View(points: seq<real>, count: int)

  class Iterator {
    ghost const w: Window
    ghost const from: nat
    const count: nat
    var iteratedCount: nat
    var cur: Bucket?

    ghost predicate Valid()
      reads this, w, w.cells
    {
      && w.Valid() && from < w.size && iteratedCount <= count
      && cur == w.buckets[Wrap(from + iteratedCount, w.size)]
    }

    constructor (w: Window, from: nat, count: nat)
      requires w.Valid() && from < w.size
      ensures Valid() && this.w == w && this.from == from && this.count == count && iteratedCount == 0
    {
      this.w := w;
      this.from := from;
      this.count := count;
      iteratedCount := 0;
      cur := w.buckets[from];
    }

    method Next() returns (more: bool)
      ensures more <==> count != iteratedCount
    {
      return count != iteratedCount;
    }

    // Follows the next pointer; panics when nothing is left, so something must be.
    method Bucket() returns (b: View)
      requires Valid() && count != iteratedCount
      modifies this
      ensures Valid() && iteratedCount == old(iteratedCount) + 1
      ensures b.points == w.slots[Wrap(from + old(iteratedCount), w.size)]
      ensures b.count == |b.points|
    {
      b := View(cur.points, cur.count);
      StepWrap(from + iteratedCount, w.size);
      iteratedCount := iteratedCount + 1;
      cur := cur.next;
    }
  }

  // The sum and the number of the points in count buckets from slot from on.
  function SumFrom(slots: seq<seq<real>>, from: nat, count: nat): real
    requires slots != []
  {
    if count == 0 then 0.0 else SumFrom(slots, from, count - 1) + SumOf(slots[Wrap(from + count - 1, |slots|)])
  }

  function CountFrom(slots: seq<seq<real>>, from: nat, count: nat): nat
    requires slots != []
  {
    if count == 0 then 0 else CountFrom(slots, from, count - 1) + |slots[Wrap(from + count - 1, |slots|)]|
  }

  lemma {:induction false} VisitedTotals(slots: seq<seq<real>>, from: nat, count: nat)
    requires slots != []
    ensures SumFrom(slots, from, count) == SumOf(Flatten(Visit(slots, from, count)))
    ensures CountFrom(slots, from, count) == |Flatten(Visit(slots, from, count))|
  {
    if count > 0 {
      var all, front := Visit(slots, from, count), Visit(slots, from, count - 1);
      VisitedTotals(slots, from, count - 1);
      FlattenPrefix(all, front, count - 1);
      SumAppend(Flatten(front), all[count - 1]);
    }
  }

  method SumBucket(points: seq<real>, start: real) returns (sum: real)
    ensures sum == start + SumOf(points)
  {
    sum := start;
    for j := 0 to |points|
      invariant sum == start + SumFirst(points, j)
    {
      sum := sum + points[j];
    }
  }

  method SumNext(it: Iterator, start: real) returns (sum: real)
    requires it.Valid() && it.iteratedCount < it.count && start == SumFrom(it.w.slots, it.from, it.iteratedCount)
    modifies it
    ensures it.Valid() && it.iteratedCount == old(it.iteratedCount) + 1
    ensures sum == SumFrom(it.w.slots, it.from, it.iteratedCount)
  {
    var bucket := it.Bucket();
    sum := SumBucket(bucket.points, start);
  }

  method Sum(it: Iterator) returns (sum: real)
    requires it.Valid() && it.iteratedCount == 0
    modifies it
    ensures sum == SumOf(Flatten(Visit(it.w.slots, it.from, it.count)))
  {
    sum := 0.0;
    ghost var slots := it.w.slots;
    var more := it.Next();
    while more
      invariant it.Valid() && it.w.slots == slots
      invariant more <==> it.count != it.iteratedCount
      invariant sum == SumFrom(slots, it.from, it.iteratedCount)
      decreases it.count - it.iteratedCount
    {
      sum := SumNext(it, sum);
      more := it.Next();
    }
    VisitedTotals(slots, it.from, it.count);
  }

  method Count(it: Iterator) returns (count: int)
    requires it.Valid() && it.iteratedCount == 0
    modifies it
    ensures count == |Flatten(Visit(it.w.slots, it.from, it.count))|
  {
    count := 0;
    var more := it.Next();
    while more
      invariant it.Valid()
      invariant more <==> it.count != it.iteratedCount
      invariant count == CountFrom(it.w.slots, it.from, it.iteratedCount)
      decreases it.count - it.iteratedCount
    {
      var bucket := it.Bucket();
      count := count + bucket.count;
      more := it.Next();
    }
    VisitedTotals(it.w.slots, it.from, it.count);
  }

  datatype Aggregation = SumPoints | CountPoints

  function Fold(f: Aggregation, points: seq<real>): real {
    match f
    case SumPoints => SumOf(points)
    case CountPoints => |points| as real
  }

  class Rolling {
    const window: Window
    var offset: nat
    const bucketDuration: int
    var lastUpdateTime: int
    ghost const start: int
    ghost var log: Log
    ghost var ring: Ring

    ghost function State(): Ring
      reads this, window
    {
      Ring(window.slots, offset)
    }

    // Time now lies in period p, counted in bucket durations from the start.
    ghost predicate InPeriod(now: int, p: nat) {
      start + Times(p, bucketDuration) <= now < start + Times(p, bucketDuration) + bucketDuration
    }

    ghost predicate Valid()
      reads this, window, window.cells
    {
      && window.Valid() && bucketDuration > 0
      && lastUpdateTime == start + Times(log.now, bucketDuration)
      && State() == ring
      && Represents(ring, log)
    }

    constructor (size: nat, duration: int, now: int)
      requires size > 0 && duration > 0
      ensures Valid() && fresh(window) && fresh(window.cells)
      ensures log == Log([], 0, 0) && lastUpdateTime == now == start && bucketDuration == duration && window.size == size
    {
      window := new Window(size);
      offset := 0;
      bucketDuration := duration;
      lastUpdateTime := now;
      start := now;
      log := Log([], 0, 0);
      ring := Ring(ClearAll(size), 0);
    }

    // timespan: the clock does not run backwards.
    method Timespan(now: int) returns (span: int)
      requires Valid() && now >= lastUpdateTime
      modifies this`lastUpdateTime
      ensures span >= 0 && InPeriod(now, log.now + span)
      ensures lastUpdateTime == start + Times(log.now + span, bucketDuration)
    {
      var duration := now - lastUpdateTime;
      span := duration / bucketDuration;
      SpanIsPeriods(duration, bucketDuration);
      TimesAdd(log.now, span, bucketDuration);
      TimesIsProduct(span, bucketDuration);
      if span > 0 {
        lastUpdateTime := lastUpdateTime + span * bucketDuration;
      }
    }

    // The part of Add that turns the ring.
    method Turn(span: nat)
      requires window.Valid() && offset < window.size
      modifies this`offset, window, window.cells
      ensures window.Valid() && State() == Rotate(old(State()), span)
    {
      if span > 0 {
        // at least a whole window has passed
        if span >= window.size {
          window.ResetWindow();
          offset := 0;
        } else {
          window.ResetBuckets(offset + 1, span);
          WrapIsMod(offset + span, window.size);
          offset := (offset + span) % window.size;
        }
      }
    }

    method Add(val: real, now: int)
      requires Valid() && now >= lastUpdateTime
      modifies this, window, window.cells
      ensures Valid()
      ensures InPeriod(now, log.now) && log.now >= old(log).now && log == LogAdd(old(log), log.now, val)
    {
      var span := Timespan(now);
      TurnAndAppend(span, val);
      LogAdded(span, val);
    }

    // Turning the ring and adding to the bucket that is now active.
    method TurnAndAppend(span: nat, val: real)
      requires window.Valid() && offset < window.size
      modifies this`offset, window, window.cells
      ensures window.Valid() && State() == Put(Rotate(old(State()), span), val)
    {
      Turn(span);
      window.Append(offset, val);
    }

    ghost method LogAdded(span: nat, val: real)
      requires window.Valid() && bucketDuration > 0 && Represents(ring, log)
      requires lastUpdateTime == start + Times(log.now + span, bucketDuration)
      requires State() == Put(Rotate(ring, span), val)
      modifies this`log, this`ring
      ensures Valid() && log == LogAdd(old(log), old(log).now + span, val)
    {
      AddKeeps(ring, log, log.now + span, val);
      log, ring := LogAdd(log, log.now + span, val), State();
    }

    // What a read returns, in terms of the points ever added.
    method Reduce(f: Aggregation, now: int) returns (r: real)
      requires Valid() && now >= lastUpdateTime
      modifies this`lastUpdateTime, this`log
      ensures Valid()
      ensures InPeriod(now, log.now) && log.now >= old(log).now && log == LogRead(old(log), log.now)
      ensures ring == old(ring) && r == Fold(f, Flatten(Visited(ring, log.now - old(log).now)))
    {
      ghost var was := log.now;
      var span := Timespan(now);
      r := Collect(f, span, ring);
      LogMoved(span);
      assert log.now - was == span;
    }

    ghost method LogMoved(span: nat)
      requires window.Valid() && bucketDuration > 0 && State() == ring && Represents(ring, log)
      requires lastUpdateTime == start + Times(log.now + span, bucketDuration)
      modifies this`log
      ensures Valid() && log == LogRead(old(log), old(log).now + span)
    {
      ReadKeeps(ring, log, log.now + span);
      log := LogRead(log, log.now + span);
    }

    // The part of Reduce after the clock: nothing to see, or an iterator from the oldest
    // bucket that is still valid.
    method Collect(f: Aggregation, span: nat, ghost shown: Ring) returns (r: real)
      requires window.Valid() && offset < window.size && State() == shown
      ensures r == Fold(f, Flatten(Visited(shown, span)))
    {
      if span > 0 {
        if span >= window.size {
          assert Fold(f, Flatten(Visited(shown, span))) == 0.0;
          return 0.0;
        }
      }
      var it := ValidBuckets(span);
      r := Apply(f, it);
    }

    method ValidBuckets(span: nat) returns (it: Iterator)
      requires window.Valid() && offset < window.size && span < window.size
      ensures fresh(it) && it.Valid() && it.iteratedCount == 0
      ensures Visit(it.w.slots, it.from, it.count) == Visited(State(), span)
    {
      var validCount := window.size - span;
      WrapIsMod(offset + span + 1, window.size);
      var from := (offset + span + 1) % window.size;
      it := window.Iterate(from, validCount);
    }
  }

  // Calling the aggregation function that was passed in.
  method Apply(f: Aggregation, it: Iterator) returns (r: real)
    requires it.Valid() && it.iteratedCount == 0
    modifies it
    ensures r == Fold(f, Flatten(Visit(it.w.slots, it.from, it.count)))
  {
    match f {
      case SumPoints =>
        r := Sum(it);
      case CountPoints =>
        var n := Count(it);
        r := n as real;
    }
  }

  // What Reduce's answer means: a fold over logged points that ends with exactly those of
  // the last size periods, and over nothing else as long as no read consumed a period.
  lemma ReduceMeaning(r: Ring, l: Log, now: nat) returns (k: nat)
    requires Represents(r, l) && now >= l.now
    ensures var seen := Flatten(Visited(r, now - l.now));
            && k <= |seen|
            && Fold(SumPoints, seen) == SumOf(seen[..k]) + Fold(SumPoints, Recent(l.points, now, |r.slots|))
            && Fold(CountPoints, seen) == k as real + Fold(CountPoints, Recent(l.points, now, |r.slots|))
            && (l.lag == 0 ==> seen == Recent(l.points, now, |r.slots|))
  {
    k := ReadEndsWithRecent(r, l, now);
    if l.lag == 0 {
      ReadIsExact(r, l, now);
    }
  }

  // A time belongs to one period only.
  lemma PeriodIsUnique(r: Rolling, now: int, p: nat, q: nat)
    requires r.bucketDuration > 0 && r.InPeriod(now, p) && r.InPeriod(now, q)
    ensures p == q
  {
    if p < q {
      TimesAdd(p + 1, q - p - 1, r.bucketDuration);
    } else if q < p {
      TimesAdd(q + 1, p - q - 1, r.bucketDuration);
    }
  }

  lemma SpanIsPeriods(elapsed: int, d: int)
    requires d > 0 && elapsed >= 0
    ensures 0 <= elapsed / d && (elapsed / d) * d <= elapsed < (elapsed / d) * d + d
  {
    assert elapsed == (elapsed / d) * d + elapsed % d;
  }
}
