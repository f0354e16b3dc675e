/** A queue with a capacity (queue/bound/queue.go). */
module BoundQueueSpec {
  import opened Basics

  // Where the first item matching x is, or -1.
  function FirstMatch<T>(items: seq<T>, x: T, eq: (T, T) -> bool): (i: int)
    ensures -1 <= i < |items|
    ensures i >= 0 ==> eq(items[i], x) && forall j :: 0 <= j < i ==> !eq(items[j], x)
    ensures i < 0 ==> forall j :: 0 <= j < |items| ==> !eq(items[j], x)
  {
    FirstMatchFrom(items, x, eq, 0)
  }

  function FirstMatchFrom<T>(items: seq<T>, x: T, eq: (T, T) -> bool, start: nat): (i: int)
    requires start <= |items|
    ensures i == -1 || start <= i < |items|
    ensures i >= 0 ==> eq(items[i], x) && forall j :: start <= j < i ==> !eq(items[j], x)
    ensures i < 0 ==> forall j :: start <= j < |items| ==> !eq(items[j], x)
    decreases |items| - start
  {
    if start == |items| then -1
    else if eq(items[start], x) then start
    else FirstMatchFrom(items, x, eq, start + 1)
  }

  lemma FirstMatchAt<T>(items: seq<T>, x: T, eq: (T, T) -> bool, i: nat)
    requires i < |items| && eq(items[i], x) && forall j :: 0 <= j < i ==> !eq(items[j], x)
    ensures FirstMatch(items, x, eq) == i
  {
  }

  lemma NoMatch<T>(items: seq<T>, x: T, eq: (T, T) -> bool)
    requires forall j :: 0 <= j < |items| ==> !eq(items[j], x)
    ensures FirstMatch(items, x, eq) == -1
  {
  }

  lemma WithoutOne<T>(items: seq<T>, i: nat)
    requires i < |items|
    ensures multiset(Without(items, i)) == multiset(items) - multiset{items[i]}
    ensures multiset(items) == multiset(Without(items, i)) + multiset{items[i]}
  {
    assert items == items[..i] + [items[i]] + items[i + 1..];
  }

  // p is a with some items left out.
  predicate Sub<T(==)>(p: seq<T>, a: seq<T>)
    decreases |a|
  {
    p == [] || (a != [] && ((p[0] == a[0] && Sub(p[1..], a[1..])) || Sub(p, a[1..])))
  }

  lemma {:induction false} SubSame<T>(a: seq<T>)
    ensures Sub(a, a)
    decreases |a|
  {
    if a != [] {
      SubSame(a[1..]);
    }
  }

  lemma {:induction false} SubWithout<T>(p: seq<T>, a: seq<T>, i: nat)
    requires i < |p| && Sub(p, a)
    ensures Sub(Without(p, i), a)
    decreases |a|
  {
    var rest := Without(p, i);
    if p[0] == a[0] && Sub(p[1..], a[1..]) {
      if i == 0 {
        assert rest == p[1..];
      } else {
        SubWithout(p[1..], a[1..], i - 1);
        assert rest[1..] == Without(p[1..], i - 1);
      }
    } else {
      SubWithout(p, a[1..], i);
    }
  }

  lemma {:induction false} SubAppend<T>(p: seq<T>, a: seq<T>, x: T)
    requires Sub(p, a)
    ensures Sub(p + [x], a + [x])
    decreases |a|
  {
    if a == [] {
      assert p + [x] == [x] && a + [x] == [x];
      assert [x][1..] == [];
    } else {
      assert (a + [x])[1..] == a[1..] + [x];
      if p != [] && p[0] == a[0] && Sub(p[1..], a[1..]) {
        SubAppend(p[1..], a[1..], x);
        assert (p + [x])[1..] == p[1..] + [x];
      } else {
        SubAppend(p, a[1..], x);
      }
    }
  }

  lemma {:induction false} SubOfSub<T>(p: seq<T>, q: seq<T>, a: seq<T>)
    requires Sub(p, q) && Sub(q, a)
    ensures Sub(p, a)
    decreases |a|
  {
    if p != [] {
      if q[0] == a[0] && Sub(q[1..], a[1..]) {
        if p[0] == q[0] && Sub(p[1..], q[1..]) {
          SubOfSub(p[1..], q[1..], a[1..]);
        } else {
          SubOfSub(p, q[1..], a[1..]);
        }
      } else {
        SubOfSub(p, q, a[1..]);
      }
    }
  }

  lemma SubPrepend<T>(p: seq<T>, a: seq<T>, x: T)
    requires Sub(p, a)
    ensures Sub([x] + p, [x] + a)
  {
    assert ([x] + p)[1..] == p && ([x] + a)[1..] == a;
  }

  // What leaves nothing out is the whole.
  lemma {:induction false} SubOfSameLength<T>(p: seq<T>, a: seq<T>)
    requires Sub(p, a)
    ensures |p| <= |a| && (|p| == |a| ==> p == a)
    decreases |a|
  {
    if a != [] && p != [] {
      if p[0] == a[0] && Sub(p[1..], a[1..]) {
        SubOfSameLength(p[1..], a[1..]);
        assert p == [p[0]] + p[1..] && a == [a[0]] + a[1..];
      } else {
        SubOfSameLength(p, a[1..]);
      }
    }
  }

  // An x put in front of w is as good as behind it only when w holds nothing else.
  lemma {:induction false} AheadIsBehind<T>(w: seq<T>, x: T)
    ensures [x] + w == w + [x] <==> forall y :: y in w ==> y == x
    decreases |w|
  {
    if w != [] {
      AheadIsBehind(w[1..], x);
      assert w == [w[0]] + w[1..];
      if [x] + w == w + [x] {
        assert ([x] + w)[0] == (w + [x])[0];
        assert w[0] == x;
        assert ([x] + w)[1..] == (w + [x])[1..];
        assert (w + [x])[1..] == w[1..] + [x];
      }
    }
    if forall y :: y in w ==> y == x {
      assert forall i :: 0 <= i < |w| ==> w[i] in w;
    }
  }

  // Leaving one out leaves out the one at some index.
  lemma {:induction false} SubMissingOne<T>(p: seq<T>, a: seq<T>) returns (m: nat)
    requires Sub(p, a) && |a| == |p| + 1
    ensures m < |a| && p == Without(a, m)
    decreases |a|
  {
    if p != [] && p[0] == a[0] && Sub(p[1..], a[1..]) {
      var n := SubMissingOne(p[1..], a[1..]);
      m := n + 1;
      assert p == [p[0]] + p[1..];
      assert Without(a, m) == [a[0]] + Without(a[1..], n);
    } else {
      m := 0;
      SubOfSameLength(p, a[1..]);
      assert Without(a, 0) == a[1..];
    }
  }

  lemma WithoutAt<T>(a: seq<T>, m: nat, q: nat)
    requires m < |a| && q < |a| - 1
    ensures Without(a, m)[q] == if q < m then a[q] else a[q + 1]
  {
  }

  lemma {:induction false} AllAlong<T>(w: seq<T>, x: T, n: nat)
    requires n <= |w| && (n > 0 ==> w[0] == x) && forall j :: 0 <= j < n - 1 ==> w[j + 1] == w[j]
    ensures forall j :: 0 <= j < n ==> w[j] == x
  {
    if n > 1 {
      AllAlong(w, x, n - 1);
      assert w[n - 2 + 1] == w[n - 2];
    }
  }

  lemma {:induction false} AllBack<T>(p: seq<T>, x: T, i: nat)
    requires i < |p| && p[|p| - 1] == x && forall j :: i <= j < |p| - 1 ==> p[j + 1] == p[j]
    ensures forall j :: i <= j < |p| ==> p[j] == x
    decreases |p| - i
  {
    if i < |p| - 1 {
      AllBack(p, x, i + 1);
      assert p[i + 1] == p[i];
    }
  }

  // In a queue p with w behind it, an x that leaves at index i and comes back at the end of p is
  // in turn exactly when nobody else waits in w or there was nobody else from i on.
  lemma RequeueIff<T>(p: seq<T>, w: seq<T>, i: nat, x: T)
    requires i < |p|
    ensures Sub(Without(p, i) + [x] + w, p + w + [x])
       <==> (forall y :: y in w ==> y == x) || (forall q :: i <= q < |p| ==> p[q] == x)
  {
    var later, all := Without(p, i) + [x] + w, p + w + [x];
    SubSame(all);
    if forall y :: y in w ==> y == x {
      AheadIsBehind(w, x);
      assert later == Without(p, i) + ([x] + w);
      assert Without(all, i) == Without(p, i) + (w + [x]);
      SubWithout(all, all, i);
    }
    if forall q :: i <= q < |p| ==> p[q] == x {
      assert Without(p, i) + [x] == p;
      assert Without(all, |p| + |w|) == p + w;
      SubWithout(all, all, |p| + |w|);
    }
    if Sub(later, all) {
      RequeuedOnlyIf(p, w, i, x);
    }
  }

  lemma RequeuedOnlyIf<T>(p: seq<T>, w: seq<T>, i: nat, x: T)
    requires i < |p| && Sub(Without(p, i) + [x] + w, p + w + [x])
    ensures (forall y :: y in w ==> y == x) || (forall q :: i <= q < |p| ==> p[q] == x)
  {
    var later, all := Without(p, i) + [x] + w, p + w + [x];
    var m := SubMissingOne(later, all);
    forall q | 0 <= q < |later| ensures later[q] == if q < m then all[q] else all[q + 1] {
      WithoutAt(all, m, q);
    }
    if m < |p| {
      assert later[|p| - 1] == x;
      forall j | 0 <= j < |w| - 1 ensures w[j + 1] == w[j] {
        assert later[|p| + j] == w[j] && all[|p| + j + 1] == w[j + 1];
      }
      AllAlong(w, x, |w|);
    } else {
      forall j | i <= j < |p| - 1 ensures p[j + 1] == p[j] {
        assert later[j] == p[j + 1] && all[j] == p[j];
      }
      assert later[|p| - 1] == x && all[|p| - 1] == p[|p| - 1];
      AllBack(p, x, i);
    }
  }

  // The same for lists with the newest first.
  lemma RequeueFirstIff<T>(w: seq<T>, p: seq<T>, i: nat, x: T)
    requires i < |p|
    ensures Sub(w + ([x] + Without(p, i)), [x] + (w + p))
       <==> (forall y :: y in w ==> y == x) || (forall q :: 0 <= q <= i ==> p[q] == x)
  {
    var later, all := w + ([x] + Without(p, i)), [x] + (w + p);
    SubSame(all);
    if forall y :: y in w ==> y == x {
      AheadIsBehind(w, x);
      assert later == (w + [x]) + Without(p, i);
      assert Without(all, |w| + 1 + i) == ([x] + w) + Without(p, i);
      SubWithout(all, all, |w| + 1 + i);
    }
    if forall q :: 0 <= q <= i ==> p[q] == x {
      assert [x] + Without(p, i) == p;
      assert Without(all, 0) == w + p;
      SubWithout(all, all, 0);
    }
    if Sub(later, all) {
      RequeuedFirstOnlyIf(w, p, i, x);
    }
  }

  lemma RequeuedFirstOnlyIf<T>(w: seq<T>, p: seq<T>, i: nat, x: T)
    requires i < |p| && Sub(w + ([x] + Without(p, i)), [x] + (w + p))
    ensures (forall y :: y in w ==> y == x) || (forall q :: 0 <= q <= i ==> p[q] == x)
  {
    var later, all := w + ([x] + Without(p, i)), [x] + (w + p);
    var m := SubMissingOne(later, all);
    forall q | 0 <= q < |later| ensures later[q] == if q < m then all[q] else all[q + 1] {
      WithoutAt(all, m, q);
    }
    if m <= |w| {
      assert later[|w|] == x && all[|w| + 1] == p[0];
      forall j | 0 <= j < i ensures p[j + 1] == p[j] {
        assert later[|w| + 1 + j] == p[j] && all[|w| + 2 + j] == p[j + 1];
      }
      AllAlong(p, x, i + 1);
    } else {
      forall j | 0 <= j < |w| - 1 ensures w[j + 1] == w[j] {
        assert later[j + 1] == w[j + 1] && all[j + 1] == w[j];
      }
      assert w != [] ==> later[0] == w[0] && all[0] == x;
      AllAlong(w, x, |w|);
    }
  }
}

module BoundQueue {
  import opened Basics
  import opened BoundQueueSpec

  class Queue<T> {
    var items: seq<T>
    const capacity: int

    constructor (capacity: int)
      ensures items == [] && this.capacity == capacity
    {
      items := [];
      this.capacity := capacity;
    }

    predicate Full()
      reads this
    {
      |items| >= capacity
    }

    // False stands for ErrQueueFull.
    method Push(item: T) returns (ok: bool)
      modifies this
      ensures ok == !old(Full())
      ensures items == if ok then old(items) + [item] else old(items)
    {
      if |items| >= capacity {
        return false;
      }
      items := items + [item];
      return true;
    }

    method ForcePush(item: T)
      modifies this
      ensures items == old(items) + [item]
    {
      items := items + [item];
    }

    // None stands for ErrQueueEmpty.
    method Pop() returns (item: Option<T>)
      modifies this
      ensures old(items) == [] ==> item == None && items == []
      ensures old(items) != [] ==> item.Some? && old(items) == [item.value] + items
    {
      if |items| == 0 {
        return None;
      }
      item := Some(items[0]);
      items := items[1..];
    }

    method Contains(item: T, eq: (T, T) -> bool) returns (found: bool)
      ensures found == exists i :: 0 <= i < |items| && eq(items[i], item)
    {
      for i := 0 to |items|
        invariant forall j :: 0 <= j < i ==> !eq(items[j], item)
      {
        if eq(items[i], item) {
          return true;
        }
      }
      return false;
    }

    method Remove(item: T, eq: (T, T) -> bool) returns (removed: bool)
      modifies this
      ensures var i := FirstMatch(old(items), item, eq);
              && removed == (i >= 0)
              && items == if removed then Without(old(items), i) else old(items)
    {
      for i := 0 to |items|
        invariant items == old(items)
        invariant forall j :: 0 <= j < i ==> !eq(items[j], item)
      {
        if eq(items[i], item) {
          FirstMatchAt(items, item, eq, i);
          items := items[..i] + items[i + 1..];
          return true;
        }
      }
      NoMatch(items, item, eq);
      return false;
    }

    method Peek(item: T, eq: (T, T) -> bool) returns (position: int)
      ensures position == FirstMatch(items, item, eq)
    {
      for i := 0 to |items|
        invariant forall j :: 0 <= j < i ==> !eq(items[j], item)
      {
        if eq(items[i], item) {
          FirstMatchAt(items, item, eq, i);
          return i;
        }
      }
      NoMatch(items, item, eq);
      return -1;
    }
  }
}
