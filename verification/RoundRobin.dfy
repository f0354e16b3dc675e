/** The round-robin scan that both task managers share (queue/task/standalonetask/strategy.go and the Lua
    script of queue/task/redistask/strategy.go). */
module RoundRobin {
  import opened Basics

  // Where a scan after index last begins.
  function Start(last: int, n: nat): (r: nat)
    requires -1 <= last && 0 < n
    ensures r < n
    ensures last < n ==> r == if last + 1 < n then last + 1 else 0
  {
    Wrap(last + 1, n)
  }

  // The scan's index arithmetic, for any stored last index.
  lemma ScanIndex(last: int, i: nat, n: nat)
    requires -1 <= last && i < n
    ensures (last + i + 1) % n == Wrap(Start(last, n) + i, n)
  {
    WrapAdd(last + 1, i, n);
    WrapIsMod(last + 1 + i, n);
  }

  // The first open key at cyclic distance d or more from start.
  function Scan<K(==)>(keys: seq<K>, start: nat, d: nat, full: set<K>): (r: Option<nat>)
    requires start < |keys| && d <= |keys|
    ensures r.Some? ==> r.value < |keys|
    decreases |keys| - d
  {
    if d == |keys| then None
    else
      var index := Wrap(start + d, |keys|);
      if keys[index] !in full then Some(index) else Scan(keys, start, d + 1, full)
  }

  function Pick<K(==)>(keys: seq<K>, last: int, full: set<K>): (r: Option<nat>)
    requires -1 <= last
    ensures r.Some? ==> r.value < |keys|
  {
    if keys == [] then None else Scan(keys, Start(last, |keys|), 0, full)
  }

  // How far p is ahead of start, going round.
  function Distance(start: nat, p: nat, n: nat): (d: nat)
    requires start < n && p < n
    ensures d < n && Wrap(start + d, n) == p
  {
    if p >= start then p - start else p + n - start
  }

  lemma {:induction false} ScanIsNearest<K>(keys: seq<K>, start: nat, d: nat, full: set<K>, p: nat)
    requires start < |keys| && d <= |keys| && p < |keys|
    requires keys[p] !in full && d <= Distance(start, p, |keys|)
    ensures var r := Scan(keys, start, d, full);
            r.Some? && keys[r.value] !in full && d <= Distance(start, r.value, |keys|) <= Distance(start, p, |keys|)
    decreases |keys| - d
  {
    if keys[Wrap(start + d, |keys|)] in full {
      ScanIsNearest(keys, start, d + 1, full, p);
    }
  }

  lemma {:induction false} ScanIsOpen<K>(keys: seq<K>, start: nat, d: nat, full: set<K>)
    requires start < |keys| && d <= |keys|
    ensures Scan(keys, start, d, full).Some? ==> keys[Scan(keys, start, d, full).value] !in full
    decreases |keys| - d
  {
    if d < |keys| {
      ScanIsOpen(keys, start, d + 1, full);
    }
  }

  // The scan reports none exactly when every key is full; otherwise it takes the open key that is
  // nearest after the last one.
  lemma PickIsNearest<K>(keys: seq<K>, last: int, full: set<K>)
    requires -1 <= last
    ensures Pick(keys, last, full).None? <==> forall p :: 0 <= p < |keys| ==> keys[p] in full
    ensures var r := Pick(keys, last, full);
            r.Some? ==>
              && keys[r.value] !in full
              && (forall p :: 0 <= p < |keys| && keys[p] !in full ==>
                    Distance(Start(last, |keys|), r.value, |keys|) <= Distance(Start(last, |keys|), p, |keys|))
  {
    if keys != [] {
      var start := Start(last, |keys|);
      ScanIsOpen(keys, start, 0, full);
      forall p | 0 <= p < |keys| && keys[p] !in full
        ensures Pick(keys, last, full).Some? && Distance(start, Pick(keys, last, full).value, |keys|) <= Distance(start, p, |keys|)
      {
        ScanIsNearest(keys, start, 0, full, p);
      }
    }
  }

  // A pick that passes over an open key brings it nearer.
  lemma PickBringsNearer<K>(keys: seq<K>, last: int, full: set<K>, p: nat)
    requires -1 <= last && p < |keys| && keys[p] !in full
    ensures var r := Pick(keys, last, full);
            && r.Some?
            && (r.value != p ==> Distance(Start(r.value, |keys|), p, |keys|) < Distance(Start(last, |keys|), p, |keys|))
  {
    PickIsNearest(keys, last, full);
  }

  // The indices that successive scans pick, each scan seeing its own set of full keys.
  function Picks<K(==)>(keys: seq<K>, last: int, fulls: seq<set<K>>): (r: seq<nat>)
    requires -1 <= last
    decreases |fulls|
  {
    if fulls == [] then []
    else
      var r := Pick(keys, last, fulls[0]);
      if r.None? then Picks(keys, last, fulls[1..]) else [r.value] + Picks(keys, r.value, fulls[1..])
  }

  // Bounded bypass: a key that stays open is picked within as many scans as there are keys.
  lemma {:induction false} BoundedBypass<K>(keys: seq<K>, last: int, fulls: seq<set<K>>, p: nat)
    requires -1 <= last && p < |keys|
    requires forall t :: 0 <= t < |fulls| ==> keys[p] !in fulls[t]
    requires |fulls| > Distance(Start(last, |keys|), p, |keys|)
    ensures p in Picks(keys, last, fulls)
    decreases |fulls|
  {
    PickBringsNearer(keys, last, fulls[0], p);
    var r := Pick(keys, last, fulls[0]);
    if r.value != p {
      assert forall t :: 0 <= t < |fulls[1..]| ==> fulls[1..][t] == fulls[t + 1];
      BoundedBypass(keys, r.value, fulls[1..], p);
    }
  }
}
