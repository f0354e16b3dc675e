/** Stream entry ids and ordered sequences of them. */
module Ids {
  // An entry id "<ms>-<seq>" is represented by its rank ms * 2^64 + seq;
  // StreamId relates the textual form and the order compareID computes to the rank.
  type Id = nat

  // The empty id, which sorts below every entry id.
  const NONE: int := -1

  predicate Ascending(s: seq<Id>) {
    forall i, j :: 0 <= i < j < |s| ==> s[i] < s[j]
  }

  predicate IsMin(m: Id, s: set<Id>) {
    m in s && forall x :: x in s ==> m <= x
  }

  function Elems(s: seq<Id>): set<Id> {
    set x | x in s
  }
}
