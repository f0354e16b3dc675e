/** The Redis task queue manager (queue/task/redistask), its operations one at a time. Any single Redis call
    may fail, and a failed call has no effect. */
module RedisTaskSpec {
  import opened Basics
  import opened BoundQueueSpec
  import opened RoundRobin

  type Key = string
  // A task as marshalFunc writes it.
  type Text = string

  const TOMBSTONE: Text := "__REDIS_QUEUE_TOMBSTONE__"

  datatype ListKey = Global | Processing(key: Key) | Waiting(key: Key)

  // Lists are head first: LPUSH adds at index 0 and RPOP takes the last item.
  datatype State = State(lists: map<ListKey, seq<Text>>, keys: seq<Key>, last: Option<nat>)

  const START := State(map[], [], None)

  datatype Strategy = RoundRobinTask | LeastTask

  datatype Config = Config(maxGlobal: int, maxProcessing: int, maxWaiting: int, strategy: Strategy)

  function Items(s: State, k: ListKey): seq<Text> {
    if k in s.lists then s.lists[k] else []
  }

  function Put(s: State, k: ListKey, items: seq<Text>): State {
    s.(lists := s.lists[k := items])
  }

  // One field a call: true when that call fails.
  datatype PushFaults = PushFaults(len: bool, push: bool)
  datatype RemoveFaults = RemoveFaults(range: bool, script: bool)
  datatype MoveFaults = MoveFaults(pop: bool, push: bool, undo: bool)
  datatype BackfillFaults = BackfillFaults(len: bool, waiting: MoveFaults, global: MoveFaults)

  datatype Reply = Done | Failed | NotFound | Refused

  predicate Same(a: Text, b: Text) { a == b }

  // LSET a tombstone at index i, then LREM the first tombstone.
  function Cut(items: seq<Text>, i: nat): seq<Text>
    requires i < |items|
  {
    var marked := items[i := TOMBSTONE];
    var j := FirstMatch(marked, TOMBSTONE, Same);
    if j >= 0 then Without(marked, j) else marked
  }

  // The keys and the stored index are left alone.
  predicate SameKeys(s: State, r: State) {
    r.keys == s.keys && r.last == s.last
  }

  // Removes the newest item that equals text.
  function Remove(s: State, k: ListKey, text: Text, f: RemoveFaults): (r: (State, Reply))
    ensures SameKeys(s, r.0)
  {
    if f.range then (s, Failed)
    else
      var i := FirstMatch(Items(s, k), text, Same);
      if i < 0 then (s, NotFound)
      else if f.script then (s, Failed)
      else (Put(s, k, Cut(Items(s, k), i)), Done)
  }

  // A push that checks the length first.
  function Push(s: State, k: ListKey, capacity: int, text: Text, f: PushFaults): (r: (State, Reply))
    ensures SameKeys(s, r.0)
  {
    if f.len then (s, Failed)
    else if |Items(s, k)| >= capacity then (s, Refused)
    else if f.push then (s, Failed)
    else (Put(s, k, [text] + Items(s, k)), Done)
  }

  function ForcePush(s: State, k: ListKey, text: Text, fails: bool): (r: State)
    ensures SameKeys(s, r)
  {
    if fails then s else Put(s, k, [text] + Items(s, k))
  }

  // RPOP from one list and LPUSH to another; a failed push is undone by RPUSH, which may fail too.
  // NotFound: the pop came back with nothing.
  function Move(s: State, from: ListKey, to: ListKey, f: MoveFaults): (r: (State, Reply))
    ensures SameKeys(s, r.0)
  {
    var items := Items(s, from);
    if f.pop || items == [] then (s, NotFound)
    else
      var rest, text := items[..|items| - 1], items[|items| - 1];
      var popped := Put(s, from, rest);
      if !f.push then (Put(popped, to, [text] + Items(popped, to)), Done)
      else (if f.undo then popped else Put(popped, from, rest + [text]), Failed)
  }

  function Backfill(c: Config, s: State, key: Key, f: BackfillFaults): (r: (State, Reply))
    ensures SameKeys(s, r.0)
  {
    if f.len then (s, Failed)
    else if |Items(s, Processing(key))| >= c.maxProcessing then (s, Done)
    else
      var (s', reply) := Move(s, Waiting(key), Processing(key), f.waiting);
      if reply != NotFound then (s', reply)
      else
        var (s'', reply') := Move(s, Global, Processing(key), f.global);
        (s'', if reply' == Failed then Failed else Done)
  }

  datatype Step =
    | AddKey(key: Key, fails: bool)
    | DeleteKey(key: Key, lrem: bool, del: bool)
    | Scan(fails: bool)
    | Insert(text: Text, chosen: Option<Key>, push: PushFaults, global: PushFaults)
    | InsertByKey(key: Key, text: Text, fails: bool, push: PushFaults, waiting: PushFaults)
    | Delete(key: Key, text: Text, cut: RemoveFaults, cutWaiting: RemoveFaults, fill: BackfillFaults)
    | Transform(from: Key, to: Key, text: Text, cut: RemoveFaults, force: bool, undo: bool, fill: BackfillFaults)

  function DoAddKey(s: State, key: Key, fails: bool): State {
    if fails || Items(s, Processing(key)) != [] then s else s.(keys := s.keys + [key])
  }

  function DoDeleteKey(s: State, key: Key, lrem: bool, del: bool): (State, Reply) {
    if lrem then (s, Failed)
    else
      var s' := s.(keys := Others(s.keys, key));
      if del then (s', Failed) else (Put(Put(s', Processing(key), []), Waiting(key), []), Done)
  }

  function Others(keys: seq<Key>, key: Key): seq<Key> {
    if keys == [] then [] else (if keys[0] == key then [] else [keys[0]]) + Others(keys[1..], key)
  }

  function Full(c: Config, s: State): (r: set<Key>)
    ensures forall k :: k in r <==> k in s.keys && |Items(s, Processing(k))| >= c.maxProcessing
  {
    set k | k in s.keys && |Items(s, Processing(k))| >= c.maxProcessing
  }

  function Last(s: State): (r: int)
    ensures -1 <= r
  {
    if s.last.Some? then s.last.value else -1
  }

  // The round-robin script, and the key it returns.
  function DoScan(c: Config, s: State, fails: bool): (State, Option<Key>) {
    if fails then (s, None)
    else
      match Pick(s.keys, Last(s), Full(c, s))
      case None => (s, None)
      case Some(i) => (s.(last := Some(i)), Some(s.keys[i]))
  }

  function DoInsert(c: Config, s: State, text: Text, chosen: Option<Key>, push: PushFaults, global: PushFaults): (r: (State, Reply))
    ensures SameKeys(s, r.0)
  {
    if chosen.None? then Push(s, Global, c.maxGlobal, text, global)
    else
      var (s', reply) := Push(s, Processing(chosen.value), c.maxProcessing, text, push);
      if reply == Done then (s', Done) else Push(s, Global, c.maxGlobal, text, global)
  }

  function DoInsertByKey(c: Config, s: State, key: Key, text: Text, fails: bool, push: PushFaults, waiting: PushFaults): (State, Reply) {
    if fails then (s, Failed)
    else
      var s0 := DoAddKey(s, key, false);
      var (s', reply) := Push(s0, Processing(key), c.maxProcessing, text, push);
      if reply == Done then (s', Done)
      else
        var (s'', reply') := Push(s0, Waiting(key), c.maxWaiting, text, waiting);
        (s'', if reply' == Done then Done else Refused)
  }

  function DoDelete(c: Config, s: State, key: Key, text: Text, cut: RemoveFaults, cutWaiting: RemoveFaults, fill: BackfillFaults): (r: (State, Reply))
    ensures SameKeys(s, r.0)
  {
    var (s', reply) := Remove(s, Processing(key), text, cut);
    match reply
    case Done => (Backfill(c, s', key, fill).0, Done)
    case NotFound => Remove(s, Waiting(key), text, cutWaiting)
    case _ => (s, Failed)
  }

  function DoTransform(c: Config, s: State, from: Key, to: Key, text: Text, cut: RemoveFaults, push: bool, undo: bool, fill: BackfillFaults): (r: (State, Reply))
    ensures SameKeys(s, r.0)
  {
    var (s', reply) := Remove(s, Processing(from), text, cut);
    if reply != Done then (s, reply)
    else if push then (ForcePush(s', Processing(from), text, undo), Failed)
    else Backfill(c, ForcePush(s', Processing(to), text, false), from, fill)
  }

  function Apply(c: Config, s: State, step: Step): (State, Reply) {
    match step
    case AddKey(key, fails) => (DoAddKey(s, key, fails), if fails then Failed else Done)
    case DeleteKey(key, lrem, del) => DoDeleteKey(s, key, lrem, del)
    case Scan(fails) => (DoScan(c, s, fails).0, Done)
    case Insert(text, chosen, push, global) => DoInsert(c, s, text, chosen, push, global)
    case InsertByKey(key, text, fails, push, waiting) => DoInsertByKey(c, s, key, text, fails, push, waiting)
    case Delete(key, text, cut, cutWaiting, fill) => DoDelete(c, s, key, text, cut, cutWaiting, fill)
    case Transform(from, to, text, cut, push, undo, fill) => DoTransform(c, s, from, to, text, cut, push, undo, fill)
  }

  function After(c: Config, s: State, steps: seq<Step>): State
    decreases |steps|
  {
    if steps == [] then s else After(c, Apply(c, s, steps[0]).0, steps[1..])
  }

  // ----- conservation, counted text by text -----

  function One(x: Text, t: Text): nat { if x == t then 1 else 0 }

  function In(items: seq<Text>, t: Text): nat { multiset(items)[t] }

  // The copies of t in the lists ks.
  function Count(lists: map<ListKey, seq<Text>>, ks: seq<ListKey>, t: Text): nat {
    if ks == [] then 0
    else (if ks[0] in lists then In(lists[ks[0]], t) else 0) + Count(lists, ks[1..], t)
  }

  predicate Distinct(ks: seq<ListKey>) {
    forall i, j :: 0 <= i < j < |ks| ==> ks[i] != ks[j]
  }

  lemma {:induction false} CountOutside(s: State, k: ListKey, items: seq<Text>, ks: seq<ListKey>, t: Text)
    requires k !in ks
    ensures Count(Put(s, k, items).lists, ks, t) == Count(s.lists, ks, t)
  {
    if ks != [] {
      CountOutside(s, k, items, ks[1..], t);
    }
  }

  lemma {:induction false} CountPut(s: State, k: ListKey, items: seq<Text>, ks: seq<ListKey>, t: Text)
    requires Distinct(ks) && k in ks
    ensures Count(Put(s, k, items).lists, ks, t) + In(Items(s, k), t) == Count(s.lists, ks, t) + In(items, t)
  {
    if ks[0] == k {
      CountOutside(s, k, items, ks[1..], t);
    } else {
      CountPut(s, k, items, ks[1..], t);
    }
  }

  lemma WithoutHolds(items: seq<Text>, i: nat, t: Text)
    requires i < |items|
    ensures In(items, t) == In(Without(items, i), t) + One(items[i], t)
  {
    WithoutOne(items, i);
  }

  lemma FirstTombstone(items: seq<Text>, i: nat)
    requires i < |items|
    ensures 0 <= FirstMatch(items[i := TOMBSTONE], TOMBSTONE, Same) <= i
  {
    assert Same(items[i := TOMBSTONE][i], TOMBSTONE);
  }

  // Whatever the list holds, the tombstone script takes out exactly the item at index i.
  lemma CutTakesOne(items: seq<Text>, i: nat, t: Text)
    requires i < |items|
    ensures In(Cut(items, i), t) + One(items[i], t) == In(items, t)
  {
    var marked := items[i := TOMBSTONE];
    FirstTombstone(items, i);
    TakesAny(items, i, FirstMatch(marked, TOMBSTONE, Same), t);
  }

  // Whichever tombstone goes, it is the marked text that is missed.
  lemma TakesAny(items: seq<Text>, i: nat, j: nat, t: Text)
    requires i < |items| && j < |items| && items[i := TOMBSTONE][j] == TOMBSTONE
    ensures In(Without(items[i := TOMBSTONE], j), t) + One(items[i], t) == In(items, t)
  {
    var marked := items[i := TOMBSTONE];
    WithoutHolds(marked, j, t);
    WithoutHolds(items, i, t);
    WithoutHolds(marked, i, t);
    assert Without(marked, i) == Without(items, i);
  }

  // The other items also keep their places exactly when no other item before index i follows a
  // text that reads like the tombstone.
  lemma CutKeepsOrderIff(items: seq<Text>, i: nat)
    requires i < |items|
    ensures Cut(items, i) == Without(items, i) <==>
            forall p, q :: 0 <= p <= q < i && items[p] == TOMBSTONE ==> items[q] == TOMBSTONE
  {
    var marked := items[i := TOMBSTONE];
    FirstTombstone(items, i);
    var j: nat := FirstMatch(marked, TOMBSTONE, Same);
    assert Without(marked, i) == Without(items, i);
    if Cut(items, i) == Without(items, i) {
      forall p, q | 0 <= p <= q < i && items[p] == TOMBSTONE ensures items[q] == TOMBSTONE {
        assert Same(marked[p], TOMBSTONE);
        WithoutSame(marked, j, i);
        assert marked[q] == items[q];
      }
    } else if forall p, q :: 0 <= p <= q < i && items[p] == TOMBSTONE ==> items[q] == TOMBSTONE {
      forall q | j <= q <= i ensures marked[q] == TOMBSTONE {
        assert q < i ==> items[j] == TOMBSTONE && marked[q] == items[q];
      }
      SameWithout(marked, j, i);
    }
  }

  lemma WithoutSame(marked: seq<Text>, j: nat, i: nat)
    requires j <= i < |marked| && marked[j] == TOMBSTONE && Without(marked, j) == Without(marked, i)
    ensures forall q :: j <= q <= i ==> marked[q] == TOMBSTONE
  {
    forall q | j <= q < i ensures Without(marked, j)[q] == marked[q] {
      assert Without(marked, i)[q] == marked[q];
    }
    SameFrom(marked, j, i);
  }

  lemma SameWithout(marked: seq<Text>, j: nat, i: nat)
    requires j <= i < |marked| && forall q :: j <= q <= i ==> marked[q] == TOMBSTONE
    ensures Without(marked, j) == Without(marked, i)
  {
    var a, b := Without(marked, j), Without(marked, i);
    forall q | 0 <= q < |a| ensures a[q] == b[q] {
      assert a[q] == marked[if q < j then q else q + 1];
      assert b[q] == marked[if q < i then q else q + 1];
    }
  }

  lemma {:induction false} SameFrom(marked: seq<Text>, j: nat, i: nat)
    requires j <= i < |marked| && marked[j] == TOMBSTONE
    requires forall q :: j <= q < i ==> Without(marked, j)[q] == marked[q]
    ensures forall q :: j <= q <= i ==> marked[q] == TOMBSTONE
  {
    if j < i {
      SameFrom(marked, j, i - 1);
      assert Without(marked, j)[i - 1] == marked[i];
    }
  }

  lemma RemoveHolds(s: State, k: ListKey, text: Text, f: RemoveFaults, ks: seq<ListKey>, t: Text)
    requires Distinct(ks) && k in ks
    ensures var (s', reply) := Remove(s, k, text, f);
            && (reply != Done ==> s' == s)
            && Count(s'.lists, ks, t) + (if reply == Done then One(text, t) else 0) == Count(s.lists, ks, t)
  {
    var i := FirstMatch(Items(s, k), text, Same);
    if i >= 0 {
      CutTakesOne(Items(s, k), i, t);
      CountPut(s, k, Cut(Items(s, k), i), ks, t);
    }
  }

  lemma AddHolds(s: State, k: ListKey, text: Text, ks: seq<ListKey>, t: Text)
    requires Distinct(ks) && k in ks
    ensures Count(Put(s, k, [text] + Items(s, k)).lists, ks, t) == Count(s.lists, ks, t) + One(text, t)
  {
    CountPut(s, k, [text] + Items(s, k), ks, t);
  }

  lemma PushHolds(s: State, k: ListKey, capacity: int, text: Text, f: PushFaults, ks: seq<ListKey>, t: Text)
    requires Distinct(ks) && k in ks
    ensures var (s', reply) := Push(s, k, capacity, text, f);
            && (reply != Done ==> s' == s)
            && Count(s'.lists, ks, t) == Count(s.lists, ks, t) + if reply == Done then One(text, t) else 0
  {
    AddHolds(s, k, text, ks, t);
  }

  // The text a move drops: the one popped when both its push and the undoing push fail.
  function MoveDrops(s: State, from: ListKey, f: MoveFaults): (r: Option<Text>) {
    var items := Items(s, from);
    if !f.pop && items != [] && f.push && f.undo then Some(items[|items| - 1]) else None
  }

  function Opt(x: Option<Text>, t: Text): nat { if x.Some? then One(x.value, t) else 0 }

  lemma MoveHolds(s: State, from: ListKey, to: ListKey, f: MoveFaults, ks: seq<ListKey>, t: Text)
    requires Distinct(ks) && from in ks && to in ks
    ensures Count(Move(s, from, to, f).0.lists, ks, t) + Opt(MoveDrops(s, from, f), t) == Count(s.lists, ks, t)
  {
    var items := Items(s, from);
    if !f.pop && items != [] {
      var rest, text := items[..|items| - 1], items[|items| - 1];
      assert items == rest + [text];
      var popped := Put(s, from, rest);
      CountPut(s, from, rest, ks, t);
      AddHolds(popped, to, text, ks, t);
      CountPut(popped, from, rest + [text], ks, t);
    }
  }

  function BackfillDrops(c: Config, s: State, key: Key, f: BackfillFaults): (r: Option<Text>) {
    if f.len || |Items(s, Processing(key))| >= c.maxProcessing then None
    else if !f.waiting.pop && Items(s, Waiting(key)) != [] then MoveDrops(s, Waiting(key), f.waiting)
    else MoveDrops(s, Global, f.global)
  }

  lemma BackfillHolds(c: Config, s: State, key: Key, f: BackfillFaults, ks: seq<ListKey>, t: Text)
    requires Distinct(ks) && Global in ks && Processing(key) in ks && Waiting(key) in ks
    ensures Count(Backfill(c, s, key, f).0.lists, ks, t) + Opt(BackfillDrops(c, s, key, f), t) == Count(s.lists, ks, t)
  {
    MoveHolds(s, Waiting(key), Processing(key), f.waiting, ks, t);
    MoveHolds(s, Global, Processing(key), f.global, ks, t);
  }

  // The lists a step reads or writes.
  predicate Covers(ks: seq<ListKey>, step: Step) {
    && Distinct(ks) && Global in ks
    && match step
       case AddKey(key, _) => true
       case Scan(_) => true
       case DeleteKey(key, _, _) => Processing(key) in ks && Waiting(key) in ks
       case Insert(_, chosen, _, _) => chosen.Some? ==> Processing(chosen.value) in ks
       case InsertByKey(key, _, _, _, _) => Processing(key) in ks && Waiting(key) in ks
       case Delete(key, _, _, _, _) => Processing(key) in ks && Waiting(key) in ks
       case Transform(from, to, _, _, _, _, _) => Processing(from) in ks && Waiting(from) in ks && Processing(to) in ks
  }

  // What Delete and Transform lose beyond the deleted task: nothing unless a compensating push fails.
  function DeleteDrops(c: Config, s: State, key: Key, text: Text, cut: RemoveFaults, fill: BackfillFaults): (r: Option<Text>) {
    var (s', reply) := Remove(s, Processing(key), text, cut);
    if reply == Done then BackfillDrops(c, s', key, fill) else None
  }

  function TransformDrops(c: Config, s: State, from: Key, to: Key, text: Text, cut: RemoveFaults, push: bool, undo: bool, fill: BackfillFaults): (r: Option<Text>) {
    var (s', reply) := Remove(s, Processing(from), text, cut);
    if reply != Done then None
    else if push then if undo then Some(text) else None
    else BackfillDrops(c, ForcePush(s', Processing(to), text, false), from, fill)
  }

  lemma DeleteHolds(c: Config, s: State, key: Key, text: Text, cut: RemoveFaults, cutWaiting: RemoveFaults, fill: BackfillFaults, ks: seq<ListKey>, t: Text)
    requires Covers(ks, Delete(key, text, cut, cutWaiting, fill))
    ensures var (s', reply) := DoDelete(c, s, key, text, cut, cutWaiting, fill);
            Count(s'.lists, ks, t) + (if reply == Done then One(text, t) else 0) + Opt(DeleteDrops(c, s, key, text, cut, fill), t)
            == Count(s.lists, ks, t)
  {
    RemoveHolds(s, Processing(key), text, cut, ks, t);
    RemoveHolds(s, Waiting(key), text, cutWaiting, ks, t);
    BackfillHolds(c, Remove(s, Processing(key), text, cut).0, key, fill, ks, t);
  }

  // Delete loses nothing but the deleted task exactly when it drops nothing.
  lemma DeleteConservesIff(c: Config, s: State, key: Key, text: Text, cut: RemoveFaults, cutWaiting: RemoveFaults, fill: BackfillFaults, ks: seq<ListKey>)
    requires Covers(ks, Delete(key, text, cut, cutWaiting, fill))
    ensures var (s', reply) := DoDelete(c, s, key, text, cut, cutWaiting, fill);
            && (DeleteDrops(c, s, key, text, cut, fill).None? <==>
                forall t :: Count(s'.lists, ks, t) + (if reply == Done then One(text, t) else 0) == Count(s.lists, ks, t))
            && (DeleteDrops(c, s, key, text, cut, fill).Some? ==>
                  (fill.waiting.push && fill.waiting.undo) || (fill.global.push && fill.global.undo))
  {
    var (s', reply) := DoDelete(c, s, key, text, cut, cutWaiting, fill);
    var dropped := DeleteDrops(c, s, key, text, cut, fill);
    forall t | dropped.None? ensures Count(s'.lists, ks, t) + (if reply == Done then One(text, t) else 0) == Count(s.lists, ks, t) {
      DeleteHolds(c, s, key, text, cut, cutWaiting, fill, ks, t);
    }
    if dropped.Some? {
      DeleteHolds(c, s, key, text, cut, cutWaiting, fill, ks, dropped.value);
    }
  }

  // A transfer that is done put the text at the head of the target's processing list; one that found
  // nothing changed nothing.
  lemma TransformMoves(c: Config, s: State, from: Key, to: Key, text: Text, cut: RemoveFaults, push: bool, undo: bool, fill: BackfillFaults)
    ensures var (s', reply) := DoTransform(c, s, from, to, text, cut, push, undo, fill);
            && (from != to && reply == Done ==>
                  Items(s', Processing(to)) == [text] + Items(s, Processing(to)) && In(Items(s, Processing(from)), text) > 0)
            && (reply == NotFound ==> s' == s && text !in Items(s, Processing(from)))
  {
    RemoveFinds(s, Processing(from), text, cut);
    if Remove(s, Processing(from), text, cut).1 == Done && !push {
      TransformFills(c, s, from, to, text, cut, undo, fill);
    }
  }

  // Lists of other keys are left alone, whatever fails.
  lemma TransformElsewhere(c: Config, s: State, from: Key, to: Key, text: Text, cut: RemoveFaults, push: bool, undo: bool, fill: BackfillFaults, k: Key)
    requires k != from
    ensures var s' := DoTransform(c, s, from, to, text, cut, push, undo, fill).0;
            Items(s', Waiting(k)) == Items(s, Waiting(k)) && (k != to ==> Items(s', Processing(k)) == Items(s, Processing(k)))
  {
    RemoveFinds(s, Processing(from), text, cut);
    if Remove(s, Processing(from), text, cut).1 == Done && !push {
      BackfillStaysAtKey(c, ForcePush(Remove(s, Processing(from), text, cut).0, Processing(to), text, false), from, fill);
    }
  }

  lemma TransformFills(c: Config, s: State, from: Key, to: Key, text: Text, cut: RemoveFaults, undo: bool, fill: BackfillFaults)
    requires Remove(s, Processing(from), text, cut).1 == Done
    ensures var (s', reply) := DoTransform(c, s, from, to, text, cut, false, undo, fill);
            reply != NotFound && (from != to ==> Items(s', Processing(to)) == [text] + Items(s, Processing(to)))
  {
    RemoveFinds(s, Processing(from), text, cut);
    BackfillStaysAtKey(c, ForcePush(Remove(s, Processing(from), text, cut).0, Processing(to), text, false), from, fill);
  }

  lemma RemoveFinds(s: State, k: ListKey, text: Text, f: RemoveFaults)
    ensures var (s', reply) := Remove(s, k, text, f);
            && (reply == Done ==> In(Items(s, k), text) > 0 && forall l :: l != k ==> Items(s', l) == Items(s, l))
            && (reply == NotFound ==> text !in Items(s, k))
            && reply != Refused
  {
    var items := Items(s, k);
    var i := FirstMatch(items, text, Same);
    if i < 0 {
      assert forall j :: 0 <= j < |items| ==> !Same(items[j], text);
    } else {
      assert Same(items[i], text);
    }
  }

  lemma BackfillStaysAtKey(c: Config, s: State, k: Key, f: BackfillFaults)
    ensures var (s', reply) := Backfill(c, s, k, f);
            && (forall l :: l != k ==> Items(s', Processing(l)) == Items(s, Processing(l)) && Items(s', Waiting(l)) == Items(s, Waiting(l)))
            && reply != NotFound
  {
  }

  lemma TransformHolds(c: Config, s: State, from: Key, to: Key, text: Text, cut: RemoveFaults, push: bool, undo: bool, fill: BackfillFaults, ks: seq<ListKey>, t: Text)
    requires Covers(ks, Transform(from, to, text, cut, push, undo, fill))
    ensures Count(DoTransform(c, s, from, to, text, cut, push, undo, fill).0.lists, ks, t)
            + Opt(TransformDrops(c, s, from, to, text, cut, push, undo, fill), t)
            == Count(s.lists, ks, t)
  {
    var (s', reply) := Remove(s, Processing(from), text, cut);
    RemoveHolds(s, Processing(from), text, cut, ks, t);
    AddHolds(s', Processing(from), text, ks, t);
    AddHolds(s', Processing(to), text, ks, t);
    BackfillHolds(c, ForcePush(s', Processing(to), text, false), from, fill, ks, t);
  }

  // A transfer, whether it succeeds, fails or is undone, changes no count exactly when no
  // compensating push fails after a failed push.
  lemma TransformConservesIff(c: Config, s: State, from: Key, to: Key, text: Text, cut: RemoveFaults, push: bool, undo: bool, fill: BackfillFaults, ks: seq<ListKey>)
    requires Covers(ks, Transform(from, to, text, cut, push, undo, fill))
    ensures var s' := DoTransform(c, s, from, to, text, cut, push, undo, fill).0;
            var dropped := TransformDrops(c, s, from, to, text, cut, push, undo, fill);
            && (dropped.None? <==> forall t :: Count(s'.lists, ks, t) == Count(s.lists, ks, t))
            && (dropped.Some? ==> (push && undo) || (fill.waiting.push && fill.waiting.undo) || (fill.global.push && fill.global.undo))
  {
    var s' := DoTransform(c, s, from, to, text, cut, push, undo, fill).0;
    var dropped := TransformDrops(c, s, from, to, text, cut, push, undo, fill);
    forall t | dropped.None? ensures Count(s'.lists, ks, t) == Count(s.lists, ks, t) {
      TransformHolds(c, s, from, to, text, cut, push, undo, fill, ks, t);
    }
    if dropped.Some? {
      TransformHolds(c, s, from, to, text, cut, push, undo, fill, ks, dropped.value);
    }
  }

  // Insert and InsertByKey keep the task once when they say so, and change no list otherwise.
  lemma InsertHolds(c: Config, s: State, text: Text, chosen: Option<Key>, push: PushFaults, global: PushFaults, ks: seq<ListKey>, t: Text)
    requires Covers(ks, Insert(text, chosen, push, global))
    ensures var (s', reply) := DoInsert(c, s, text, chosen, push, global);
            Count(s'.lists, ks, t) == Count(s.lists, ks, t) + if reply == Done then One(text, t) else 0
  {
    PushHolds(s, Global, c.maxGlobal, text, global, ks, t);
    if chosen.Some? {
      PushHolds(s, Processing(chosen.value), c.maxProcessing, text, push, ks, t);
    }
  }

  lemma InsertByKeyHolds(c: Config, s: State, key: Key, text: Text, fails: bool, push: PushFaults, waiting: PushFaults, ks: seq<ListKey>, t: Text)
    requires Covers(ks, InsertByKey(key, text, fails, push, waiting))
    ensures var (s', reply) := DoInsertByKey(c, s, key, text, fails, push, waiting);
            Count(s'.lists, ks, t) == Count(s.lists, ks, t) + if reply == Done then One(text, t) else 0
  {
    var s0 := DoAddKey(s, key, false);
    PushHolds(s0, Processing(key), c.maxProcessing, text, push, ks, t);
    PushHolds(s0, Waiting(key), c.maxWaiting, text, waiting, ks, t);
  }

  lemma DeleteKeyHolds(s: State, key: Key, lrem: bool, del: bool, ks: seq<ListKey>, t: Text)
    requires Covers(ks, DeleteKey(key, lrem, del))
    ensures var (s', reply) := DoDeleteKey(s, key, lrem, del);
            Count(s'.lists, ks, t) + (if reply == Done then In(Items(s, Processing(key)), t) + In(Items(s, Waiting(key)), t) else 0)
            == Count(s.lists, ks, t)
  {
    CountPut(s, Processing(key), [], ks, t);
    CountPut(Put(s, Processing(key), []), Waiting(key), [], ks, t);
  }

  function Drops(c: Config, s: State, step: Step): (r: Option<Text>) {
    match step
    case Delete(key, text, cut, _, fill) => DeleteDrops(c, s, key, text, cut, fill)
    case Transform(from, to, text, cut, push, undo, fill) => TransformDrops(c, s, from, to, text, cut, push, undo, fill)
    case _ => None
  }

  function Added(c: Config, s: State, step: Step, t: Text): nat {
    if (step.Insert? || step.InsertByKey?) && Apply(c, s, step).1 == Done then One(step.text, t) else 0
  }

  function Taken(c: Config, s: State, step: Step, t: Text): nat {
    if Apply(c, s, step).1 != Done then 0
    else if step.Delete? then One(step.text, t)
    else if step.DeleteKey? then In(Items(s, Processing(step.key)), t) + In(Items(s, Waiting(step.key)), t)
    else 0
  }

  lemma StepConserves(c: Config, s: State, step: Step, ks: seq<ListKey>, t: Text)
    requires Covers(ks, step)
    ensures Count(Apply(c, s, step).0.lists, ks, t) + Taken(c, s, step, t) + Opt(Drops(c, s, step), t)
            == Count(s.lists, ks, t) + Added(c, s, step, t)
  {
    match step
    case AddKey(key, fails) =>
    case Scan(fails) =>
    case DeleteKey(key, lrem, del) => DeleteKeyHolds(s, key, lrem, del, ks, t);
    case Insert(text, chosen, push, global) => InsertHolds(c, s, text, chosen, push, global, ks, t);
    case InsertByKey(key, text, fails, push, waiting) => InsertByKeyHolds(c, s, key, text, fails, push, waiting, ks, t);
    case Delete(key, text, cut, cutWaiting, fill) => DeleteHolds(c, s, key, text, cut, cutWaiting, fill, ks, t);
    case Transform(from, to, text, cut, push, undo, fill) => TransformHolds(c, s, from, to, text, cut, push, undo, fill, ks, t);
  }

  // The balance of a whole run: copies taken out and copies dropped, copies put in.
  function Out(c: Config, s: State, steps: seq<Step>, t: Text): nat
    decreases |steps|
  {
    if steps == [] then 0
    else Taken(c, s, steps[0], t) + Opt(Drops(c, s, steps[0]), t) + Out(c, Apply(c, s, steps[0]).0, steps[1..], t)
  }

  function PutIn(c: Config, s: State, steps: seq<Step>, t: Text): nat
    decreases |steps|
  {
    if steps == [] then 0 else Added(c, s, steps[0], t) + PutIn(c, Apply(c, s, steps[0]).0, steps[1..], t)
  }

  lemma {:induction false} RunConserves(c: Config, s: State, steps: seq<Step>, ks: seq<ListKey>, t: Text)
    requires forall i :: 0 <= i < |steps| ==> Covers(ks, steps[i])
    ensures Count(After(c, s, steps).lists, ks, t) + Out(c, s, steps, t) == Count(s.lists, ks, t) + PutIn(c, s, steps, t)
    decreases |steps|
  {
    if steps != [] {
      StepConserves(c, s, steps[0], ks, t);
      RunConserves(c, Apply(c, s, steps[0]).0, steps[1..], ks, t);
    }
  }

  // ----- where a task goes -----

  // The script answers with no key exactly when every listed key is full; otherwise with the open
  // key nearest after the stored index, even when keys have been deleted since it was stored.
  lemma ScanFindsRoom(c: Config, s: State)
    ensures var (s', key) := DoScan(c, s, false);
            && (key.None? <==> forall k :: k in s.keys ==> |Items(s, Processing(k))| >= c.maxProcessing)
            && (key.Some? ==>
                  && key.value in s.keys && |Items(s, Processing(key.value))| < c.maxProcessing
                  && s' == s.(last := s'.last) && s'.last.Some? && s'.last.value < |s.keys| && s.keys[s'.last.value] == key.value
                  && forall p :: 0 <= p < |s.keys| && |Items(s, Processing(s.keys[p]))| < c.maxProcessing ==>
                       Distance(Start(Last(s), |s.keys|), s'.last.value, |s.keys|) <= Distance(Start(Last(s), |s.keys|), p, |s.keys|))
  {
    PickIsNearest(s.keys, Last(s), Full(c, s));
  }

  predicate HasRoom(c: Config, s: State, key: Key) {
    key in s.keys && |Items(s, Processing(key))| < c.maxProcessing
  }

  // What either strategy comes out with when its calls work: a key with room if there is one.
  predicate Assigns(c: Config, s: State, chosen: Option<Key>) {
    match chosen
    case Some(k) => HasRoom(c, s, k)
    case None => forall k :: k in s.keys ==> !HasRoom(c, s, k)
  }

  lemma ScanAssigns(c: Config, s: State)
    ensures Assigns(c, s, DoScan(c, s, false).1)
    ensures DoScan(c, s, false).0 == s.(last := DoScan(c, s, false).0.last)
  {
    PickIsNearest(s.keys, Last(s), Full(c, s));
  }

  // When the calls work, a task goes to a processing list exactly when one of a listed key has room,
  // otherwise to the global list, and is refused exactly when that is full too.
  lemma InsertGoesWhereThereIsRoom(c: Config, s: State, text: Text, chosen: Option<Key>)
    requires Assigns(c, s, chosen)
    ensures var (s', reply) := DoInsert(c, s, text, chosen, PushFaults(false, false), PushFaults(false, false));
            var room := exists k :: k in s.keys && HasRoom(c, s, k);
            && (room ==>
                  && reply == Done && chosen.Some?
                  && s' == Put(s, Processing(chosen.value), [text] + Items(s, Processing(chosen.value))))
            && (!room && |Items(s, Global)| < c.maxGlobal ==> reply == Done && s' == Put(s, Global, [text] + Items(s, Global)))
            && (!room && |Items(s, Global)| >= c.maxGlobal ==> reply == Refused && s' == s)
  {
  }

  // The keys that the scans of a run came out with, and how many scans ran.
  function Scanned(c: Config, s: State, steps: seq<Step>): seq<Key>
    decreases |steps|
  {
    if steps == [] then []
    else
      var rest := Scanned(c, Apply(c, s, steps[0]).0, steps[1..]);
      if steps[0].Scan? && DoScan(c, s, steps[0].fails).1.Some? then [DoScan(c, s, steps[0].fails).1.value] + rest else rest
  }

  function Scans(steps: seq<Step>): nat {
    if steps == [] then 0 else (if steps[0] == Scan(false) then 1 else 0) + Scans(steps[1..])
  }

  // No key comes or goes, and key p has room whenever a scan runs.
  predicate Steady(c: Config, s: State, steps: seq<Step>, keys: seq<Key>, p: nat)
    requires p < |keys|
    decreases |steps|
  {
    && s.keys == keys
    && (steps == [] ||
        ((steps[0] == Scan(false) ==> HasRoom(c, s, keys[p])) && Steady(c, Apply(c, s, steps[0]).0, steps[1..], keys, p)))
  }

  lemma OnlyScansMoveLast(c: Config, s: State, step: Step)
    requires step != Scan(false)
    ensures Apply(c, s, step).0.last == s.last
  {
  }

  // In any run of calls over a fixed list of n keys, whatever else fails, a key that has room at every
  // scan is assigned within n scans, even if the stored index lies beyond the list.
  lemma {:induction false} BoundedBypassInRuns(c: Config, s: State, steps: seq<Step>, p: nat)
    requires p < |s.keys| && Steady(c, s, steps, s.keys, p)
    requires Scans(steps) > Distance(Start(Last(s), |s.keys|), p, |s.keys|)
    ensures s.keys[p] in Scanned(c, s, steps)
    decreases |steps|
  {
    var s' := Apply(c, s, steps[0]).0;
    assert s'.keys == s.keys;
    if steps[0] == Scan(false) {
      PickBringsNearer(s.keys, Last(s), Full(c, s), p);
      if Pick(s.keys, Last(s), Full(c, s)).value != p {
        BoundedBypassInRuns(c, s', steps[1..], p);
      }
    } else {
      OnlyScansMoveLast(c, s, steps[0]);
      BoundedBypassInRuns(c, s', steps[1..], p);
    }
  }

  function Max(a: int, b: int): int { if a >= b then a else b }

  // Whether the step moved a task into key's processing list past its capacity check.
  function Into(s: State, step: Step, key: Key): nat {
    if step.Transform? && step.to == key && !step.force && Remove(s, Processing(step.from), step.text, step.cut).1 == Done then 1 else 0
  }

  function Transfers(c: Config, s: State, steps: seq<Step>, key: Key): nat
    decreases |steps|
  {
    if steps == [] then 0 else Into(s, steps[0], key) + Transfers(c, Apply(c, s, steps[0]).0, steps[1..], key)
  }

  predicate Bounded(c: Config, s: State, key: Key, excess: nat) {
    && |Items(s, Global)| <= Max(0, c.maxGlobal)
    && |Items(s, Waiting(key))| <= Max(0, c.maxWaiting)
    && |Items(s, Processing(key))| <= Max(0, c.maxProcessing) + excess
  }

  lemma CutIsShorter(items: seq<Text>, i: nat)
    requires i < |items|
    ensures |Cut(items, i)| == |items| - 1
  {
    FirstTombstone(items, i);
  }

  lemma RemoveLength(s: State, k: ListKey, text: Text, f: RemoveFaults)
    ensures var (s', reply) := Remove(s, k, text, f);
            && (forall l :: l != k ==> Items(s', l) == Items(s, l))
            && |Items(s', k)| == |Items(s, k)| - if reply == Done then 1 else 0
  {
    var i := FirstMatch(Items(s, k), text, Same);
    if i >= 0 {
      CutIsShorter(Items(s, k), i);
    }
  }

  lemma BackfillBounded(c: Config, s: State, k: Key, f: BackfillFaults, key: Key, excess: nat)
    requires Bounded(c, s, key, excess)
    ensures Bounded(c, Backfill(c, s, k, f).0, key, excess)
  {
  }

  lemma DeleteBounded(c: Config, s: State, k: Key, text: Text, cut: RemoveFaults, cutWaiting: RemoveFaults, fill: BackfillFaults, key: Key, excess: nat)
    requires Bounded(c, s, key, excess)
    ensures Bounded(c, DoDelete(c, s, k, text, cut, cutWaiting, fill).0, key, excess)
  {
    var (s', reply) := Remove(s, Processing(k), text, cut);
    RemoveLength(s, Processing(k), text, cut);
    RemoveLength(s, Waiting(k), text, cutWaiting);
    if reply == Done {
      BackfillBounded(c, s', k, fill, key, excess);
    }
  }

  lemma TransformBounded(c: Config, s: State, from: Key, to: Key, text: Text, cut: RemoveFaults, force: bool, undo: bool, fill: BackfillFaults, key: Key, excess: nat)
    requires Bounded(c, s, key, excess)
    ensures var into := if to == key && !force && Remove(s, Processing(from), text, cut).1 == Done then 1 else 0;
            Bounded(c, DoTransform(c, s, from, to, text, cut, force, undo, fill).0, key, excess + into)
  {
    var (s', reply) := Remove(s, Processing(from), text, cut);
    RemoveLength(s, Processing(from), text, cut);
    if reply == Done && !force {
      BackfillBounded(c, ForcePush(s', Processing(to), text, false), from, fill, key, if to == key then excess + 1 else excess);
    }
  }

  lemma InsertBounded(c: Config, s: State, text: Text, chosen: Option<Key>, push: PushFaults, global: PushFaults, key: Key, excess: nat)
    requires Bounded(c, s, key, excess)
    ensures Bounded(c, DoInsert(c, s, text, chosen, push, global).0, key, excess)
  {
  }

  lemma InsertByKeyBounded(c: Config, s: State, k: Key, text: Text, fails: bool, push: PushFaults, waiting: PushFaults, key: Key, excess: nat)
    requires Bounded(c, s, key, excess)
    ensures Bounded(c, DoInsertByKey(c, s, k, text, fails, push, waiting).0, key, excess)
  {
    assert Bounded(c, DoAddKey(s, k, false), key, excess);
  }

  lemma StepBounded(c: Config, s: State, step: Step, key: Key, excess: nat)
    requires Bounded(c, s, key, excess)
    ensures Bounded(c, Apply(c, s, step).0, key, excess + Into(s, step, key))
  {
    match step
    case Delete(k, text, cut, cutWaiting, fill) => DeleteBounded(c, s, k, text, cut, cutWaiting, fill, key, excess);
    case Transform(from, to, text, cut, force, undo, fill) => TransformBounded(c, s, from, to, text, cut, force, undo, fill, key, excess);
    case Insert(text, chosen, push, global) => InsertBounded(c, s, text, chosen, push, global, key, excess);
    case InsertByKey(k, text, fails, push, waiting) => InsertByKeyBounded(c, s, k, text, fails, push, waiting, key, excess);
    case _ =>
  }

  // After any run, whatever failed: waiting and global lists respect their capacity, and a
  // processing list exceeds its own by at most the transfers into it.
  lemma {:induction false} RunBounded(c: Config, s: State, steps: seq<Step>, key: Key, excess: nat)
    requires Bounded(c, s, key, excess)
    ensures Bounded(c, After(c, s, steps), key, excess + Transfers(c, s, steps, key))
    decreases |steps|
  {
    if steps != [] {
      StepBounded(c, s, steps[0], key, excess);
      RunBounded(c, Apply(c, s, steps[0]).0, steps[1..], key, excess + Into(s, steps[0], key));
    }
  }

  // ----- whoever waits, waits for room -----

  predicate WaitsForRoom(c: Config, s: State, key: Key) {
    Items(s, Waiting(key)) != [] ==> |Items(s, Processing(key))| >= c.maxProcessing
  }

  predicate MoveWorks(f: MoveFaults) { !f.pop && !f.push }

  predicate FillWorks(f: BackfillFaults) { !f.len && MoveWorks(f.waiting) && MoveWorks(f.global) }

  predicate Works(step: Step) {
    match step
    case DeleteKey(_, lrem, del) => !lrem && !del
    case InsertByKey(_, _, _, push, _) => !push.len && !push.push
    case Delete(_, _, _, _, fill) => FillWorks(fill)
    case Transform(_, _, _, _, force, undo, fill) => !force && FillWorks(fill)
    case _ => true
  }

  // A backfill makes up for one place.
  lemma BackfillRefills(c: Config, s: State, k: Key, f: BackfillFaults, key: Key)
    requires FillWorks(f) && (k != key ==> WaitsForRoom(c, s, key))
    requires k == key && Items(s, Waiting(k)) != [] ==> |Items(s, Processing(k))| + 1 >= c.maxProcessing
    ensures WaitsForRoom(c, Backfill(c, s, k, f).0, key)
  {
  }

  lemma StepKeepsWaits(c: Config, s: State, step: Step, key: Key)
    requires WaitsForRoom(c, s, key) && Works(step)
    ensures WaitsForRoom(c, Apply(c, s, step).0, key)
  {
    match step
    case Delete(k, text, cut, cutWaiting, fill) => DeleteWaits(c, s, k, text, cut, cutWaiting, fill, key);
    case Transform(from, to, text, cut, force, undo, fill) => TransformWaits(c, s, from, to, text, cut, undo, fill, key);
    case InsertByKey(k, text, fails, push, waiting) => if !fails { InsertByKeyWaits(c, s, k, text, push, waiting, key); }
    case Insert(text, chosen, push, global) => InsertWaits(c, s, text, chosen, push, global, key);
    case _ =>
  }

  lemma DeleteWaits(c: Config, s: State, k: Key, text: Text, cut: RemoveFaults, cutWaiting: RemoveFaults, fill: BackfillFaults, key: Key)
    requires WaitsForRoom(c, s, key) && FillWorks(fill)
    ensures WaitsForRoom(c, DoDelete(c, s, k, text, cut, cutWaiting, fill).0, key)
  {
    RemoveLength(s, Processing(k), text, cut);
    RemoveLength(s, Waiting(k), text, cutWaiting);
    if Remove(s, Processing(k), text, cut).1 == Done {
      BackfillRefills(c, Remove(s, Processing(k), text, cut).0, k, fill, key);
    }
  }

  lemma TransformWaits(c: Config, s: State, from: Key, to: Key, text: Text, cut: RemoveFaults, undo: bool, fill: BackfillFaults, key: Key)
    requires WaitsForRoom(c, s, key) && FillWorks(fill)
    ensures WaitsForRoom(c, DoTransform(c, s, from, to, text, cut, false, undo, fill).0, key)
  {
    RemoveLength(s, Processing(from), text, cut);
    var s' := Remove(s, Processing(from), text, cut).0;
    if Remove(s, Processing(from), text, cut).1 == Done {
      BackfillRefills(c, ForcePush(s', Processing(to), text, false), from, fill, key);
    }
  }

  lemma InsertByKeyWaits(c: Config, s: State, k: Key, text: Text, push: PushFaults, waiting: PushFaults, key: Key)
    requires WaitsForRoom(c, s, key) && !push.len && !push.push
    ensures WaitsForRoom(c, DoInsertByKey(c, s, k, text, false, push, waiting).0, key)
  {
    assert WaitsForRoom(c, DoAddKey(s, k, false), key);
  }

  lemma InsertWaits(c: Config, s: State, text: Text, chosen: Option<Key>, push: PushFaults, global: PushFaults, key: Key)
    requires WaitsForRoom(c, s, key)
    ensures WaitsForRoom(c, DoInsert(c, s, text, chosen, push, global).0, key)
  {
  }

  // As long as the calls work, no task waits for a key whose processing list has room; unlike in
  // memory, that survives transfers, since this Transform backfills the list it takes from.
  lemma {:induction false} WaitingMeansFull(c: Config, s: State, steps: seq<Step>, key: Key)
    requires WaitsForRoom(c, s, key) && forall i :: 0 <= i < |steps| ==> Works(steps[i])
    ensures WaitsForRoom(c, After(c, s, steps), key)
    decreases |steps|
  {
    if steps != [] {
      StepKeepsWaits(c, s, steps[0], key);
      WaitingMeansFull(c, Apply(c, s, steps[0]).0, steps[1..], key);
    }
  }

  // ----- first come, first served -----

  // Who has or wants a place at key, the newest first.
  function Line(s: State, key: Key): seq<Text> {
    Items(s, Waiting(key)) + Items(s, Processing(key))
  }

  // No text in the lists key depends on reads like the tombstone.
  predicate Clean(s: State, key: Key) {
    TOMBSTONE !in Items(s, Waiting(key)) && TOMBSTONE !in Items(s, Processing(key)) && TOMBSTONE !in Items(s, Global)
  }

  // later is what is left of line, newest first, after joined came to it and gone left it.
  predicate Served(line: seq<Text>, later: seq<Text>, joined: seq<Text>, gone: nat) {
    Sub(later, joined + line) && |later| + gone == |joined| + |line|
  }

  lemma ServedSame(line: seq<Text>)
    ensures Served(line, line, [], 0)
  {
    SubSame(line);
    assert [] + line == line;
  }

  lemma ServedWithout(line: seq<Text>, i: nat)
    requires i < |line|
    ensures Served(line, Without(line, i), [], 1)
  {
    SubSame(line);
    SubWithout(line, line, i);
    assert [] + line == line;
  }

  lemma ServedFirst(line: seq<Text>, later: seq<Text>, joined: seq<Text>, gone: nat, text: Text)
    requires Served(line, later, joined, gone)
    ensures Served(line, [text] + later, [text] + joined, gone)
  {
    SubPrepend(later, joined + line, text);
    assert [text] + (joined + line) == [text] + joined + line;
  }

  lemma {:induction false} SubBehind(p: seq<Text>, a: seq<Text>, joined: seq<Text>)
    requires Sub(p, a)
    ensures Sub(joined + p, joined + a)
  {
    if joined == [] {
      assert joined + p == p && joined + a == a;
    } else {
      SubBehind(p, a, joined[1..]);
      SubPrepend(joined[1..] + p, joined[1..] + a, joined[0]);
      assert joined == [joined[0]] + joined[1..];
      assert joined + p == [joined[0]] + (joined[1..] + p);
      assert joined + a == [joined[0]] + (joined[1..] + a);
    }
  }

  lemma ServedThen(line: seq<Text>, between: seq<Text>, later: seq<Text>, first: seq<Text>, rest: seq<Text>, m: nat, n: nat)
    requires Served(line, between, first, m) && Served(between, later, rest, n)
    ensures Served(line, later, rest + first, m + n)
  {
    SubBehind(between, first + line, rest);
    SubOfSub(later, rest + between, rest + (first + line));
    assert rest + (first + line) == rest + first + line;
  }

  lemma CleanCut(items: seq<Text>, i: nat)
    requires i < |items| && TOMBSTONE !in items
    ensures Cut(items, i) == Without(items, i) && TOMBSTONE !in Cut(items, i)
  {
    CutKeepsOrderIff(items, i);
    assert forall p :: 0 <= p < i ==> items[p] in items;
  }

  // A text pushed where there is room, or waiting for lack of it, is last in line.
  lemma JoinsLine(max: int, w: seq<Text>, p: seq<Text>, text: Text)
    requires w != [] ==> |p| >= max
    ensures |p| < max ==> Served(w + p, w + ([text] + p), [text], 0)
    ensures Served(w + p, [text] + w + p, [text], 0)
  {
    ServedSame(w + p);
    ServedFirst(w + p, w + p, [], 0, text);
    assert [text] + (w + p) == [text] + w + p;
    assert [text] + [] == [text];
    assert w == [] ==> [text] + (w + p) == w + ([text] + p);
  }

  // Taking index i out of processing and moving up the oldest of waiting, or of global.
  lemma MovesUp(w: seq<Text>, p: seq<Text>, g: seq<Text>, i: nat)
    requires i < |p| && TOMBSTONE !in p
    ensures Served(w + p, w + Cut(p, i), [], 1)
    ensures w != [] ==> Served(w + p, w[..|w| - 1] + ([w[|w| - 1]] + Cut(p, i)), [], 1)
    ensures w == [] && g != [] ==> Served(w + p, w + ([g[|g| - 1]] + Cut(p, i)), [g[|g| - 1]], 1)
  {
    CleanCut(p, i);
    ServedWithout(w + p, |w| + i);
    var rest := w + Without(p, i);
    assert Without(w + p, |w| + i) == rest;
    if w != [] {
      assert w == w[..|w| - 1] + [w[|w| - 1]];
      assert w[..|w| - 1] + ([w[|w| - 1]] + Without(p, i)) == rest;
    } else if g != [] {
      ServedFirst(w + p, rest, [], 1, g[|g| - 1]);
      assert [g[|g| - 1]] + rest == w + ([g[|g| - 1]] + Without(p, i));
      assert [g[|g| - 1]] + [] == [g[|g| - 1]];
    }
  }

  lemma LeavesWaiting(w: seq<Text>, p: seq<Text>, j: nat)
    requires j < |w| && TOMBSTONE !in w
    ensures Served(w + p, Cut(w, j) + p, [], 1)
  {
    CleanCut(w, j);
    ServedWithout(w + p, j);
    assert Without(w + p, j) == Without(w, j) + p;
  }

  // What a backfill does when its calls work.
  lemma BackfillWorks(c: Config, s: State, k: Key, f: BackfillFaults)
    requires FillWorks(f)
    ensures var s' := Backfill(c, s, k, f).0;
            var w, p, g := Items(s, Waiting(k)), Items(s, Processing(k)), Items(s, Global);
            && (forall l :: l != k ==> Items(s', Processing(l)) == Items(s, Processing(l)) && Items(s', Waiting(l)) == Items(s, Waiting(l)))
            && (Items(s', Global) == g || (g != [] && Items(s', Global) == g[..|g| - 1]))
            && (|p| >= c.maxProcessing || (w == [] && g == []) ==> s' == s)
            && (|p| < c.maxProcessing && w != [] ==>
                  Items(s', Processing(k)) == [w[|w| - 1]] + p && Items(s', Waiting(k)) == w[..|w| - 1] && Items(s', Global) == g)
            && (|p| < c.maxProcessing && w == [] && g != [] ==>
                  Items(s', Processing(k)) == [g[|g| - 1]] + p && Items(s', Waiting(k)) == w && Items(s', Global) == g[..|g| - 1])
  {
  }

  function Refilled(c: Config, s: State, key: Key): seq<Text> {
    var w, p, g := Items(s, Waiting(key)), Items(s, Processing(key)), Items(s, Global);
    if w == [] && g != [] && |p| <= c.maxProcessing then [g[|g| - 1]] else []
  }

  // s1 is s with index i taken out of key's processing list; other lists of key are as they were.
  lemma RefillServes(c: Config, s: State, s1: State, i: nat, f: BackfillFaults, key: Key)
    requires FillWorks(f) && Clean(s, key) && i < |Items(s, Processing(key))|
    requires Items(s1, Processing(key)) == Cut(Items(s, Processing(key)), i)
    requires Items(s1, Waiting(key)) == Items(s, Waiting(key)) && Items(s1, Global) == Items(s, Global)
    ensures Served(Line(s, key), Line(Backfill(c, s1, key, f).0, key), Refilled(c, s, key), 1)
  {
    var p, w, g := Items(s, Processing(key)), Items(s, Waiting(key)), Items(s, Global);
    CutIsShorter(p, i);
    BackfillWorks(c, s1, key, f);
    MovesUp(w, p, g, i);
  }

  lemma RefillStaysClean(c: Config, s: State, k: Key, f: BackfillFaults, key: Key)
    requires FillWorks(f) && Clean(s, key)
    ensures Clean(Backfill(c, s, k, f).0, key)
  {
    BackfillWorks(c, s, k, f);
  }

  // Who joins the line in a step, newest first, and how many leave it.
  function Joins(c: Config, s: State, step: Step, key: Key): seq<Text> {
    match step
    case Insert(text, chosen, push, _) =>
      if chosen == Some(key) && Push(s, Processing(key), c.maxProcessing, text, push).1 == Done then [text] else []
    case InsertByKey(k, text, _, _, _) => if k == key && Apply(c, s, step).1 == Done then [text] else []
    case Delete(k, text, cut, _, _) => if k == key && Remove(s, Processing(key), text, cut).1 == Done then Refilled(c, s, key) else []
    case Transform(from, _, text, cut, _, _, _) =>
      if from == key && Remove(s, Processing(key), text, cut).1 == Done then Refilled(c, s, key) else []
    case _ => []
  }

  function Leaves(c: Config, s: State, step: Step, key: Key): nat {
    match step
    case Delete(k, _, _, _, _) => if k == key && Apply(c, s, step).1 == Done then 1 else 0
    case Transform(from, _, text, cut, _, _, _) => if from == key && Remove(s, Processing(key), text, cut).1 == Done then 1 else 0
    case _ => 0
  }

  // The calls work, nothing is transferred to key, key is not deleted, and no text reads like the
  // tombstone. Transfers from key and between other keys are in turn.
  predicate StepInTurn(s: State, step: Step, key: Key) {
    && Works(step) && Into(s, step, key) == 0 && !(step.DeleteKey? && step.key == key)
    && (step.Insert? || step.InsertByKey? ==> step.text != TOMBSTONE)
  }

  lemma RemoveCuts(s: State, k: ListKey, text: Text, f: RemoveFaults) returns (i: nat)
    requires Remove(s, k, text, f).1 == Done
    ensures i < |Items(s, k)| && i == FirstMatch(Items(s, k), text, Same) && Remove(s, k, text, f).0 == Put(s, k, Cut(Items(s, k), i))
  {
    i := FirstMatch(Items(s, k), text, Same);
  }

  // Index i of key's processing list is cut out and the place filled again.
  lemma CutServes(c: Config, s: State, s1: State, i: nat, fill: BackfillFaults, key: Key)
    requires Clean(s, key) && FillWorks(fill) && i < |Items(s, Processing(key))|
    requires Items(s1, Processing(key)) == Cut(Items(s, Processing(key)), i)
    requires Items(s1, Waiting(key)) == Items(s, Waiting(key)) && Items(s1, Global) == Items(s, Global)
    ensures var s' := Backfill(c, s1, key, fill).0;
            Clean(s', key) && Served(Line(s, key), Line(s', key), Refilled(c, s, key), 1)
  {
    CleanCut(Items(s, Processing(key)), i);
    RefillServes(c, s, s1, i, fill, key);
    RefillStaysClean(c, s1, key, fill, key);
  }

  // The same at another key leaves the line at key alone.
  lemma CutElsewhere(c: Config, s: State, s1: State, k: Key, fill: BackfillFaults, key: Key)
    requires Clean(s, key) && FillWorks(fill) && k != key
    requires Line(s1, key) == Line(s, key) && Clean(s1, key)
    requires Items(s1, Waiting(key)) == Items(s, Waiting(key)) && Items(s1, Processing(key)) == Items(s, Processing(key))
    ensures var s' := Backfill(c, s1, k, fill).0; Clean(s', key) && Line(s', key) == Line(s, key)
  {
    BackfillWorks(c, s1, k, fill);
  }

  lemma CutWaitingServes(s: State, j: nat, key: Key)
    requires Clean(s, key) && j < |Items(s, Waiting(key))|
    ensures var s' := Put(s, Waiting(key), Cut(Items(s, Waiting(key)), j));
            Clean(s', key) && Served(Line(s, key), Line(s', key), [], 1)
  {
    CleanCut(Items(s, Waiting(key)), j);
    LeavesWaiting(Items(s, Waiting(key)), Items(s, Processing(key)), j);
  }

  lemma DeleteServes(c: Config, s: State, text: Text, cut: RemoveFaults, cutWaiting: RemoveFaults, fill: BackfillFaults, key: Key)
    requires Clean(s, key) && FillWorks(fill)
    ensures var (s', reply) := DoDelete(c, s, key, text, cut, cutWaiting, fill);
            && Clean(s', key)
            && Served(Line(s, key), Line(s', key),
                      if Remove(s, Processing(key), text, cut).1 == Done then Refilled(c, s, key) else [], if reply == Done then 1 else 0)
  {
    var (s1, reply) := Remove(s, Processing(key), text, cut);
    if reply == Done {
      var i := RemoveCuts(s, Processing(key), text, cut);
      CutServes(c, s, s1, i, fill, key);
    } else if reply == NotFound && Remove(s, Waiting(key), text, cutWaiting).1 == Done {
      var j := RemoveCuts(s, Waiting(key), text, cutWaiting);
      CutWaitingServes(s, j, key);
    } else {
      ServedSame(Line(s, key));
    }
  }

  lemma DeleteElsewhere(c: Config, s: State, k: Key, text: Text, cut: RemoveFaults, cutWaiting: RemoveFaults, fill: BackfillFaults, key: Key)
    requires Clean(s, key) && FillWorks(fill) && k != key
    ensures var s' := DoDelete(c, s, k, text, cut, cutWaiting, fill).0; Clean(s', key) && Line(s', key) == Line(s, key)
  {
    var (s1, reply) := Remove(s, Processing(k), text, cut);
    if reply == Done {
      CutElsewhere(c, s, s1, k, fill, key);
    }
  }

  lemma TransformServes(c: Config, s: State, to: Key, text: Text, cut: RemoveFaults, undo: bool, fill: BackfillFaults, key: Key)
    requires Clean(s, key) && FillWorks(fill) && to != key && Remove(s, Processing(key), text, cut).1 == Done
    ensures var s' := DoTransform(c, s, key, to, text, cut, false, undo, fill).0;
            Clean(s', key) && Served(Line(s, key), Line(s', key), Refilled(c, s, key), 1)
  {
    var i := RemoveCuts(s, Processing(key), text, cut);
    var s1 := Remove(s, Processing(key), text, cut).0;
    CutServes(c, s, ForcePush(s1, Processing(to), text, false), i, fill, key);
  }

  lemma TransformPasses(c: Config, s: State, from: Key, to: Key, text: Text, cut: RemoveFaults, undo: bool, fill: BackfillFaults, key: Key)
    requires Clean(s, key) && FillWorks(fill) && from != key && to != key
    ensures var s' := DoTransform(c, s, from, to, text, cut, false, undo, fill).0; Clean(s', key) && Line(s', key) == Line(s, key)
  {
    var (s1, reply) := Remove(s, Processing(from), text, cut);
    if reply == Done {
      CutElsewhere(c, s, ForcePush(s1, Processing(to), text, false), from, fill, key);
    }
  }

  lemma PushServes(c: Config, s: State, k: Key, text: Text, key: Key)
    requires Clean(s, key) && WaitsForRoom(c, s, key) && text != TOMBSTONE
    ensures var s' := Put(s, Processing(k), [text] + Items(s, Processing(k)));
            |Items(s, Processing(k))| < c.maxProcessing ==>
              Clean(s', key) && Served(Line(s, key), Line(s', key), if k == key then [text] else [], 0)
    ensures var s' := Put(s, Waiting(k), [text] + Items(s, Waiting(k)));
            Clean(s', key) && Served(Line(s, key), Line(s', key), if k == key then [text] else [], 0)
    ensures var s' := Put(s, Global, [text] + Items(s, Global)); Clean(s', key) && Line(s', key) == Line(s, key)
  {
    ServedSame(Line(s, key));
    JoinsLine(c.maxProcessing, Items(s, Waiting(key)), Items(s, Processing(key)), text);
  }

  lemma InsertServes(c: Config, s: State, text: Text, chosen: Option<Key>, push: PushFaults, global: PushFaults, key: Key)
    requires Clean(s, key) && WaitsForRoom(c, s, key) && text != TOMBSTONE
    ensures var step := Insert(text, chosen, push, global); var s' := Apply(c, s, step).0;
            Clean(s', key) && Served(Line(s, key), Line(s', key), Joins(c, s, step, key), 0)
  {
    ServedSame(Line(s, key));
    GlobalPushPasses(c, s, text, global, key);
    if chosen.Some? {
      ProcessingPushServes(c, s, chosen.value, text, push, key);
    }
  }

  lemma GlobalPushPasses(c: Config, s: State, text: Text, f: PushFaults, key: Key)
    requires Clean(s, key) && text != TOMBSTONE
    ensures var s' := Push(s, Global, c.maxGlobal, text, f).0; Clean(s', key) && Line(s', key) == Line(s, key)
  {
  }

  lemma ProcessingPushServes(c: Config, s: State, k: Key, text: Text, f: PushFaults, key: Key)
    requires Clean(s, key) && WaitsForRoom(c, s, key) && text != TOMBSTONE
    ensures var (s', reply) := Push(s, Processing(k), c.maxProcessing, text, f);
            reply == Done ==> Clean(s', key) && Served(Line(s, key), Line(s', key), if k == key then [text] else [], 0)
  {
    PushServes(c, s, k, text, key);
  }

  lemma InsertByKeyServes(c: Config, s: State, text: Text, push: PushFaults, waiting: PushFaults, key: Key)
    requires Clean(s, key) && WaitsForRoom(c, s, key) && text != TOMBSTONE && !push.len && !push.push
    ensures var (s', reply) := DoInsertByKey(c, s, key, text, false, push, waiting);
            Clean(s', key) && Served(Line(s, key), Line(s', key), if reply == Done then [text] else [], 0)
  {
    ServedSame(Line(s, key));
    var s0 := DoAddKey(s, key, false);
    assert Line(s0, key) == Line(s, key);
    PushServes(c, s0, key, text, key);
  }

  lemma InsertByKeyElsewhere(c: Config, s: State, k: Key, text: Text, push: PushFaults, waiting: PushFaults, key: Key)
    requires k != key && Clean(s, key)
    ensures var s' := DoInsertByKey(c, s, k, text, false, push, waiting).0; Clean(s', key) && Line(s', key) == Line(s, key)
  {
    var s0 := DoAddKey(s, k, false);
    PushElsewhere(s0, Processing(k), c.maxProcessing, text, push, key);
    PushElsewhere(s0, Waiting(k), c.maxWaiting, text, waiting, key);
  }

  lemma PushElsewhere(s: State, k: ListKey, capacity: int, text: Text, f: PushFaults, key: Key)
    requires k != Processing(key) && k != Waiting(key) && k != Global
    ensures var s' := Push(s, k, capacity, text, f).0;
            && Items(s', Processing(key)) == Items(s, Processing(key)) && Items(s', Waiting(key)) == Items(s, Waiting(key))
            && Items(s', Global) == Items(s, Global)
  {
  }

  lemma StepServes(c: Config, s: State, step: Step, key: Key)
    requires Clean(s, key) && WaitsForRoom(c, s, key) && StepInTurn(s, step, key)
    ensures var s' := Apply(c, s, step).0;
            Clean(s', key) && Served(Line(s, key), Line(s', key), Joins(c, s, step, key), Leaves(c, s, step, key))
  {
    ServedSame(Line(s, key));
    match step
    case Insert(text, chosen, push, global) => InsertServes(c, s, text, chosen, push, global, key);
    case InsertByKey(k, text, fails, push, waiting) =>
      if !fails {
        if k == key { InsertByKeyServes(c, s, text, push, waiting, key); } else { InsertByKeyElsewhere(c, s, k, text, push, waiting, key); }
      }
    case Delete(k, text, cut, cutWaiting, fill) =>
      if k == key { DeleteServes(c, s, text, cut, cutWaiting, fill, key); }
      else { DeleteElsewhere(c, s, k, text, cut, cutWaiting, fill, key); }
    case Transform(from, to, text, cut, force, undo, fill) =>
      if Remove(s, Processing(from), text, cut).1 == Done {
        if from == key { TransformServes(c, s, to, text, cut, undo, fill, key); }
        else { TransformPasses(c, s, from, to, text, cut, undo, fill, key); }
      }
    case _ =>
  }

  predicate InTurn(c: Config, s: State, steps: seq<Step>, key: Key)
    decreases |steps|
  {
    steps == [] || (StepInTurn(s, steps[0], key) && InTurn(c, Apply(c, s, steps[0]).0, steps[1..], key))
  }

  function Joined(c: Config, s: State, steps: seq<Step>, key: Key): seq<Text>
    decreases |steps|
  {
    if steps == [] then [] else Joined(c, Apply(c, s, steps[0]).0, steps[1..], key) + Joins(c, s, steps[0], key)
  }

  function Left(c: Config, s: State, steps: seq<Step>, key: Key): nat
    decreases |steps|
  {
    if steps == [] then 0 else Leaves(c, s, steps[0], key) + Left(c, Apply(c, s, steps[0]).0, steps[1..], key)
  }

  // First come, first served: over any run in turn the line at a key is those who were in it and then
  // those who joined, in the order of joining, less exactly as many as left; so nobody overtakes.
  lemma {:induction false} FirstComeFirstServed(c: Config, s: State, steps: seq<Step>, key: Key)
    requires Clean(s, key) && WaitsForRoom(c, s, key) && InTurn(c, s, steps, key)
    ensures Served(Line(s, key), Line(After(c, s, steps), key), Joined(c, s, steps, key), Left(c, s, steps, key))
    decreases |steps|
  {
    if steps == [] {
      ServedSame(Line(s, key));
    } else {
      var s' := Apply(c, s, steps[0]).0;
      StepKeepsWaits(c, s, steps[0], key);
      StepServes(c, s, steps[0], key);
      FirstComeFirstServed(c, s', steps[1..], key);
      ServedThen(Line(s, key), Line(s', key), Line(After(c, s, steps), key),
                 Joins(c, s, steps[0], key), Joined(c, s', steps[1..], key), Leaves(c, s, steps[0], key), Left(c, s', steps[1..], key));
    }
  }

  // A transfer to a key is in turn exactly when all who wait there equal what is transferred; else
  // it overtakes them.
  lemma TransferOvertakesIff(c: Config, s: State, from: Key, to: Key, text: Text, cut: RemoveFaults, undo: bool, fill: BackfillFaults)
    requires from != to && Remove(s, Processing(from), text, cut).1 == Done
    ensures Served(Line(s, to), Line(DoTransform(c, s, from, to, text, cut, false, undo, fill).0, to), [text], 0)
       <==> forall x :: x in Items(s, Waiting(to)) ==> x == text
  {
    TransformArrives(c, s, from, to, text, cut, undo, fill);
    AheadOfWaiting(Items(s, Waiting(to)), Items(s, Processing(to)), text);
  }

  lemma AheadOfWaiting(w: seq<Text>, p: seq<Text>, text: Text)
    ensures Served(w + p, w + ([text] + p), [text], 0) <==> forall x :: x in w ==> x == text
  {
    var later := w + ([text] + p);
    AheadIsBehind(w, text);
    assert later == (w + [text]) + p && [text] + (w + p) == ([text] + w) + p;
    if Sub(later, [text] + (w + p)) {
      SubOfSameLength(later, [text] + (w + p));
      assert later[..|w| + 1] == w + [text] && ([text] + (w + p))[..|w| + 1] == [text] + w;
    } else {
      SubSame([text] + (w + p));
    }
  }

  lemma TransformArrives(c: Config, s: State, from: Key, to: Key, text: Text, cut: RemoveFaults, undo: bool, fill: BackfillFaults)
    requires from != to && Remove(s, Processing(from), text, cut).1 == Done
    ensures var s' := DoTransform(c, s, from, to, text, cut, false, undo, fill).0;
            Items(s', Processing(to)) == [text] + Items(s, Processing(to)) && Items(s', Waiting(to)) == Items(s, Waiting(to))
  {
    RemoveFinds(s, Processing(from), text, cut);
    BackfillStaysAtKey(c, ForcePush(Remove(s, Processing(from), text, cut).0, Processing(to), text, false), from, fill);
  }

  // A transfer of a text onto its own key keeps it exactly when it was the newest in processing
  // already, or nothing else waits; what the backfill then moves up from global joins after it.
  lemma TransferOntoSelfIff(c: Config, s: State, key: Key, text: Text, cut: RemoveFaults, undo: bool, fill: BackfillFaults)
    requires Clean(s, key) && WaitsForRoom(c, s, key) && FillWorks(fill) && Remove(s, Processing(key), text, cut).1 == Done
    ensures var w, p, g := Items(s, Waiting(key)), Items(s, Processing(key)), Items(s, Global);
            var joined := (if |p| < c.maxProcessing && g != [] then [g[|g| - 1]] else []) + [text];
            Served(Line(s, key), Line(DoTransform(c, s, key, key, text, cut, false, undo, fill).0, key), joined, 1) <==>
              (forall x :: x in w ==> x == text) || p[0] == text
  {
    var w, p, g := Items(s, Waiting(key)), Items(s, Processing(key)), Items(s, Global);
    var i := RemoveCuts(s, Processing(key), text, cut);
    OntoSelfLine(c, s, key, text, cut, undo, fill, i);
    FirstIsNewest(p, text, i);
    RequeueServes(w, p, i, text, if |p| < c.maxProcessing && g != [] then [g[|g| - 1]] else []);
  }

  lemma RequeueServes(w: seq<Text>, p: seq<Text>, i: nat, text: Text, up: seq<Text>)
    requires i < |p| && |up| <= 1 && (up != [] ==> w == [])
    ensures Served(w + p, up + (w + ([text] + Without(p, i))), up + [text], 1)
       <==> (forall x :: x in w ==> x == text) || (forall q :: 0 <= q <= i ==> p[q] == text)
  {
    RequeueFirstIff(w, p, i, text);
    var later := w + ([text] + Without(p, i));
    if up == [] {
      assert up + later == later && up + [text] == [text];
    } else {
      assert up == [up[0]];
      ServedFirst(w + p, later, [text], 1, up[0]);
    }
  }

  lemma FirstIsNewest(p: seq<Text>, text: Text, i: nat)
    requires i < |p| && i == FirstMatch(p, text, Same)
    ensures (forall q :: 0 <= q <= i ==> p[q] == text) <==> p[0] == text
  {
    assert i > 0 ==> !Same(p[0], text);
  }

  lemma OntoSelfLine(c: Config, s: State, key: Key, text: Text, cut: RemoveFaults, undo: bool, fill: BackfillFaults, i: nat)
    requires Clean(s, key) && WaitsForRoom(c, s, key) && FillWorks(fill) && Remove(s, Processing(key), text, cut).1 == Done
    requires i < |Items(s, Processing(key))| && i == FirstMatch(Items(s, Processing(key)), text, Same)
    ensures var w, p, g := Items(s, Waiting(key)), Items(s, Processing(key)), Items(s, Global);
            var later := w + ([text] + Without(p, i));
            Line(DoTransform(c, s, key, key, text, cut, false, undo, fill).0, key)
            == (if |p| < c.maxProcessing && g != [] then [g[|g| - 1]] else []) + later
  {
    var w, p, g := Items(s, Waiting(key)), Items(s, Processing(key)), Items(s, Global);
    CleanCut(p, i);
    OntoSelf(s, key, text, cut, i);
    BackfillWorks(c, ForcePush(Remove(s, Processing(key), text, cut).0, Processing(key), text, false), key, fill);
    if w == [] {
      assert w + ([text] + Without(p, i)) == [text] + Without(p, i);
    }
  }

  lemma OntoSelf(s: State, key: Key, text: Text, cut: RemoveFaults, i: nat)
    requires Remove(s, Processing(key), text, cut).1 == Done
    requires i < |Items(s, Processing(key))| && i == FirstMatch(Items(s, Processing(key)), text, Same)
    ensures var s2 := ForcePush(Remove(s, Processing(key), text, cut).0, Processing(key), text, false);
            && Items(s2, Processing(key)) == [text] + Cut(Items(s, Processing(key)), i)
            && Items(s2, Waiting(key)) == Items(s, Waiting(key)) && Items(s2, Global) == Items(s, Global)
  {
  }

  // ----- a run that overtakes -----

  const CROWDED := State(map[Processing("a") := ["1"], Processing("b") := ["2"], Waiting("a") := ["3"]], ["a", "b"], None)
  const NO_FAULT := PushFaults(false, false)

  lemma Crowd(c: Config)
    requires c.maxProcessing == 1 && c.maxWaiting == 1
    ensures After(c, START, [InsertByKey("a", "1", false, NO_FAULT, NO_FAULT), InsertByKey("b", "2", false, NO_FAULT, NO_FAULT),
                             InsertByKey("a", "3", false, NO_FAULT, NO_FAULT)]) == CROWDED
  {
    var first, second := InsertByKey("a", "1", false, NO_FAULT, NO_FAULT), InsertByKey("b", "2", false, NO_FAULT, NO_FAULT);
    var third := InsertByKey("a", "3", false, NO_FAULT, NO_FAULT);
    var s1 := State(map[Processing("a") := ["1"]], ["a"], None);
    var s2 := State(map[Processing("a") := ["1"], Processing("b") := ["2"]], ["a", "b"], None);
    FirstText(c, START, "a", "1");
    FirstText(c, s1, "b", "2");
    assert [] + ["a"] == ["a"] && ["a"] + ["b"] == ["a", "b"];
    assert Apply(c, s2, third).0 == CROWDED by {
      assert DoAddKey(s2, "a", false) == s2;
      assert ["3"] + Items(s2, Waiting("a")) == ["3"];
      assert Put(s2, Waiting("a"), ["3"]) == CROWDED;
    }
    assert [first, second, third][1..] == [second, third];
    assert [second, third][1..] == [third];
    assert [third][1..] == [];
    assert After(c, s2, [third]) == After(c, CROWDED, []);
    assert After(c, s1, [second, third]) == After(c, s2, [third]);
  }

  lemma FirstText(c: Config, s: State, key: Key, text: Text)
    requires c.maxProcessing == 1 && Processing(key) !in s.lists
    ensures Apply(c, s, InsertByKey(key, text, false, NO_FAULT, NO_FAULT)).0
            == s.(lists := s.lists[Processing(key) := [text]], keys := s.keys + [key])
  {
    assert [text] + [] == [text];
  }

  // With one place a key, 3 waits behind 1 at a, and 2 is transferred to a from b: it overtakes 3.
  lemma OvertakesInRun(c: Config, undo: bool, fill: BackfillFaults)
    requires c.maxProcessing == 1 && c.maxWaiting == 1
    ensures After(c, START, [InsertByKey("a", "1", false, NO_FAULT, NO_FAULT), InsertByKey("b", "2", false, NO_FAULT, NO_FAULT),
                             InsertByKey("a", "3", false, NO_FAULT, NO_FAULT)]) == CROWDED
    ensures var s' := DoTransform(c, CROWDED, "b", "a", "2", RemoveFaults(false, false), false, undo, fill).0;
            !Served(Line(CROWDED, "a"), Line(s', "a"), ["2"], 0)
  {
    Crowd(c);
    FirstMatchAt(["2"], "2", Same, 0);
    TransferOvertakesIff(c, CROWDED, "b", "a", "2", RemoveFaults(false, false), undo, fill);
    assert "3" in Items(CROWDED, Waiting("a"));
  }

  // ----- position in the global queue -----

  // The list after n RPOPs.
  function Popped(items: seq<Text>, n: nat): seq<Text>
    requires n <= |items|
  {
    if n == 0 then items else Popped(items[..|items| - 1], n - 1)
  }

  lemma {:induction false} PoppedIs(items: seq<Text>, n: nat)
    requires n <= |items|
    ensures Popped(items, n) == items[..|items| - n]
    decreases n
  {
    if n > 0 {
      PoppedIs(items[..|items| - 1], n - 1);
      assert items[..|items| - 1][..|items| - n] == items[..|items| - n];
    }
  }

  function NextOut(items: seq<Text>): Option<Text> {
    if items == [] then None else Some(items[|items| - 1])
  }

  // position RPOPs come before text's first turn.
  predicate IsTurn(items: seq<Text>, text: Text, position: nat) {
    && position < |items| && NextOut(Popped(items, position)) == Some(text)
    && forall n :: 0 <= n < position ==> NextOut(Popped(items, n)) != Some(text)
  }

  lemma TurnIs(items: seq<Text>, text: Text, i: nat)
    requires i < |items| && items[i] == text && forall j :: i < j < |items| ==> items[j] != text
    ensures IsTurn(items, text, |items| - 1 - i)
  {
    forall n: nat | n <= |items| - 1 - i ensures NextOut(Popped(items, n)) == Some(items[|items| - 1 - n]) {
      PoppedIs(items, n);
    }
  }
}
