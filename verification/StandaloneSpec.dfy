/** The in-memory task queue manager (queue/task/standalonetask), its operations one at a time. */
module StandaloneSpec {
  import opened Basics
  import opened BoundQueueSpec
  import opened RoundRobin

  type Key = string
  type Task = nat

  datatype Strategy = RoundRobinTask | LeastTask

  // eq is equalDataFunc: any relation, not necessarily equality.
  datatype Config = Config(maxGlobal: int, maxProcessing: int, maxWaiting: int, eq: (Task, Task) -> bool, strategy: Strategy)

  datatype TaskQueue = TaskQueue(processing: seq<Task>, waiting: seq<Task>)

  const EMPTY := TaskQueue([], [])

  datatype State = State(global: seq<Task>, queues: map<Key, TaskQueue>, keys: seq<Key>, last: int)

  const START := State([], map[], [], -1)

  datatype Reply = Pushed | Queued | NotFound | GlobalFull | WaitingFull

  // least is the key LeastTask's map iteration came out with.
  datatype Step =
    | AddKey(key: Key)
    | Insert(data: Task, least: Key)
    | InsertByKey(key: Key, data: Task)
    | Delete(key: Key, data: Task)
    | DeleteKey(key: Key)
    | Transform(from: Key, to: Key, data: Task)
    | AutoTransform(from: Key, data: Task, least: Key)

  function Full(c: Config, s: State): (r: set<Key>) {
    set k | k in s.queues && |s.queues[k].processing| >= c.maxProcessing
  }

  predicate IsLeast(queues: map<Key, TaskQueue>, k: Key) {
    k in queues && forall l :: l in queues ==> |queues[k].processing| <= |queues[l].processing|
  }

  predicate Enabled(c: Config, s: State, step: Step) {
    match step
    case Insert(_, least) => c.strategy.LeastTask? && s.queues != map[] ==> IsLeast(s.queues, least)
    case AutoTransform(_, _, least) => c.strategy.LeastTask? && s.queues != map[] ==> IsLeast(s.queues, least)
    case _ => true
  }

  // The key assigned, and the round-robin state after.
  function Assign(c: Config, s: State, least: Key): (Option<Key>, State) {
    match c.strategy
    case LeastTask => (if s.queues == map[] then None else Some(least), s)
    case RoundRobinTask =>
      if s.last < -1 then (None, s)
      else
        match Pick(s.keys, s.last, Full(c, s))
        case None => (None, s)
        case Some(i) => (Some(s.keys[i]), s.(last := i))
  }

  function GetOrCreate(s: State, key: Key): State {
    if key in s.queues then s else s.(queues := s.queues[key := EMPTY], keys := s.keys + [key])
  }

  predicate SameKeys(s: State, r: State) {
    r.queues.Keys == s.queues.Keys && r.keys == s.keys && r.last == s.last
  }

  function PutGlobal(c: Config, s: State, data: Task): (r: (State, Reply))
    ensures SameKeys(s, r.0)
  {
    if |s.global| < c.maxGlobal then (s.(global := s.global + [data]), Queued) else (s, GlobalFull)
  }

  function WithProcessing(s: State, key: Key, processing: seq<Task>): (r: State)
    requires key in s.queues
    ensures SameKeys(s, r)
  {
    s.(queues := s.queues[key := s.queues[key].(processing := processing)])
  }

  function WithWaiting(s: State, key: Key, waiting: seq<Task>): (r: State)
    requires key in s.queues
    ensures SameKeys(s, r)
  {
    s.(queues := s.queues[key := s.queues[key].(waiting := waiting)])
  }

  // A push that finds the processing queue full leaves it as it is; the error is dropped.
  function TryProcess(c: Config, s: State, key: Key, data: Task): (r: State)
    requires key in s.queues
    ensures SameKeys(s, r)
  {
    var q := s.queues[key].processing;
    if |q| >= c.maxProcessing then s else WithProcessing(s, key, q + [data])
  }

  function DoInsert(c: Config, s: State, data: Task, least: Key): (State, Reply) {
    var (k, s') := Assign(c, s, least);
    if k.Some? && k.value in s'.queues && |s'.queues[k.value].processing| < c.maxProcessing
    then (TryProcess(c, s', k.value, data), Pushed)
    else PutGlobal(c, s', data)
  }

  function DoInsertByKey(c: Config, s: State, key: Key, data: Task): (State, Reply) {
    var s' := GetOrCreate(s, key);
    if |s'.queues[key].processing| < c.maxProcessing then (TryProcess(c, s', key, data), Pushed)
    else if |s'.queues[key].waiting| < c.maxWaiting then (WithWaiting(s', key, s'.queues[key].waiting + [data]), Queued)
    else (s', WaitingFull)
  }

  function Backfill(c: Config, s: State, key: Key): (r: State)
    requires key in s.queues
    ensures SameKeys(s, r)
  {
    var waiting := s.queues[key].waiting;
    if waiting != [] then TryProcess(c, WithWaiting(s, key, waiting[1..]), key, waiting[0])
    else if s.global != [] then TryProcess(c, s.(global := s.global[1..]), key, s.global[0])
    else s
  }

  function DoDelete(c: Config, s: State, key: Key, data: Task): (r: (State, Reply))
    ensures SameKeys(s, r.0)
  {
    if key !in s.queues then (s, NotFound)
    else
      var q := s.queues[key];
      var i := FirstMatch(q.processing, data, c.eq);
      if i >= 0 then (Backfill(c, WithProcessing(s, key, Without(q.processing, i)), key), Pushed)
      else
        var j := FirstMatch(q.waiting, data, c.eq);
        if j >= 0 then (WithWaiting(s, key, Without(q.waiting, j)), Pushed) else (s, NotFound)
  }

  predicate SameKey(a: Key, b: Key) { a == b }

  function DropKey(keys: seq<Key>, last: int, key: Key): (seq<Key>, int) {
    var i := FirstMatch(keys, key, SameKey);
    if i < 0 then (keys, last)
    else
      var rest := Without(keys, i);
      (rest, if last >= |rest| && |rest| > 0 then |rest| - 1 else last)
  }

  function DoDeleteKey(s: State, key: Key): State {
    if key !in s.queues then s
    else
      var (keys, last) := DropKey(s.keys, s.last, key);
      State(s.global, s.queues - {key}, keys, last)
  }

  // The task removed is whichever matches data; the task pushed is data itself.
  function DoTransform(c: Config, s: State, from: Key, to: Key, data: Task): (State, Reply) {
    if from !in s.queues then (s, NotFound)
    else
      var s' := GetOrCreate(s, to);
      var q := s'.queues[from].processing;
      var i := FirstMatch(q, data, c.eq);
      if i < 0 then (s', NotFound)
      else
        var s'' := WithProcessing(s', from, Without(q, i));
        (WithProcessing(s'', to, s''.queues[to].processing + [data]), Pushed)
  }

  function Apply(c: Config, s: State, step: Step): (State, Reply) {
    match step
    case AddKey(key) => (GetOrCreate(s, key), Pushed)
    case Insert(data, least) => DoInsert(c, s, data, least)
    case InsertByKey(key, data) => DoInsertByKey(c, s, key, data)
    case Delete(key, data) => DoDelete(c, s, key, data)
    case DeleteKey(key) => (DoDeleteKey(s, key), Pushed)
    case Transform(from, to, data) => DoTransform(c, s, from, to, data)
    case AutoTransform(from, data, least) =>
      var (k, s') := Assign(c, s, least);
      if k.None? then (s, NotFound) else DoTransform(c, s', from, k.value, data)
  }

  predicate IsRun(c: Config, s: State, steps: seq<Step>)
    decreases |steps|
  {
    steps == [] || (Enabled(c, s, steps[0]) && IsRun(c, Apply(c, s, steps[0]).0, steps[1..]))
  }

  function After(c: Config, s: State, steps: seq<Step>): State
    decreases |steps|
  {
    if steps == [] then s else After(c, Apply(c, s, steps[0]).0, steps[1..])
  }

  // ----- keys and index -----

  function Max(a: int, b: int): int { if a >= b then a else b }

  predicate Distinct(keys: seq<Key>) {
    forall i, j :: 0 <= i < j < |keys| ==> keys[i] != keys[j]
  }

  ghost predicate KeysOk(names: set<Key>, keys: seq<Key>, last: int) {
    && Distinct(keys)
    && (forall k :: k in names <==> k in keys)
    && -1 <= last < Max(1, |keys|)
  }

  lemma GetOrCreateKeys(s: State, key: Key)
    requires KeysOk(s.queues.Keys, s.keys, s.last)
    ensures var s' := GetOrCreate(s, key); KeysOk(s'.queues.Keys, s'.keys, s'.last) && key in s'.queues
  {
  }

  lemma AssignKeys(c: Config, s: State, least: Key)
    requires KeysOk(s.queues.Keys, s.keys, s.last)
    requires c.strategy.LeastTask? && s.queues != map[] ==> IsLeast(s.queues, least)
    ensures var (k, s') := Assign(c, s, least);
            && KeysOk(s'.queues.Keys, s'.keys, s'.last) && s' == s.(last := s'.last)
            && (k.Some? ==> k.value in s.queues)
  {
  }

  lemma WithoutKeys(keys: seq<Key>, i: nat)
    requires i < |keys| && Distinct(keys)
    ensures var rest := Without(keys, i); Distinct(rest) && forall k :: k in rest <==> k in keys && k != keys[i]
  {
    var rest := Without(keys, i);
    assert forall j :: 0 <= j < |rest| ==> rest[j] == keys[if j < i then j else j + 1];
    forall k | k in keys && k != keys[i] ensures k in rest {
      var j :| 0 <= j < |keys| && keys[j] == k;
      assert rest[if j < i then j else j - 1] == k;
    }
  }

  lemma DeleteKeyKeys(s: State, key: Key)
    requires KeysOk(s.queues.Keys, s.keys, s.last)
    ensures var s' := DoDeleteKey(s, key); KeysOk(s'.queues.Keys, s'.keys, s'.last)
  {
    if key in s.queues {
      DropKeeps(s.queues.Keys, s.keys, s.last, key);
    }
  }

  lemma DropKeeps(names: set<Key>, keys: seq<Key>, last: int, key: Key)
    requires KeysOk(names, keys, last) && key in names
    ensures var (rest, last') := DropKey(keys, last, key); KeysOk(names - {key}, rest, last')
  {
    var i := FirstMatch(keys, key, SameKey);
    var p :| 0 <= p < |keys| && keys[p] == key;
    assert SameKey(keys[p], key);
    WithoutKeys(keys, i);
    DropLast(keys, last, i);
  }

  lemma DropLast(keys: seq<Key>, last: int, i: nat)
    requires i < |keys| && -1 <= last < Max(1, |keys|)
    ensures var rest := Without(keys, i);
            -1 <= (if last >= |rest| && |rest| > 0 then |rest| - 1 else last) < Max(1, |rest|)
  {
  }

  lemma StepKeepsKeys(c: Config, s: State, step: Step)
    requires KeysOk(s.queues.Keys, s.keys, s.last) && Enabled(c, s, step)
    ensures var s' := Apply(c, s, step).0; KeysOk(s'.queues.Keys, s'.keys, s'.last)
  {
    match step
    case AddKey(key) => GetOrCreateKeys(s, key);
    case Insert(_, least) => AssignKeys(c, s, least);
    case InsertByKey(key, _) => GetOrCreateKeys(s, key);
    case Delete(_, _) =>
    case DeleteKey(key) => DeleteKeyKeys(s, key);
    case Transform(_, to, _) => GetOrCreateKeys(s, to);
    case AutoTransform(_, _, least) =>
      AssignKeys(c, s, least);
      var (k, s') := Assign(c, s, least);
      if k.Some? { GetOrCreateKeys(s', k.value); }
  }

  // ----- where an insert goes -----

  // Under either strategy a task goes to a processing queue exactly when one of them has room,
  // otherwise to the global queue, and is refused exactly when that is full too.
  lemma InsertGoesWhereThereIsRoom(c: Config, s: State, data: Task, least: Key)
    requires KeysOk(s.queues.Keys, s.keys, s.last) && Enabled(c, s, Insert(data, least))
    ensures var (s', reply) := DoInsert(c, s, data, least); var room := exists k :: k in s.queues && k !in Full(c, s);
            && (reply == Pushed <==> room)
            && (reply == Queued <==> !room && |s.global| < c.maxGlobal)
            && (reply == GlobalFull <==> !room && |s.global| >= c.maxGlobal)
            && (reply == Pushed ==>
                  exists k :: k in s.queues && k !in Full(c, s) && s'.global == s.global
                              && s'.queues == s.queues[k := s.queues[k].(processing := s.queues[k].processing + [data])])
  {
    match c.strategy
    case RoundRobinTask =>
      PickIsNearest(s.keys, s.last, Full(c, s));
    case LeastTask =>
      if s.queues != map[] && exists k :: k in s.queues && k !in Full(c, s) {
        assert least !in Full(c, s);
      }
  }

  // ----- capacities -----

  // Whether the step moved a task into key's processing queue past its capacity check.
  function Into(c: Config, s: State, step: Step, key: Key): nat {
    match step
    case Transform(_, to, _) => if to == key && Apply(c, s, step).1 == Pushed then 1 else 0
    case AutoTransform(_, _, least) => if Assign(c, s, least).0 == Some(key) && Apply(c, s, step).1 == Pushed then 1 else 0
    case _ => 0
  }

  function Transfers(c: Config, s: State, steps: seq<Step>, key: Key): nat
    decreases |steps|
  {
    if steps == [] then 0 else Into(c, s, steps[0], key) + Transfers(c, Apply(c, s, steps[0]).0, steps[1..], key)
  }

  predicate Bounded(c: Config, s: State, key: Key, excess: nat) {
    && |s.global| <= Max(0, c.maxGlobal)
    && (key in s.queues ==>
          |s.queues[key].waiting| <= Max(0, c.maxWaiting) && |s.queues[key].processing| <= Max(0, c.maxProcessing) + excess)
  }

  lemma DeleteBounded(c: Config, s: State, k: Key, data: Task, key: Key, excess: nat)
    requires Bounded(c, s, key, excess)
    ensures Bounded(c, DoDelete(c, s, k, data).0, key, excess)
  {
    if k in s.queues {
      var q := s.queues[k];
      var i := FirstMatch(q.processing, data, c.eq);
      if i >= 0 {
        var t := WithProcessing(s, k, Without(q.processing, i));
        assert Bounded(c, t, key, excess);
        BackfillBounded(c, t, k, key, excess);
      }
    }
  }

  lemma BackfillBounded(c: Config, s: State, k: Key, key: Key, excess: nat)
    requires Bounded(c, s, key, excess) && k in s.queues
    ensures Bounded(c, Backfill(c, s, k), key, excess)
  {
  }

  lemma TransformBounded(c: Config, s: State, from: Key, to: Key, data: Task, key: Key, excess: nat)
    requires Bounded(c, s, key, excess)
    ensures var (s', reply) := DoTransform(c, s, from, to, data);
            Bounded(c, s', key, if to == key && reply == Pushed then excess + 1 else excess)
  {
    assert Bounded(c, GetOrCreate(s, to), key, excess);
  }

  lemma StepBounded(c: Config, s: State, step: Step, key: Key, excess: nat)
    requires Bounded(c, s, key, excess)
    ensures Bounded(c, Apply(c, s, step).0, key, excess + Into(c, s, step, key))
  {
    match step
    case AddKey(_) =>
    case Insert(data, least) => InsertBounded(c, s, data, least, key, excess);
    case InsertByKey(k, data) => InsertByKeyBounded(c, s, k, data, key, excess);
    case Delete(k, data) => DeleteBounded(c, s, k, data, key, excess);
    case DeleteKey(_) =>
    case Transform(from, to, data) => TransformBounded(c, s, from, to, data, key, excess);
    case AutoTransform(from, data, least) =>
      var (k, t) := Assign(c, s, least);
      if k.Some? {
        TransformBounded(c, t, from, k.value, data, key, excess);
      }
  }

  lemma InsertBounded(c: Config, s: State, data: Task, least: Key, key: Key, excess: nat)
    requires Bounded(c, s, key, excess)
    ensures Bounded(c, DoInsert(c, s, data, least).0, key, excess)
  {
    var s' := Assign(c, s, least).1;
    assert s'.queues == s.queues && s'.global == s.global;
  }

  lemma InsertByKeyBounded(c: Config, s: State, k: Key, data: Task, key: Key, excess: nat)
    requires Bounded(c, s, key, excess)
    ensures Bounded(c, DoInsertByKey(c, s, k, data).0, key, excess)
  {
    assert Bounded(c, GetOrCreate(s, k), key, excess);
  }

  lemma {:induction false} RunBounded(c: Config, s: State, steps: seq<Step>, key: Key, excess: nat)
    requires Bounded(c, s, key, excess)
    ensures Bounded(c, After(c, s, steps), key, excess + Transfers(c, s, steps, key))
    decreases |steps|
  {
    if steps != [] {
      StepBounded(c, s, steps[0], key, excess);
      RunBounded(c, Apply(c, s, steps[0]).0, steps[1..], key, excess + Into(c, s, steps[0], key));
    }
  }

  lemma {:induction false} RunKeepsKeys(c: Config, s: State, steps: seq<Step>)
    requires KeysOk(s.queues.Keys, s.keys, s.last) && IsRun(c, s, steps)
    ensures var e := After(c, s, steps); KeysOk(e.queues.Keys, e.keys, e.last)
    decreases |steps|
  {
    if steps != [] {
      StepKeepsKeys(c, s, steps[0]);
      RunKeepsKeys(c, Apply(c, s, steps[0]).0, steps[1..]);
    }
  }

  // After any run of calls: the ordered keys are the queues' keys, each once; the index stays in
  // range, so whatever key is assigned has a queue; waiting and global queues respect their
  // capacity, and a processing queue exceeds its own by at most the transfers into it.
  lemma ManagerInvariant(c: Config, steps: seq<Step>, key: Key, least: Key)
    requires IsRun(c, START, steps)
    ensures var s := After(c, START, steps);
            && KeysOk(s.queues.Keys, s.keys, s.last)
            && Bounded(c, s, key, Transfers(c, START, steps, key))
            && (Enabled(c, s, Insert(0, least)) && Assign(c, s, least).0.Some? ==> Assign(c, s, least).0.value in s.queues)
  {
    RunKeepsKeys(c, START, steps);
    RunBounded(c, START, steps, key, 0);
    var s := After(c, START, steps);
    if Enabled(c, s, Insert(0, least)) {
      AssignKeys(c, s, least);
    }
  }

  predicate WaitsForRoom(c: Config, s: State, key: Key) {
    key in s.queues && s.queues[key].waiting != [] ==> |s.queues[key].processing| >= c.maxProcessing
  }

  lemma DeleteKeepsWaits(c: Config, s: State, k: Key, data: Task, key: Key)
    requires WaitsForRoom(c, s, key)
    ensures WaitsForRoom(c, DoDelete(c, s, k, data).0, key)
  {
    if k in s.queues {
      var q := s.queues[k];
      var i := FirstMatch(q.processing, data, c.eq);
      if i >= 0 {
        RefillKeepsWaits(c, s, k, i, key);
      }
    }
  }

  lemma RefillKeepsWaits(c: Config, s: State, k: Key, i: nat, key: Key)
    requires WaitsForRoom(c, s, key)
    requires k in s.queues && i < |s.queues[k].processing|
    ensures WaitsForRoom(c, Backfill(c, WithProcessing(s, k, Without(s.queues[k].processing, i)), k), key)
  {
    BackfillKeepsWaits(c, WithProcessing(s, k, Without(s.queues[k].processing, i)), k, key);
  }

  // One place short is made up by the backfill.
  lemma BackfillKeepsWaits(c: Config, s: State, k: Key, key: Key)
    requires k in s.queues && (k != key ==> WaitsForRoom(c, s, key))
    requires k == key && s.queues[k].waiting != [] ==> |s.queues[k].processing| + 1 >= c.maxProcessing
    ensures WaitsForRoom(c, Backfill(c, s, k), key)
  {
  }

  // Where a transfer goes.
  function Target(c: Config, s: State, step: Step): Option<Key> {
    match step
    case Transform(_, to, _) => Some(to)
    case AutoTransform(_, _, least) => Assign(c, s, least).0
    case _ => None
  }

  // A transfer to elsewhere that takes from a processing queue just full while others wait for it.
  predicate Strands(c: Config, s: State, step: Step, key: Key) {
    && (step.Transform? || step.AutoTransform?) && step.from == key
    && Target(c, s, step).Some? && Target(c, s, step) != Some(key)
    && TransformHit(c, s, key, step.data).Some?
    && s.queues[key].waiting != [] && |s.queues[key].processing| == c.maxProcessing
  }

  lemma TransformWaitsIff(c: Config, s: State, from: Key, to: Key, data: Task, key: Key)
    requires WaitsForRoom(c, s, key)
    ensures WaitsForRoom(c, DoTransform(c, s, from, to, data).0, key) <==> !Strands(c, s, Transform(from, to, data), key)
  {
    TransformLengths(c, s, from, to, data, key);
  }

  // The two lengths of a key's queues after a transfer.
  lemma TransformLengths(c: Config, s: State, from: Key, to: Key, data: Task, key: Key)
    ensures var s', hit := DoTransform(c, s, from, to, data).0, TransformHit(c, s, from, data).Some?;
            && (key in s.queues ==>
                  && key in s'.queues && s'.queues[key].waiting == s.queues[key].waiting
                  && |s'.queues[key].processing|
                     == |s.queues[key].processing| - (if hit && key == from then 1 else 0) + (if hit && key == to then 1 else 0))
            && (key !in s.queues && key in s'.queues ==> s'.queues[key].waiting == [])
  {
    CreateAt(s, to, key);
    if TransformHit(c, s, from, data).Some? {
      var s1 := GetOrCreate(s, to);
      MoveEnds(c, s, from, to, data);
      var i := FirstMatch(s.queues[from].processing, data, c.eq);
      var rest := Without(s.queues[from].processing, i);
      var s2 := WithProcessing(s1, from, rest);
      ProcessingAt(s1, from, rest, key);
      ProcessingAt(s2, to, s2.queues[to].processing + [data], key);
    } else if from in s.queues {
      MissEnds(c, s, from, to, data);
    }
  }

  lemma CreateAt(s: State, k: Key, key: Key)
    ensures var s' := GetOrCreate(s, k);
            && (key in s.queues ==> key in s'.queues && s'.queues[key] == s.queues[key])
            && (key !in s.queues && key in s'.queues ==> s'.queues[key] == EMPTY)
  {
  }

  lemma ProcessingAt(s: State, k: Key, processing: seq<Task>, key: Key)
    requires k in s.queues
    ensures var s' := WithProcessing(s, k, processing);
            && (key in s'.queues <==> key in s.queues)
            && (key in s.queues ==>
                  && s'.queues[key].waiting == s.queues[key].waiting
                  && s'.queues[key].processing == if key == k then processing else s.queues[key].processing)
  {
  }

  lemma InsertWaits(c: Config, s: State, data: Task, least: Key, key: Key)
    requires WaitsForRoom(c, s, key)
    ensures WaitsForRoom(c, DoInsert(c, s, data, least).0, key)
  {
    var s' := Assign(c, s, least).1;
    assert s'.queues == s.queues;
  }

  lemma InsertByKeyWaits(c: Config, s: State, k: Key, data: Task, key: Key)
    requires WaitsForRoom(c, s, key)
    ensures WaitsForRoom(c, DoInsertByKey(c, s, k, data).0, key)
  {
    assert WaitsForRoom(c, GetOrCreate(s, k), key);
  }

  lemma AutoTransformWaitsIff(c: Config, s: State, from: Key, data: Task, least: Key, key: Key)
    requires WaitsForRoom(c, s, key)
    ensures var step := AutoTransform(from, data, least); WaitsForRoom(c, Apply(c, s, step).0, key) <==> !Strands(c, s, step, key)
  {
    var (k, s') := Assign(c, s, least);
    assert s'.queues == s.queues;
    if k.Some? {
      TransformWaitsIff(c, s', from, k.value, data, key);
    }
  }

  // Whatever the step, it leaves nobody waiting for a key with room exactly when it is not such a transfer.
  lemma StepWaitsIff(c: Config, s: State, step: Step, key: Key)
    requires WaitsForRoom(c, s, key)
    ensures WaitsForRoom(c, Apply(c, s, step).0, key) <==> !Strands(c, s, step, key)
  {
    match step
    case AddKey(_) =>
    case Insert(data, least) => InsertWaits(c, s, data, least, key);
    case InsertByKey(k, data) => InsertByKeyWaits(c, s, k, data, key);
    case Delete(k, data) => DeleteKeepsWaits(c, s, k, data, key);
    case DeleteKey(_) =>
    case Transform(from, to, data) => TransformWaitsIff(c, s, from, to, data, key);
    case AutoTransform(from, data, least) => AutoTransformWaitsIff(c, s, from, data, least, key);
  }

  predicate NeverStrands(c: Config, s: State, steps: seq<Step>, key: Key)
    decreases |steps|
  {
    steps == [] || (!Strands(c, s, steps[0], key) && NeverStrands(c, Apply(c, s, steps[0]).0, steps[1..], key))
  }

  predicate AlwaysWaitsForRoom(c: Config, s: State, steps: seq<Step>, key: Key)
    decreases |steps|
  {
    WaitsForRoom(c, s, key) && (steps == [] || AlwaysWaitsForRoom(c, Apply(c, s, steps[0]).0, steps[1..], key))
  }

  // In every state of a run whoever waits for a key waits because its processing queue is full, if and
  // only if no step of the run is such a transfer.
  lemma {:induction false} WaitingMeansFullIff(c: Config, s: State, steps: seq<Step>, key: Key)
    requires WaitsForRoom(c, s, key)
    ensures AlwaysWaitsForRoom(c, s, steps, key) <==> NeverStrands(c, s, steps, key)
    decreases |steps|
  {
    if steps != [] {
      var s' := Apply(c, s, steps[0]).0;
      StepWaitsIff(c, s, steps[0], key);
      if WaitsForRoom(c, s', key) {
        WaitingMeansFullIff(c, s', steps[1..], key);
      }
    }
  }

  // In particular when no transfer takes from the key, however many go to it or pass elsewhere.
  lemma {:induction false} WaitingMeansFull(c: Config, s: State, steps: seq<Step>, key: Key)
    requires WaitsForRoom(c, s, key)
    requires forall i :: 0 <= i < |steps| && (steps[i].Transform? || steps[i].AutoTransform?) ==> steps[i].from != key
    ensures WaitsForRoom(c, After(c, s, steps), key)
    decreases |steps|
  {
    if steps != [] {
      StepWaitsIff(c, s, steps[0], key);
      WaitingMeansFull(c, Apply(c, s, steps[0]).0, steps[1..], key);
    }
  }

  // Such a transfer happens in a run of three calls.
  lemma TransferStrandsWaiting(c: Config)
    requires c.maxProcessing == 1 && c.maxWaiting == 1 && c.eq(1, 1)
    ensures !WaitsForRoom(c, After(c, START, [InsertByKey("a", 1), InsertByKey("a", 2), Transform("a", "b", 1)]), "a")
  {
    var q0, q1, q2 := TaskQueue([], []), TaskQueue([1], []), TaskQueue([1], [2]);
    var s1, s2 := State([], map["a" := q1], ["a"], -1), State([], map["a" := q2], ["a"], -1);
    var insert1, insert2, move := InsertByKey("a", 1), InsertByKey("a", 2), Transform("a", "b", 1);
    assert GetOrCreate(START, "a") == State([], map["a" := q0], ["a"], -1);
    assert Apply(c, START, insert1).0 == s1 by {
      assert q0.(processing := [] + [1]) == q1;
      assert map["a" := q0]["a" := q1] == map["a" := q1];
    }
    assert Apply(c, s1, insert2).0 == s2 by {
      assert q1.(waiting := [] + [2]) == q2;
      assert map["a" := q1]["a" := q2] == map["a" := q2];
    }
    FirstMatchAt<Task>([1], 1, c.eq, 0);
    var s3 := Apply(c, s2, move).0;
    assert s3.queues["a"] == TaskQueue([], [2]);
    assert [insert1, insert2, move][1..] == [insert2, move];
    assert [insert2, move][1..] == [move];
    assert [move][1..] == [];
    assert After(c, s3, []) == s3;
    assert After(c, s2, [move]) == s3;
    assert After(c, s1, [insert2, move]) == s3;
  }

  // ----- first come, first served -----

  // Who has or wants a place at key, the longest there first.
  function Line(s: State, key: Key): seq<Task> {
    if key in s.queues then s.queues[key].processing + s.queues[key].waiting else []
  }

  // Who joins the line in a step, and how many leave it.
  function Joins(c: Config, s: State, step: Step, key: Key): seq<Task> {
    match step
    case Insert(data, least) => if Assign(c, s, least).0 == Some(key) && Apply(c, s, step).1 == Pushed then [data] else []
    case InsertByKey(k, data) => if k == key && Apply(c, s, step).1 != WaitingFull then [data] else []
    case Delete(k, data) =>
      if k == key && key in s.queues && FirstMatch(s.queues[key].processing, data, c.eq) >= 0 && s.queues[key].waiting == [] && s.global != []
      then [s.global[0]] else []
    case _ => []
  }

  function Leaves(c: Config, s: State, step: Step, key: Key): nat {
    match step
    case Delete(k, data) => if k == key && DeleteHit(c, s, key, data).Some? then 1 else 0
    case Transform(from, _, _) => if from == key && Apply(c, s, step).1 == Pushed then 1 else 0
    case AutoTransform(from, _, _) => if from == key && Apply(c, s, step).1 == Pushed then 1 else 0
    case _ => 0
  }

  // later is what is left of line after gone left it, with joined at its end.
  predicate Served(line: seq<Task>, later: seq<Task>, joined: seq<Task>, gone: nat) {
    Sub(later, line + joined) && |later| + gone == |line| + |joined|
  }

  lemma ServedWithout(line: seq<Task>, i: nat)
    requires i < |line|
    ensures Served(line, Without(line, i), [], 1)
  {
    SubSame(line);
    SubWithout(line, line, i);
    assert line + [] == line;
  }

  lemma ServedSame(line: seq<Task>)
    ensures Served(line, line, [], 0)
  {
    SubSame(line);
    assert line + [] == line;
  }

  lemma RefillServes(c: Config, s: State, i: nat, key: Key)
    requires Bounded(c, s, key, 0) && key in s.queues && i < |s.queues[key].processing|
    ensures var q := s.queues[key];
            var later := Line(Backfill(c, WithProcessing(s, key, Without(q.processing, i)), key), key);
            Served(Line(s, key), later, if q.waiting == [] && s.global != [] then [s.global[0]] else [], 1)
  {
    var q := s.queues[key];
    var line := q.processing + q.waiting;
    LineWithout(q.processing, q.waiting, i);
    ServedWithout(line, i);
    assert line + [] == line;
    if q.waiting == [] && s.global != [] {
      SubAppend(Without(line, i), line, s.global[0]);
      assert Without(line, i) + [s.global[0]] == Without(q.processing, i) + [s.global[0]] + [];
    }
  }

  // Taking out of processing and moving up the first of waiting is taking out of the line.
  lemma LineWithout(processing: seq<Task>, waiting: seq<Task>, i: nat)
    requires i < |processing|
    ensures Without(processing + waiting, i) == Without(processing, i) + waiting
    ensures waiting != [] ==> Without(processing, i) + [waiting[0]] + waiting[1..] == Without(processing, i) + waiting
    ensures waiting == [] ==> Without(processing, i) + waiting == Without(processing, i)
  {
    assert waiting != [] ==> [waiting[0]] + waiting[1..] == waiting;
  }

  lemma LeaveWaitingServes(s: State, j: nat, key: Key)
    requires key in s.queues && j < |s.queues[key].waiting|
    ensures Served(Line(s, key), Line(WithWaiting(s, key, Without(s.queues[key].waiting, j)), key), [], 1)
  {
    var q := s.queues[key];
    ServedWithout(Line(s, key), |q.processing| + j);
    assert Without(Line(s, key), |q.processing| + j) == q.processing + Without(q.waiting, j);
  }

  // How a deletion at the key ends.
  lemma DeleteEnds(c: Config, s: State, data: Task, key: Key)
    requires key in s.queues
    ensures var q := s.queues[key];
            var i, j := FirstMatch(q.processing, data, c.eq), FirstMatch(q.waiting, data, c.eq);
            DoDelete(c, s, key, data).0
            == if i >= 0 then Backfill(c, WithProcessing(s, key, Without(q.processing, i)), key)
               else if j >= 0 then WithWaiting(s, key, Without(q.waiting, j))
               else s
  {
  }

  lemma DeleteMoves(c: Config, s: State, data: Task, key: Key)
    requires key in s.queues
    ensures var q := s.queues[key];
            var i, j := FirstMatch(q.processing, data, c.eq), FirstMatch(q.waiting, data, c.eq);
            && Joins(c, s, Delete(key, data), key) == (if i >= 0 && q.waiting == [] && s.global != [] then [s.global[0]] else [])
            && Leaves(c, s, Delete(key, data), key) == if i >= 0 || j >= 0 then 1 else 0
  {
  }

  lemma DeleteServes(c: Config, s: State, data: Task, key: Key)
    requires Bounded(c, s, key, 0) && key in s.queues
    ensures Served(Line(s, key), Line(DoDelete(c, s, key, data).0, key), Joins(c, s, Delete(key, data), key), Leaves(c, s, Delete(key, data), key))
  {
    var q := s.queues[key];
    DeleteEnds(c, s, data, key);
    DeleteMoves(c, s, data, key);
    var i, j := FirstMatch(q.processing, data, c.eq), FirstMatch(q.waiting, data, c.eq);
    if i >= 0 {
      RefillServes(c, s, i, key);
    } else if j >= 0 {
      LeaveWaitingServes(s, j, key);
    } else {
      ServedSame(Line(s, key));
    }
  }

  lemma DeleteElsewhere(c: Config, s: State, k: Key, data: Task, key: Key)
    requires k != key
    ensures Line(DoDelete(c, s, k, data).0, key) == Line(s, key)
  {
  }

  lemma AddServes(c: Config, s: State, data: Task, key: Key)
    requires WaitsForRoom(c, s, key) && key in s.queues
    ensures |s.queues[key].processing| < c.maxProcessing ==> Served(Line(s, key), Line(TryProcess(c, s, key, data), key), [data], 0)
    ensures Served(Line(s, key), Line(WithWaiting(s, key, s.queues[key].waiting + [data]), key), [data], 0)
  {
    var q := s.queues[key];
    SubSame(Line(s, key) + [data]);
    assert Line(s, key) + [data] == q.processing + (q.waiting + [data]);
    assert q.waiting == [] ==> Line(s, key) + [data] == q.processing + [data] + [];
  }

  lemma InsertServes(c: Config, s: State, data: Task, least: Key, key: Key)
    requires WaitsForRoom(c, s, key)
    ensures Served(Line(s, key), Line(DoInsert(c, s, data, least).0, key), Joins(c, s, Insert(data, least), key), 0)
  {
    var (k, s') := Assign(c, s, least);
    assert s' == s.(last := s'.last);
    ServedSame(Line(s, key));
    if k == Some(key) && key in s.queues {
      AddServes(c, s', data, key);
    }
  }

  lemma InsertByKeyServes(c: Config, s: State, k: Key, data: Task, key: Key)
    requires WaitsForRoom(c, s, key)
    ensures Served(Line(s, key), Line(DoInsertByKey(c, s, k, data).0, key), Joins(c, s, InsertByKey(k, data), key), 0)
  {
    var s' := GetOrCreate(s, k);
    assert Line(s', key) == Line(s, key);
    ServedSame(Line(s, key));
    if k == key {
      AddServes(c, s', data, key);
    }
  }

  lemma TransformServes(c: Config, s: State, from: Key, to: Key, data: Task, key: Key)
    requires to != key || DoTransform(c, s, from, to, data).1 != Pushed
    ensures var (s', reply) := DoTransform(c, s, from, to, data);
            Served(Line(s, key), Line(s', key), [], if from == key && reply == Pushed then 1 else 0)
  {
    ServedSame(Line(s, key));
    assert Line(GetOrCreate(s, to), key) == Line(s, key);
    if from == key && DoTransform(c, s, from, to, data).1 == Pushed {
      var q := s.queues[from];
      var i := FirstMatch(q.processing, data, c.eq);
      ServedWithout(Line(s, key), i);
      LineWithout(q.processing, q.waiting, i);
    }
  }

  lemma StepServes(c: Config, s: State, step: Step, key: Key)
    requires WaitsForRoom(c, s, key) && Bounded(c, s, key, 0)
    requires Into(c, s, step, key) == 0 && step != DeleteKey(key)
    ensures Served(Line(s, key), Line(Apply(c, s, step).0, key), Joins(c, s, step, key), Leaves(c, s, step, key))
  {
    match step
    case AddKey(k) => ServedSame(Line(s, key)); assert Line(GetOrCreate(s, k), key) == Line(s, key);
    case Insert(data, least) => InsertServes(c, s, data, least, key);
    case InsertByKey(k, data) => InsertByKeyServes(c, s, k, data, key);
    case Delete(k, data) =>
      if k == key && key in s.queues {
        DeleteServes(c, s, data, key);
      } else {
        ServedSame(Line(s, key));
        if k != key { DeleteElsewhere(c, s, k, data, key); }
      }
    case DeleteKey(k) => ServedSame(Line(s, key));
    case Transform(from, to, data) => TransformServes(c, s, from, to, data, key);
    case AutoTransform(from, data, least) =>
      var (k, s') := Assign(c, s, least);
      assert Line(s', key) == Line(s, key);
      ServedSame(Line(s, key));
      if k.Some? {
        TransformServes(c, s', from, k.value, data, key);
      }
  }

  function Joined(c: Config, s: State, steps: seq<Step>, key: Key): seq<Task>
    decreases |steps|
  {
    if steps == [] then [] else Joins(c, s, steps[0], key) + Joined(c, Apply(c, s, steps[0]).0, steps[1..], key)
  }

  function Left(c: Config, s: State, steps: seq<Step>, key: Key): nat
    decreases |steps|
  {
    if steps == [] then 0 else Leaves(c, s, steps[0], key) + Left(c, Apply(c, s, steps[0]).0, steps[1..], key)
  }

  // Nothing is transferred to key, nobody stranded at it, and it is not deleted.
  predicate InTurn(c: Config, s: State, steps: seq<Step>, key: Key)
    decreases |steps|
  {
    steps == [] ||
    (&& Into(c, s, steps[0], key) == 0 && !Strands(c, s, steps[0], key) && steps[0] != DeleteKey(key)
     && InTurn(c, Apply(c, s, steps[0]).0, steps[1..], key))
  }

  lemma {:induction false} SubBoth<T>(p: seq<T>, a: seq<T>, joined: seq<T>)
    requires Sub(p, a)
    ensures Sub(p + joined, a + joined)
    decreases |joined|
  {
    if joined == [] {
      assert p + joined == p && a + joined == a;
    } else {
      var n := |joined| - 1;
      SubBoth(p, a, joined[..n]);
      SubAppend(p + joined[..n], a + joined[..n], joined[n]);
      assert p + joined == p + joined[..n] + [joined[n]];
      assert a + joined == a + joined[..n] + [joined[n]];
    }
  }

  // First come, first served: over any run in turn the line at a key is those who were in it and then
  // those who joined, in the order of joining, less exactly as many as left; so nobody overtakes.
  lemma {:induction false} FirstComeFirstServed(c: Config, s: State, steps: seq<Step>, key: Key)
    requires WaitsForRoom(c, s, key) && Bounded(c, s, key, 0) && InTurn(c, s, steps, key)
    ensures Served(Line(s, key), Line(After(c, s, steps), key), Joined(c, s, steps, key), Left(c, s, steps, key))
    decreases |steps|
  {
    if steps == [] {
      ServedSame(Line(s, key));
    } else {
      var s' := Apply(c, s, steps[0]).0;
      StepBounded(c, s, steps[0], key, 0);
      StepWaitsIff(c, s, steps[0], key);
      StepServes(c, s, steps[0], key);
      FirstComeFirstServed(c, s', steps[1..], key);
      ServedThen(Line(s, key), Line(s', key), Line(After(c, s, steps), key),
                 Joins(c, s, steps[0], key), Joined(c, s', steps[1..], key), Leaves(c, s, steps[0], key), Left(c, s', steps[1..], key));
    }
  }

  lemma ServedThen(line: seq<Task>, between: seq<Task>, later: seq<Task>, first: seq<Task>, rest: seq<Task>, m: nat, n: nat)
    requires Served(line, between, first, m) && Served(between, later, rest, n)
    ensures Served(line, later, first + rest, m + n)
  {
    SubBoth(between, line + first, rest);
    SubOfSub(later, between + rest, line + first + rest);
    assert line + first + rest == line + (first + rest);
  }

  // A transfer to a key is in turn exactly when all who wait there equal what is transferred; else
  // it overtakes them.
  lemma TransferOvertakesIff(c: Config, s: State, from: Key, to: Key, data: Task)
    requires from != to && to in s.queues && TransformHit(c, s, from, data).Some?
    ensures Served(Line(s, to), Line(DoTransform(c, s, from, to, data).0, to), [data], 0)
       <==> forall x :: x in s.queues[to].waiting ==> x == data
  {
    var q := s.queues[to];
    var line, later := q.processing + q.waiting, q.processing + [data] + q.waiting;
    AheadIsBehind(q.waiting, data);
    assert later == q.processing + ([data] + q.waiting);
    assert line + [data] == q.processing + (q.waiting + [data]);
    if Sub(later, line + [data]) {
      SubOfSameLength(later, line + [data]);
      assert later[|q.processing|..] == [data] + q.waiting && (line + [data])[|q.processing|..] == q.waiting + [data];
    } else {
      SubSame(line + [data]);
    }
  }

  // A transfer of an item onto its own key keeps it exactly when also none but equal items were behind
  // it in processing, or wait.
  lemma TransferOntoSelfIff(c: Config, s: State, key: Key, data: Task)
    requires TransformHit(c, s, key, data).Some?
    ensures var p, w := s.queues[key].processing, s.queues[key].waiting;
            Served(Line(s, key), Line(DoTransform(c, s, key, key, data).0, key), [data], 1) <==>
              (forall x :: x in w ==> x == data) || (forall q :: FirstMatch(p, data, c.eq) <= q < |p| ==> p[q] == data)
  {
    var p, w := s.queues[key].processing, s.queues[key].waiting;
    RequeueIff(p, w, FirstMatch(p, data, c.eq), data);
  }

  // ----- a run that overtakes and loses -----

  const CROWDED := State([], map["a" := TaskQueue([1], [3]), "b" := TaskQueue([2], [])], ["a", "b"], -1)
  const OVERFULL := State([], map["a" := TaskQueue([1, 2], [3]), "b" := TaskQueue([], [])], ["a", "b"], -1)

  predicate OnePlace(c: Config) {
    c.maxProcessing == 1 && c.maxWaiting == 1 && c.eq(1, 1) && c.eq(2, 2)
  }

  lemma Crowd(c: Config)
    requires OnePlace(c)
    ensures After(c, START, [InsertByKey("a", 1), InsertByKey("b", 2), InsertByKey("a", 3)]) == CROWDED
  {
    var one, two := TaskQueue([1], []), TaskQueue([2], []);
    var s1, s2 := State([], map["a" := one], ["a"], -1), State([], map["a" := one, "b" := two], ["a", "b"], -1);
    var first, second, third := InsertByKey("a", 1), InsertByKey("b", 2), InsertByKey("a", 3);
    assert Apply(c, START, first).0 == s1 by { FirstTask(c, START, "a", 1); }
    assert Apply(c, s1, second).0 == s2 by { FirstTask(c, s1, "b", 2); }
    assert Apply(c, s2, third).0 == CROWDED by {
      assert one.(waiting := [] + [3]) == TaskQueue([1], [3]);
    }
    assert [first, second, third][1..] == [second, third];
    assert [second, third][1..] == [third];
    assert [third][1..] == [];
    assert After(c, s2, [third]) == After(c, CROWDED, []);
    assert After(c, s1, [second, third]) == After(c, s2, [third]);
  }

  lemma FirstTask(c: Config, s: State, key: Key, data: Task)
    requires c.maxProcessing == 1 && key !in s.queues
    ensures Apply(c, s, InsertByKey(key, data)).0 == s.(queues := s.queues[key := TaskQueue([data], [])], keys := s.keys + [key])
  {
    assert EMPTY.(processing := [] + [data]) == TaskQueue([data], []);
  }

  const LOST := State([], map["a" := TaskQueue([2], []), "b" := TaskQueue([], [])], ["a", "b"], -1)

  lemma Overfill(c: Config)
    requires OnePlace(c)
    ensures Apply(c, CROWDED, Transform("b", "a", 2)).0 == OVERFULL
  {
    FirstMatchAt<Task>([2], 2, c.eq, 0);
    assert Without<Task>([2], 0) == [];
    var s1 := WithProcessing(CROWDED, "b", []);
    assert s1.queues == map["a" := TaskQueue([1], [3]), "b" := TaskQueue([], [])];
    assert [1] + [2] == [1, 2];
    assert WithProcessing(s1, "a", [1, 2]) == OVERFULL;
  }

  lemma Lose(c: Config)
    requires OnePlace(c)
    ensures !SafeDelete(c, OVERFULL, "a", 1) && Apply(c, OVERFULL, Delete("a", 1)).0 == LOST
  {
    FirstMatchAt<Task>([1, 2], 1, c.eq, 0);
    assert Without<Task>([1, 2], 0) == [2];
    var s1 := WithProcessing(OVERFULL, "a", [2]);
    assert s1.queues == map["a" := TaskQueue([2], [3]), "b" := TaskQueue([], [])];
    assert [3][1..] == [];
    assert WithWaiting(s1, "a", []) == LOST;
  }

  // With one place a key, 3 waits behind 1 at a, and 2 is transferred to a from b: it overtakes 3.
  // Then 1 is deleted, and 3 is gone.
  lemma OvertakesAndLoses(c: Config)
    requires OnePlace(c)
    ensures After(c, START, [InsertByKey("a", 1), InsertByKey("b", 2), InsertByKey("a", 3)]) == CROWDED
    ensures After(c, CROWDED, [Transform("b", "a", 2), Delete("a", 1)]) == LOST
    ensures !Served(Line(CROWDED, "a"), Line(Apply(c, CROWDED, Transform("b", "a", 2)).0, "a"), [2], 0)
    ensures Count(CROWDED, 3) == 1 && Count(LOST, 3) == 0
  {
    Crowd(c);
    MoveThenDelete(c);
    OvertakesThree(c);
    ThreeIsHeld();
  }

  lemma MoveThenDelete(c: Config)
    requires OnePlace(c)
    ensures After(c, CROWDED, [Transform("b", "a", 2), Delete("a", 1)]) == LOST
  {
    Overfill(c);
    Lose(c);
    var move, delete := Transform("b", "a", 2), Delete("a", 1);
    assert [move, delete][1..] == [delete];
    assert [delete][1..] == [];
    assert After(c, OVERFULL, [delete]) == After(c, LOST, []);
  }

  lemma OvertakesThree(c: Config)
    requires OnePlace(c)
    ensures !Served(Line(CROWDED, "a"), Line(Apply(c, CROWDED, Transform("b", "a", 2)).0, "a"), [2], 0)
  {
    FirstMatchAt<Task>([2], 2, c.eq, 0);
    TransferOvertakesIff(c, CROWDED, "b", "a", 2);
    assert 3 in CROWDED.queues["a"].waiting;
  }

  lemma ThreeIsHeld()
    ensures Count(CROWDED, 3) == 1 && Count(LOST, 3) == 0
  {
    assert ["a", "b"][1..] == ["b"];
    assert ["b"][1..] == [];
    assert HeldIn(CROWDED.queues, ["b"], 3) == 0 && HeldIn(LOST.queues, ["b"], 3) == 0;
  }

  // ----- fairness -----

  predicate Assigns(step: Step) { step.Insert? || step.AutoTransform? }

  // The keys the round-robin scans came out with.
  function Assigned(c: Config, s: State, steps: seq<Step>): seq<Key>
    decreases |steps|
  {
    if steps == [] then []
    else
      var rest := Assigned(c, Apply(c, s, steps[0]).0, steps[1..]);
      if Assigns(steps[0]) && Pick(s.keys, Max(-1, s.last), Full(c, s)).Some?
      then [s.keys[Pick(s.keys, Max(-1, s.last), Full(c, s)).value]] + rest
      else rest
  }

  function Scans(steps: seq<Step>): nat {
    if steps == [] then 0 else (if Assigns(steps[0]) then 1 else 0) + Scans(steps[1..])
  }

  // No key comes or goes, and key p has room whenever a task is assigned.
  predicate Steady(c: Config, s: State, steps: seq<Step>, keys: seq<Key>, p: nat)
    requires p < |keys|
    decreases |steps|
  {
    && s.keys == keys
    && (steps == [] ||
        ((Assigns(steps[0]) ==> keys[p] !in Full(c, s)) && Steady(c, Apply(c, s, steps[0]).0, steps[1..], keys, p)))
  }

  lemma StepMovesLast(c: Config, s: State, step: Step)
    requires c.strategy.RoundRobinTask? && KeysOk(s.queues.Keys, s.keys, s.last) && Apply(c, s, step).0.keys == s.keys
    ensures var r := Pick(s.keys, s.last, Full(c, s));
            Apply(c, s, step).0.last == if Assigns(step) && r.Some? then r.value else s.last
  {
  }

  // In any run of calls over a fixed set of n keys, a key that has room at every assignment is
  // assigned within n assignments.
  lemma {:induction false} BoundedBypassInRuns(c: Config, s: State, steps: seq<Step>, p: nat)
    requires c.strategy.RoundRobinTask? && KeysOk(s.queues.Keys, s.keys, s.last) && IsRun(c, s, steps)
    requires p < |s.keys| && Steady(c, s, steps, s.keys, p)
    requires Scans(steps) > Distance(Start(s.last, |s.keys|), p, |s.keys|)
    ensures s.keys[p] in Assigned(c, s, steps)
    decreases |steps|
  {
    var s' := Apply(c, s, steps[0]).0;
    StepKeepsKeys(c, s, steps[0]);
    assert s'.keys == s.keys;
    StepMovesLast(c, s, steps[0]);
    if Assigns(steps[0]) {
      PickBringsNearer(s.keys, s.last, Full(c, s), p);
      if Pick(s.keys, s.last, Full(c, s)).value != p {
        BoundedBypassInRuns(c, s', steps[1..], p);
      }
    } else {
      BoundedBypassInRuns(c, s', steps[1..], p);
    }
  }

  // ----- conservation, counted task by task -----

  function One(x: Task, t: Task): nat { if x == t then 1 else 0 }

  function In(items: seq<Task>, t: Task): nat { multiset(items)[t] }

  function HeldBy(q: TaskQueue, t: Task): nat { In(q.processing, t) + In(q.waiting, t) }

  function HeldIn(queues: map<Key, TaskQueue>, keys: seq<Key>, t: Task): nat {
    if keys == [] then 0
    else (if keys[0] in queues then HeldBy(queues[keys[0]], t) else 0) + HeldIn(queues, keys[1..], t)
  }

  // How often the manager holds t.
  function Count(s: State, t: Task): nat { In(s.global, t) + HeldIn(s.queues, s.keys, t) }

  lemma {:induction false} HeldOutside(queues: map<Key, TaskQueue>, rest: map<Key, TaskQueue>, keys: seq<Key>, t: Task)
    requires forall k :: k in keys ==> (k in queues <==> k in rest) && (k in queues ==> queues[k] == rest[k])
    ensures HeldIn(queues, keys, t) == HeldIn(rest, keys, t)
  {
    if keys != [] {
      HeldOutside(queues, rest, keys[1..], t);
    }
  }

  lemma {:induction false} HeldSplit(queues: map<Key, TaskQueue>, front: seq<Key>, back: seq<Key>, t: Task)
    ensures HeldIn(queues, front + back, t) == HeldIn(queues, front, t) + HeldIn(queues, back, t)
  {
    if front == [] {
      assert front + back == back;
    } else {
      assert (front + back)[1..] == front[1..] + back;
      HeldSplit(queues, front[1..], back, t);
    }
  }

  lemma HeldFirst(queues: map<Key, TaskQueue>, key: Key, back: seq<Key>, t: Task)
    ensures HeldIn(queues, [key] + back, t) == (if key in queues then HeldBy(queues[key], t) else 0) + HeldIn(queues, back, t)
  {
    assert ([key] + back)[1..] == back;
  }

  // What key holds, set apart from the rest.
  lemma HeldApart(queues: map<Key, TaskQueue>, keys: seq<Key>, i: nat, t: Task)
    requires i < |keys| && Distinct(keys) && keys[i] in queues
    ensures HeldIn(queues, keys, t) == HeldBy(queues[keys[i]], t) + HeldIn(queues - {keys[i]}, Without(keys, i), t)
  {
    var front, key, back := keys[..i], keys[i], keys[i + 1..];
    assert keys == front + ([key] + back);
    HeldSplit(queues, front, [key] + back, t);
    HeldFirst(queues, key, back, t);
    assert Without(keys, i) == front + back;
    HeldSplit(queues - {key}, front, back, t);
    HeldOutside(queues, queues - {key}, front, t);
    HeldOutside(queues, queues - {key}, back, t);
  }

  lemma HeldUpdate(queues: map<Key, TaskQueue>, keys: seq<Key>, key: Key, q: TaskQueue, t: Task)
    requires Distinct(keys) && key in keys && key in queues
    ensures HeldIn(queues[key := q], keys, t) + HeldBy(queues[key], t) == HeldIn(queues, keys, t) + HeldBy(q, t)
  {
    var i :| 0 <= i < |keys| && keys[i] == key;
    HeldApart(queues, keys, i, t);
    HeldApart(queues[key := q], keys, i, t);
    assert queues[key := q] - {key} == queues - {key};
  }

  lemma CreateHolds(s: State, key: Key, t: Task)
    requires KeysOk(s.queues.Keys, s.keys, s.last)
    ensures Count(GetOrCreate(s, key), t) == Count(s, t)
  {
    if key !in s.queues {
      var queues := s.queues[key := EMPTY];
      HeldSplit(queues, s.keys, [key], t);
      HeldOutside(s.queues, queues, s.keys, t);
      assert [key][1..] == [];
    }
  }

  lemma WithoutHolds(items: seq<Task>, i: nat, t: Task)
    requires i < |items|
    ensures In(items, t) == In(Without(items, i), t) + One(items[i], t)
  {
    WithoutOne(items, i);
  }

  lemma FirstHolds(items: seq<Task>, t: Task)
    requires items != []
    ensures In(items, t) == In(items[1..], t) + One(items[0], t)
  {
    assert items == [items[0]] + items[1..];
  }

  lemma TryProcessHolds(c: Config, s: State, key: Key, data: Task, t: Task)
    requires KeysOk(s.queues.Keys, s.keys, s.last) && key in s.queues
    ensures Count(TryProcess(c, s, key, data), t) == Count(s, t) + (if |s.queues[key].processing| < c.maxProcessing then One(data, t) else 0)
  {
    HeldUpdate(s.queues, s.keys, key, s.queues[key].(processing := s.queues[key].processing + [data]), t);
  }

  // The task a backfill takes out and cannot put back.
  function Dropped(c: Config, s: State, key: Key): (r: Option<Task>)
    requires key in s.queues
  {
    if |s.queues[key].processing| < c.maxProcessing then None
    else if s.queues[key].waiting != [] then Some(s.queues[key].waiting[0])
    else if s.global != [] then Some(s.global[0])
    else None
  }

  function Opt(x: Option<Task>, t: Task): nat { if x.Some? then One(x.value, t) else 0 }

  lemma BackfillHolds(c: Config, s: State, key: Key, t: Task)
    requires KeysOk(s.queues.Keys, s.keys, s.last) && key in s.queues
    ensures Count(Backfill(c, s, key), t) + Opt(Dropped(c, s, key), t) == Count(s, t)
  {
    var waiting := s.queues[key].waiting;
    if waiting != [] {
      var s' := WithWaiting(s, key, waiting[1..]);
      FirstHolds(waiting, t);
      HeldUpdate(s.queues, s.keys, key, s'.queues[key], t);
      TryProcessHolds(c, s', key, waiting[0], t);
    } else if s.global != [] {
      FirstHolds(s.global, t);
      TryProcessHolds(c, s.(global := s.global[1..]), key, s.global[0], t);
    }
  }

  // The task that Delete finds and takes out, and where.
  function DeleteHit(c: Config, s: State, key: Key, data: Task): (r: Option<Task>) {
    if key !in s.queues then None
    else
      var q := s.queues[key];
      var i, j := FirstMatch(q.processing, data, c.eq), FirstMatch(q.waiting, data, c.eq);
      if i >= 0 then Some(q.processing[i]) else if j >= 0 then Some(q.waiting[j]) else None
  }

  // Delete's guard against losing a task, in terms of the state before the call.
  predicate SafeDelete(c: Config, s: State, key: Key, data: Task) {
    key in s.queues && FirstMatch(s.queues[key].processing, data, c.eq) >= 0 ==>
      |s.queues[key].processing| <= c.maxProcessing || (s.queues[key].waiting == [] && s.global == [])
  }

  lemma RefillHolds(c: Config, s: State, key: Key, i: nat, t: Task)
    requires KeysOk(s.queues.Keys, s.keys, s.last) && key in s.queues && i < |s.queues[key].processing|
    ensures var q := s.queues[key];
            var lost := if |q.processing| <= c.maxProcessing then None
                        else if q.waiting != [] then Some(q.waiting[0])
                        else if s.global != [] then Some(s.global[0])
                        else None;
            Count(Backfill(c, WithProcessing(s, key, Without(q.processing, i)), key), t) + One(q.processing[i], t) + Opt(lost, t)
            == Count(s, t)
  {
    var q := s.queues[key];
    var s' := WithProcessing(s, key, Without(q.processing, i));
    WithoutHolds(q.processing, i, t);
    HeldUpdate(s.queues, s.keys, key, s'.queues[key], t);
    BackfillHolds(c, s', key, t);
  }

  lemma DeleteHolds(c: Config, s: State, key: Key, data: Task, t: Task)
    requires KeysOk(s.queues.Keys, s.keys, s.last)
    ensures var hit, s' := DeleteHit(c, s, key, data), DoDelete(c, s, key, data).0;
            var lost := if SafeDelete(c, s, key, data) then None
                        else if s.queues[key].waiting != [] then Some(s.queues[key].waiting[0]) else Some(s.global[0]);
            Count(s', t) + Opt(hit, t) + Opt(lost, t) == Count(s, t)
  {
    if key in s.queues {
      var q := s.queues[key];
      var i, j := FirstMatch(q.processing, data, c.eq), FirstMatch(q.waiting, data, c.eq);
      if i >= 0 {
        RefillHolds(c, s, key, i, t);
        assert DeleteHit(c, s, key, data) == Some(q.processing[i]);
        assert DoDelete(c, s, key, data).0 == Backfill(c, WithProcessing(s, key, Without(q.processing, i)), key);
      } else if j >= 0 {
        WithoutHolds(q.waiting, j, t);
        HeldUpdate(s.queues, s.keys, key, q.(waiting := Without(q.waiting, j)), t);
      }
    }
  }

  // Delete removes the task it found and loses nothing else, exactly when the processing queue was
  // not above its capacity before or there is nothing to backfill it with.
  lemma DeleteConservesIff(c: Config, s: State, key: Key, data: Task)
    requires KeysOk(s.queues.Keys, s.keys, s.last)
    ensures SafeDelete(c, s, key, data) <==>
            forall t :: Count(DoDelete(c, s, key, data).0, t) + Opt(DeleteHit(c, s, key, data), t) == Count(s, t)
  {
    forall t | SafeDelete(c, s, key, data)
      ensures Count(DoDelete(c, s, key, data).0, t) + Opt(DeleteHit(c, s, key, data), t) == Count(s, t)
    {
      DeleteHolds(c, s, key, data, t);
    }
    if !SafeDelete(c, s, key, data) {
      DeleteHolds(c, s, key, data, if s.queues[key].waiting != [] then s.queues[key].waiting[0] else s.global[0]);
    }
  }

  // The task a transfer takes out.
  function TransformHit(c: Config, s: State, from: Key, data: Task): (r: Option<Task>) {
    if from !in s.queues then None
    else
      var i := FirstMatch(s.queues[from].processing, data, c.eq);
      if i >= 0 then Some(s.queues[from].processing[i]) else None
  }

  // A transfer swaps the task it found for the one it was given, also onto the same key; when it
  // finds none it changes no task.
  lemma TransformConserves(c: Config, s: State, from: Key, to: Key, data: Task, t: Task)
    requires KeysOk(s.queues.Keys, s.keys, s.last)
    ensures var hit, (s', reply) := TransformHit(c, s, from, data), DoTransform(c, s, from, to, data);
            && (reply == Pushed <==> hit.Some?)
            && Count(s', t) + Opt(hit, t) == Count(s, t) + if hit.Some? then One(data, t) else 0
  {
    if from in s.queues {
      GetOrCreateKeys(s, to);
      CreateHolds(s, to, t);
      if TransformHit(c, s, from, data).Some? {
        var s1 := GetOrCreate(s, to);
        MoveEnds(c, s, from, to, data);
        MoveHolds(s1, from, to, FirstMatch(s.queues[from].processing, data, c.eq), data, t);
      } else {
        MissEnds(c, s, from, to, data);
      }
    }
  }

  // How a transfer ends that finds something, and one that does not.
  lemma MoveEnds(c: Config, s: State, from: Key, to: Key, data: Task)
    requires TransformHit(c, s, from, data).Some?
    ensures var q, s1 := s.queues[from].processing, GetOrCreate(s, to);
            var i := FirstMatch(q, data, c.eq);
            && i >= 0 && from in s1.queues && to in s1.queues && s1.queues[from].processing == q
            && TransformHit(c, s, from, data) == Some(q[i])
            && var s2 := WithProcessing(s1, from, Without(q, i));
               DoTransform(c, s, from, to, data) == (WithProcessing(s2, to, s2.queues[to].processing + [data]), Pushed)
  {
  }

  lemma MissEnds(c: Config, s: State, from: Key, to: Key, data: Task)
    requires from in s.queues && TransformHit(c, s, from, data).None?
    ensures DoTransform(c, s, from, to, data) == (GetOrCreate(s, to), NotFound)
  {
  }

  lemma MoveHolds(s: State, from: Key, to: Key, i: nat, data: Task, t: Task)
    requires KeysOk(s.queues.Keys, s.keys, s.last) && from in s.queues && to in s.queues && i < |s.queues[from].processing|
    ensures var q := s.queues[from].processing;
            var s2 := WithProcessing(s, from, Without(q, i));
            Count(WithProcessing(s2, to, s2.queues[to].processing + [data]), t) + One(q[i], t) == Count(s, t) + One(data, t)
  {
    var q := s.queues[from].processing;
    var s2 := WithProcessing(s, from, Without(q, i));
    WithoutHolds(q, i, t);
    HeldUpdate(s.queues, s.keys, from, s2.queues[from], t);
    HeldUpdate(s2.queues, s2.keys, to, s2.queues[to].(processing := s2.queues[to].processing + [data]), t);
  }

  // Where the task of a transfer arrives.
  lemma TransformMoves(c: Config, s: State, from: Key, to: Key, data: Task)
    ensures var (s', reply) := DoTransform(c, s, from, to, data); var hit := TransformHit(c, s, from, data);
            && (reply == Pushed <==> hit.Some?)
            && (reply == Pushed ==> to in s'.queues && LastIs(s'.queues[to].processing, data))
            && (reply == Pushed && from != to ==>
                  && from in s'.queues
                  && In(s'.queues[from].processing, hit.value) + 1 == In(s.queues[from].processing, hit.value)
                  && |s'.queues[to].processing| == 1 + if to in s.queues then |s.queues[to].processing| else 0)
  {
    if TransformHit(c, s, from, data).Some? {
      var q := s.queues[from].processing;
      var i: nat := FirstMatch(q, data, c.eq);
      MoveEnds(c, s, from, to, data);
      CreateAt(s, to, from);
      CreateAt(s, to, to);
      WithoutHolds(q, i, q[i]);
      MovedAt(GetOrCreate(s, to), from, to, i, data, from);
      MovedAt(GetOrCreate(s, to), from, to, i, data, to);
    }
  }

  // What a transfer leaves alone.
  lemma TransformElsewhere(c: Config, s: State, from: Key, to: Key, data: Task, k: Key)
    requires k in s.queues
    ensures var (s', reply) := DoTransform(c, s, from, to, data);
            && s'.global == s.global
            && k in s'.queues && s'.queues[k].waiting == s.queues[k].waiting
            && (reply != Pushed || (k != from && k != to) ==> s'.queues[k] == s.queues[k])
  {
    CreateAt(s, to, k);
    if TransformHit(c, s, from, data).Some? {
      var i: nat := FirstMatch(s.queues[from].processing, data, c.eq);
      MoveEnds(c, s, from, to, data);
      MovedAt(GetOrCreate(s, to), from, to, i, data, k);
    } else if from in s.queues {
      MissEnds(c, s, from, to, data);
    }
  }

  predicate LastIs(items: seq<Task>, x: Task) {
    items != [] && items[|items| - 1] == x
  }

  // Key k's queues once item i has gone from one processing queue to the other.
  lemma MovedAt(s: State, from: Key, to: Key, i: nat, data: Task, k: Key)
    requires from in s.queues && to in s.queues && i < |s.queues[from].processing| && k in s.queues
    ensures var s2 := WithProcessing(s, from, Without(s.queues[from].processing, i));
            var s' := WithProcessing(s2, to, s2.queues[to].processing + [data]);
            && k in s'.queues && s'.queues[k].waiting == s.queues[k].waiting
            && (k != from && k != to ==> s'.queues[k] == s.queues[k])
            && (k == from != to ==> s'.queues[k].processing == Without(s.queues[k].processing, i))
            && (k == to ==> LastIs(s'.queues[k].processing, data))
            && (k == to != from ==> |s'.queues[k].processing| == |s.queues[k].processing| + 1)
  {
  }

  lemma PutGlobalHolds(c: Config, s: State, data: Task, t: Task)
    ensures var (s', reply) := PutGlobal(c, s, data); Count(s', t) == Count(s, t) + if reply == Queued then One(data, t) else 0
  {
  }

  // Insert and InsertByKey keep the task once when they accept it, and change nothing when they refuse.
  lemma InsertConserves(c: Config, s: State, data: Task, least: Key, t: Task)
    requires KeysOk(s.queues.Keys, s.keys, s.last) && Enabled(c, s, Insert(data, least))
    ensures var (s', reply) := DoInsert(c, s, data, least);
            Count(s', t) == Count(s, t) + if reply == Pushed || reply == Queued then One(data, t) else 0
  {
    AssignKeys(c, s, least);
    var (k, s') := Assign(c, s, least);
    if k.Some? {
      TryProcessHolds(c, s', k.value, data, t);
    }
    PutGlobalHolds(c, s', data, t);
  }

  lemma InsertByKeyConserves(c: Config, s: State, key: Key, data: Task, t: Task)
    requires KeysOk(s.queues.Keys, s.keys, s.last)
    ensures var (s', reply) := DoInsertByKey(c, s, key, data);
            Count(s', t) == Count(s, t) + if reply == Pushed || reply == Queued then One(data, t) else 0
  {
    GetOrCreateKeys(s, key);
    CreateHolds(s, key, t);
    var s' := GetOrCreate(s, key);
    TryProcessHolds(c, s', key, data, t);
    HeldUpdate(s'.queues, s'.keys, key, s'.queues[key].(waiting := s'.queues[key].waiting + [data]), t);
  }

  // DeleteKey discards exactly what its two queues held.
  lemma DeleteKeyDiscards(s: State, key: Key, t: Task)
    requires KeysOk(s.queues.Keys, s.keys, s.last)
    ensures Count(DoDeleteKey(s, key), t) + (if key in s.queues then HeldBy(s.queues[key], t) else 0) == Count(s, t)
  {
    if key in s.queues {
      HeldApart(s.queues, s.keys, FirstMatch(s.keys, key, SameKey), t);
    }
  }

  // Copies of t that a step accepts, and copies that its caller takes out.
  function Added(c: Config, s: State, step: Step, t: Task): nat {
    var reply := Apply(c, s, step).1;
    match step
    case Insert(data, _) => if reply == Pushed || reply == Queued then One(data, t) else 0
    case InsertByKey(_, data) => if reply == Pushed || reply == Queued then One(data, t) else 0
    case Transform(_, _, data) => if reply == Pushed then One(data, t) else 0
    case AutoTransform(_, data, _) => if reply == Pushed then One(data, t) else 0
    case _ => 0
  }

  function Removed(c: Config, s: State, step: Step, t: Task): nat {
    match step
    case Delete(key, data) => Opt(DeleteHit(c, s, key, data), t)
    case DeleteKey(key) => if key in s.queues then HeldBy(s.queues[key], t) else 0
    case Transform(from, _, data) => Opt(TransformHit(c, s, from, data), t)
    case AutoTransform(from, data, least) => if Assign(c, s, least).0.Some? then Opt(TransformHit(c, s, from, data), t) else 0
    case _ => 0
  }

  lemma StepConserves(c: Config, s: State, step: Step, t: Task)
    requires KeysOk(s.queues.Keys, s.keys, s.last) && Enabled(c, s, step)
    requires step.Delete? ==> SafeDelete(c, s, step.key, step.data)
    ensures Count(Apply(c, s, step).0, t) + Removed(c, s, step, t) == Count(s, t) + Added(c, s, step, t)
  {
    match step
    case AddKey(key) => CreateHolds(s, key, t);
    case Insert(data, least) => InsertConserves(c, s, data, least, t);
    case InsertByKey(key, data) => InsertByKeyConserves(c, s, key, data, t);
    case Delete(key, data) => DeleteHolds(c, s, key, data, t);
    case DeleteKey(key) => DeleteKeyDiscards(s, key, t);
    case Transform(from, to, data) => TransformConserves(c, s, from, to, data, t);
    case AutoTransform(from, data, least) =>
      AssignKeys(c, s, least);
      var (k, s') := Assign(c, s, least);
      if k.Some? {
        TransformConserves(c, s', from, k.value, data, t);
      }
  }

  function TotalAdded(c: Config, s: State, steps: seq<Step>, t: Task): nat
    decreases |steps|
  {
    if steps == [] then 0 else Added(c, s, steps[0], t) + TotalAdded(c, Apply(c, s, steps[0]).0, steps[1..], t)
  }

  function TotalRemoved(c: Config, s: State, steps: seq<Step>, t: Task): nat
    decreases |steps|
  {
    if steps == [] then 0 else Removed(c, s, steps[0], t) + TotalRemoved(c, Apply(c, s, steps[0]).0, steps[1..], t)
  }

  predicate SafeRun(c: Config, s: State, steps: seq<Step>)
    decreases |steps|
  {
    steps == [] ||
    ((steps[0].Delete? ==> SafeDelete(c, s, steps[0].key, steps[0].data)) && SafeRun(c, Apply(c, s, steps[0]).0, steps[1..]))
  }

  // Over a whole run every accepted copy of every task is still held or was taken out by a caller.
  lemma {:induction false} RunConserves(c: Config, s: State, steps: seq<Step>, t: Task)
    requires KeysOk(s.queues.Keys, s.keys, s.last) && IsRun(c, s, steps) && SafeRun(c, s, steps)
    ensures Count(After(c, s, steps), t) + TotalRemoved(c, s, steps, t) == Count(s, t) + TotalAdded(c, s, steps, t)
    decreases |steps|
  {
    if steps != [] {
      StepConserves(c, s, steps[0], t);
      StepKeepsKeys(c, s, steps[0]);
      RunConserves(c, Apply(c, s, steps[0]).0, steps[1..], t);
    }
  }
}
