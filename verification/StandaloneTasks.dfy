/** The in-memory task queue manager, updated in place (queue/task/standalonetask). */
module StandaloneTasks {
  import opened Basics
  import opened BoundQueueSpec
  import opened BoundQueue
  import opened RoundRobin
  import opened StandaloneSpec

  // A key's two bounded queues; the pair itself never changes.
  datatype Pair = Pair(processing: Queue<Task>, waiting: Queue<Task>)

  class QueueManager {
    const c: Config
    const globalQueue: Queue<Task>
    var taskQueues: map<Key, Pair>
    var orderedKeys: seq<Key>
    var lastAssignedIndex: int
    ghost var view: State
    ghost var cells: set<Queue<Task>>

    ghost predicate Shows(global: seq<Task>, queues: map<Key, TaskQueue>)
      reads this`taskQueues, this`cells, cells
    {
      && globalQueue in cells && globalQueue.items == global && globalQueue.capacity == c.maxGlobal
      && taskQueues.Keys == queues.Keys
      && (forall k :: k in taskQueues ==>
            var p := taskQueues[k];
            && p.processing in cells && p.waiting in cells
            && p.processing != globalQueue && p.waiting != globalQueue
            && p.processing.capacity == c.maxProcessing && p.waiting.capacity == c.maxWaiting
            && p.processing.items == queues[k].processing && p.waiting.items == queues[k].waiting)
      && Apart()
    }

    // No two places share a queue.
    ghost predicate Apart()
      reads this`taskQueues
    {
      && (forall k, l :: k in taskQueues && l in taskQueues ==> taskQueues[k].processing != taskQueues[l].waiting)
      && (forall k, l :: k in taskQueues && l in taskQueues && k != l ==>
            taskQueues[k].processing != taskQueues[l].processing && taskQueues[k].waiting != taskQueues[l].waiting)
    }

    ghost predicate Valid()
      reads this, cells
    {
      Shows(view.global, view.queues) && orderedKeys == view.keys && lastAssignedIndex == view.last
    }

    constructor (c: Config)
      ensures Valid() && view == START && this.c == c && fresh(cells)
    {
      this.c := c;
      var global := new Queue<Task>(c.maxGlobal);
      globalQueue := global;
      taskQueues, orderedKeys, lastAssignedIndex := map[], [], -1;
      view, cells := START, {global};
    }

    method GetOrCreateTaskQueues(k: Key)
      requires Valid()
      modifies this
      ensures Valid() && fresh(cells - old(cells)) && old(cells) <= cells
      ensures view == GetOrCreate(old(view), k)
    {
      if k !in taskQueues {
        var processing := new Queue<Task>(c.maxProcessing);
        var waiting := new Queue<Task>(c.maxWaiting);
        Install(k, processing, waiting);
        orderedKeys := orderedKeys + [k];
        view := GetOrCreate(view, k);
      }
    }

    method Install(k: Key, processing: Queue<Task>, waiting: Queue<Task>)
      requires Shows(view.global, view.queues) && k !in taskQueues
      requires processing !in cells && waiting !in cells && processing != waiting
      requires processing.items == [] && processing.capacity == c.maxProcessing
      requires waiting.items == [] && waiting.capacity == c.maxWaiting
      modifies this`taskQueues, this`cells
      ensures Shows(view.global, view.queues[k := EMPTY]) && cells == old(cells) + {processing, waiting}
    {
      taskQueues := taskQueues[k := Pair(processing, waiting)];
      cells := cells + {processing, waiting};
      assert Apart();
    }

    // The processing push; its error says that the queue was full.
    method PushToProcess(k: Key, data: Task) returns (ok: bool)
      requires Valid() && k in taskQueues
      modifies this`view, cells
      ensures Valid() && ok == (|old(view).queues[k].processing| < c.maxProcessing)
      ensures view == TryProcess(c, old(view), k, data)
    {
      ok := taskQueues[k].processing.Push(data);
      view := TryProcess(c, view, k, data);
    }

    method ForcePush(k: Key, data: Task)
      requires Valid() && k in taskQueues
      modifies this`view, cells
      ensures Valid() && view == WithProcessing(old(view), k, old(view).queues[k].processing + [data])
    {
      taskQueues[k].processing.ForcePush(data);
      view := WithProcessing(view, k, view.queues[k].processing + [data]);
    }

    method PushToWaiting(k: Key, data: Task) returns (ok: bool)
      requires Valid() && k in taskQueues
      modifies this`view, cells
      ensures Valid() && ok == (|old(view).queues[k].waiting| < c.maxWaiting)
      ensures view == if ok then WithWaiting(old(view), k, old(view).queues[k].waiting + [data]) else old(view)
    {
      ok := taskQueues[k].waiting.Push(data);
      if ok {
        view := WithWaiting(view, k, view.queues[k].waiting + [data]);
      }
    }

    method RemoveProcessing(k: Key, data: Task) returns (removed: bool)
      requires Valid() && k in taskQueues
      modifies this`view, cells
      ensures Valid() && removed == (FirstMatch(old(view).queues[k].processing, data, c.eq) >= 0)
      ensures var was := old(view).queues[k].processing;
              view == if removed then WithProcessing(old(view), k, Without(was, FirstMatch(was, data, c.eq))) else old(view)
    {
      ghost var was := view.queues[k].processing;
      ghost var i := FirstMatch(was, data, c.eq);
      removed := taskQueues[k].processing.Remove(data, c.eq);
      assert removed == (i >= 0);
      if removed {
        assert taskQueues[k].processing.items == Without(was, i);
        view := WithProcessing(view, k, Without(was, i));
      }
    }

    method RemoveWaiting(k: Key, data: Task) returns (removed: bool)
      requires Valid() && k in taskQueues
      modifies this`view, cells
      ensures Valid() && removed == (FirstMatch(old(view).queues[k].waiting, data, c.eq) >= 0)
      ensures var was := old(view).queues[k].waiting;
              view == if removed then WithWaiting(old(view), k, Without(was, FirstMatch(was, data, c.eq))) else old(view)
    {
      ghost var was := view.queues[k].waiting;
      ghost var i := FirstMatch(was, data, c.eq);
      removed := taskQueues[k].waiting.Remove(data, c.eq);
      assert removed == (i >= 0);
      if removed {
        assert taskQueues[k].waiting.items == Without(was, i);
        view := WithWaiting(view, k, Without(was, i));
      }
    }

    method PopWaiting(k: Key) returns (item: Option<Task>)
      requires Valid() && k in taskQueues
      modifies this`view, cells
      ensures Valid()
      ensures var was := old(view).queues[k].waiting;
              if was == [] then item.None? && view == old(view)
              else item == Some(was[0]) && view == WithWaiting(old(view), k, was[1..])
    {
      item := taskQueues[k].waiting.Pop();
      if item.Some? {
        view := WithWaiting(view, k, view.queues[k].waiting[1..]);
      }
    }

    method PopGlobal() returns (item: Option<Task>)
      requires Valid()
      modifies this`view, cells
      ensures Valid()
      ensures if old(view).global == [] then item.None? && view == old(view)
              else item == Some(old(view).global[0]) && view == old(view).(global := old(view).global[1..])
    {
      item := globalQueue.Pop();
      if item.Some? {
        view := view.(global := view.global[1..]);
      }
    }

    method PushToGlobal(data: Task) returns (reply: Reply)
      requires Valid()
      modifies this`view, cells
      ensures Valid() && (view, reply) == PutGlobal(c, old(view), data)
    {
      ghost var was := view;
      if globalQueue.Full() {
        return GlobalFull;
      }
      var ok := globalQueue.Push(data);
      view := PutGlobal(c, view, data).0;
      reply := Queued;
    }

    // The index of the first key after lastAssignedIndex, going round, whose processing queue has room.
    method ScanKeys() returns (index: Option<nat>)
      requires Valid() && -1 <= view.last && forall k :: k in orderedKeys ==> k in view.queues
      ensures index == Pick(view.keys, view.last, StandaloneSpec.Full(c, view))
    {
      if |orderedKeys| == 0 {
        return None;
      }
      var n, startIndex := |orderedKeys|, lastAssignedIndex;
      ghost var start, full := Start(startIndex, n), StandaloneSpec.Full(c, view);
      for i := 0 to n
        invariant Scan(orderedKeys, start, 0, full) == Scan(orderedKeys, start, i, full)
      {
        var next := NextIndex(startIndex, i, n);
        var open := IsOpen(orderedKeys[next]);
        if open {
          return Some(next);
        }
      }
      return None;
    }

    method IsOpen(k: Key) returns (open: bool)
      requires Valid() && k in view.queues
      ensures open == (k !in StandaloneSpec.Full(c, view))
    {
      open := k in taskQueues && !taskQueues[k].processing.Full();
    }

    method NextIndex(startIndex: int, i: nat, n: nat) returns (next: nat)
      requires -1 <= startIndex && i < n
      ensures next == Wrap(Start(startIndex, n) + i, n)
    {
      next := (startIndex + i + 1) % n;
      ScanIndex(startIndex, i, n);
    }

    method RoundRobinTask() returns (key: Option<Key>)
      requires Valid() && -1 <= view.last && forall k :: k in orderedKeys ==> k in view.queues
      modifies this`lastAssignedIndex, this`view
      ensures Valid()
      ensures var r := Pick(old(view).keys, old(view).last, StandaloneSpec.Full(c, old(view)));
              && key == (if r.None? then None else Some(old(view).keys[r.value]))
              && view == if r.None? then old(view) else old(view).(last := r.value)
    {
      var index := ScanKeys();
      if index.None? {
        return None;
      }
      lastAssignedIndex := index.value;
      view := view.(last := index.value);
      key := Some(orderedKeys[index.value]);
    }

    // Some key whose processing queue is shortest; which one is up to the map's iteration order.
    method LeastTask() returns (key: Option<Key>)
      requires Valid()
      ensures key.None? <==> view.queues == map[]
      ensures key.Some? ==> IsLeast(view.queues, key.value)
    {
      var minLen := -1;
      key := None;
      var left := taskQueues.Keys;
      while left != {}
        invariant left <= taskQueues.Keys
        invariant minLen == -1 <==> key.None?
        invariant key.None? ==> left == taskQueues.Keys
        invariant key.Some? ==> key.value in taskQueues && minLen == |view.queues[key.value].processing|
        invariant key.Some? ==> forall l :: l in taskQueues && l !in left ==> minLen <= |view.queues[l].processing|
      {
        var id :| id in left;
        var length := |taskQueues[id].processing.items|;
        if minLen == -1 || length < minLen {
          minLen, key := length, Some(id);
        }
        left := left - {id};
      }
      if key.None? {
        assert view.queues.Keys == {};
      } else {
        assert key.value in view.queues;
      }
    }

    method AssignKey() returns (key: Option<Key>, ghost least: Key)
      requires Valid() && KeysOk(view.queues.Keys, view.keys, view.last)
      modifies this`lastAssignedIndex, this`view
      ensures Valid() && c.strategy.LeastTask? && old(view).queues != map[] ==> IsLeast(old(view).queues, least)
      ensures Valid() && (key, view) == Assign(c, old(view), least)
    {
      least := "";
      match c.strategy
      case RoundRobinTask =>
        key := RoundRobinTask();
      case LeastTask =>
        key := LeastTask();
        if key.Some? { least := key.value; }
    }

    method Insert(data: Task) returns (key: Option<Key>, reply: Reply, ghost least: Key)
      requires Valid() && KeysOk(view.queues.Keys, view.keys, view.last)
      modifies this, cells
      ensures Valid() && cells == old(cells) && Enabled(c, old(view), Step.Insert(data, least))
      ensures (view, reply) == DoInsert(c, old(view), data, least) && key.Some? == (reply == Pushed)
    {
      ghost var was := view;
      key, least := AssignKey();
      AssignKeys(c, was, least);
      if key.Some? && key.value in taskQueues && !taskQueues[key.value].processing.Full() {
        var ok := PushToProcess(key.value, data);
        return key, Pushed, least;
      }
      key := None;
      reply := PushToGlobal(data);
    }

    method InsertByKey(key: Key, data: Task) returns (reply: Reply)
      requires Valid()
      modifies this, cells
      ensures Valid() && fresh(cells - old(cells)) && (view, reply) == DoInsertByKey(c, old(view), key, data)
    {
      GetOrCreateTaskQueues(key);
      if !taskQueues[key].processing.Full() {
        var ok := PushToProcess(key, data);
        return Pushed;
      }
      if !taskQueues[key].waiting.Full() {
        var ok := PushToWaiting(key, data);
        return Queued;
      }
      return WaitingFull;
    }

    method Delete(key: Key, data: Task) returns (reply: Reply)
      requires Valid()
      modifies this, cells
      ensures Valid() && cells == old(cells) && (view, reply) == DoDelete(c, old(view), key, data)
    {
      if key !in taskQueues {
        return NotFound;
      }
      var removed := RemoveProcessing(key, data);
      if removed {
        BackfillProcessing(key);
        return Pushed;
      }
      removed := RemoveWaiting(key, data);
      return if removed then Pushed else NotFound;
    }

    method BackfillProcessing(key: Key)
      requires Valid() && key in taskQueues
      modifies this`view, cells
      ensures Valid() && view == Backfill(c, old(view), key)
    {
      var next := PopWaiting(key);
      if next.Some? {
        var ok := PushToProcess(key, next.value);
      } else {
        next := PopGlobal();
        if next.Some? {
          var ok := PushToProcess(key, next.value);
        }
      }
    }

    method DeleteKey(key: Key)
      requires Valid()
      modifies this
      ensures Valid() && cells == old(cells) && view == DoDeleteKey(old(view), key)
    {
      if key !in taskQueues {
        return;
      }
      taskQueues := taskQueues - {key};
      DropOrderedKey(key);
      view := DoDeleteKey(view, key);
    }

    method DropOrderedKey(key: Key)
      modifies this`orderedKeys, this`lastAssignedIndex
      ensures (orderedKeys, lastAssignedIndex) == DropKey(old(orderedKeys), old(lastAssignedIndex), key)
    {
      for i := 0 to |orderedKeys|
        invariant orderedKeys == old(orderedKeys) && lastAssignedIndex == old(lastAssignedIndex)
        invariant forall j :: 0 <= j < i ==> !SameKey(orderedKeys[j], key)
      {
        if orderedKeys[i] == key {
          FirstMatchAt(orderedKeys, key, SameKey, i);
          orderedKeys := orderedKeys[..i] + orderedKeys[i + 1..];
          if lastAssignedIndex >= |orderedKeys| && |orderedKeys| > 0 {
            lastAssignedIndex := |orderedKeys| - 1;
          }
          return;
        }
      }
      NoMatch(orderedKeys, key, SameKey);
    }

    method TransformProcessingData(fromKey: Key, toKey: Key, data: Task) returns (reply: Reply)
      requires Valid()
      modifies this, cells
      ensures Valid() && fresh(cells - old(cells)) && (view, reply) == DoTransform(c, old(view), fromKey, toKey, data)
    {
      if fromKey !in taskQueues {
        return NotFound;
      }
      GetOrCreateTaskQueues(toKey);
      var ok := RemoveProcessing(fromKey, data);
      if !ok {
        return NotFound;
      }
      ForcePush(toKey, data);
      return Pushed;
    }

    method AutoTransformProcessingData(fromKey: Key, data: Task) returns (key: Option<Key>, reply: Reply, ghost least: Key)
      requires Valid() && KeysOk(view.queues.Keys, view.keys, view.last)
      modifies this, cells
      ensures Valid() && fresh(cells - old(cells)) && Enabled(c, old(view), Step.AutoTransform(fromKey, data, least))
      ensures (view, reply) == Apply(c, old(view), Step.AutoTransform(fromKey, data, least))
    {
      key, least := AssignKey();
      if key.None? {
        return None, NotFound, least;
      }
      reply := TransformProcessingData(fromKey, key.value, data);
    }

    // How many tasks the global queue hands out before data, or -1.
    method GetGlobalQueuePosition(data: Task) returns (position: int)
      requires Valid()
      ensures position == FirstMatch(view.global, data, c.eq)
    {
      position := globalQueue.Peek(data, c.eq);
    }
  }
}
