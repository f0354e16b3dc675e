/** The Redis task queue manager as the sequence of commands it sends (queue/task/redistask). */
module RedisTasks {
  import opened Basics
  import opened BoundQueueSpec
  import opened RoundRobin
  import opened RedisTaskSpec

  // The server. Each command may fail, and then changes nothing.
  class Redis {
    var store: State

    method LLen(k: ListKey) returns (failed: bool, length: nat)
      ensures !failed ==> length == |Items(store, k)|
    {
      failed, length := *, |Items(store, k)|;
    }

    method LRange(k: ListKey) returns (failed: bool, items: seq<Text>)
      ensures !failed ==> items == Items(store, k)
    {
      failed, items := *, Items(store, k);
    }

    method LPush(k: ListKey, text: Text) returns (failed: bool)
      modifies this
      ensures store == ForcePush(old(store), k, text, failed)
    {
      failed := *;
      if !failed {
        store := Put(store, k, [text] + Items(store, k));
      }
    }

    method RPush(k: ListKey, text: Text) returns (failed: bool)
      modifies this
      ensures store == if failed then old(store) else Put(old(store), k, Items(old(store), k) + [text])
    {
      failed := *;
      if !failed {
        store := Put(store, k, Items(store, k) + [text]);
      }
    }

    // An empty list answers with an error too; failed tells only of a failing call.
    method RPop(k: ListKey) returns (failed: bool, text: Option<Text>)
      modifies this
      ensures var items := Items(old(store), k);
              if failed || items == [] then text.None? && store == old(store)
              else text == Some(items[|items| - 1]) && store == Put(old(store), k, items[..|items| - 1])
    {
      failed, text := *, None;
      var items := Items(store, k);
      if !failed && items != [] {
        text := Some(items[|items| - 1]);
        store := Put(store, k, items[..|items| - 1]);
      }
    }

    // The script that removes by index.
    method CutAt(k: ListKey, index: nat) returns (failed: bool, removed: bool)
      modifies this
      ensures failed || index >= |Items(old(store), k)| ==> store == old(store) && !removed
      ensures !failed && index < |Items(old(store), k)| ==> removed && store == Put(old(store), k, Cut(Items(old(store), k), index))
    {
      failed, removed := *, false;
      if !failed && index < |Items(store, k)| {
        removed := true;
        store := Put(store, k, Cut(Items(store, k), index));
      }
    }

    method AddKey(key: Key) returns (failed: bool)
      modifies this
      ensures store == DoAddKey(old(store), key, failed)
    {
      failed := *;
      store := DoAddKey(store, key, failed);
    }

    // The loop of the round-robin script.
    method ScanKeys(c: Config) returns (index: Option<nat>)
      ensures index == Pick(store.keys, Last(store), Full(c, store))
    {
      if |store.keys| == 0 {
        return None;
      }
      var n, last := |store.keys|, Last(store);
      ghost var start, full := Start(last, n), Full(c, store);
      for i := 1 to n + 1
        invariant RoundRobin.Scan(store.keys, start, 0, full) == RoundRobin.Scan(store.keys, start, i - 1, full)
      {
        var next := NextIndex(last, i, n);
        if |Items(store, Processing(store.keys[next]))| < c.maxProcessing {
          return Some(next);
        }
      }
      return None;
    }

    method NextIndex(last: int, i: nat, n: nat) returns (next: nat)
      requires -1 <= last && 0 < i <= n
      ensures next == Wrap(Start(last, n) + i - 1, n)
    {
      next := (last + i) % n;
      ScanIndex(last, i - 1, n);
    }

    // The round-robin script.
    method NextKey(c: Config) returns (failed: bool, key: Option<Key>)
      modifies this
      ensures (store, key) == DoScan(c, old(store), failed)
    {
      failed, key := *, None;
      if failed {
        return;
      }
      var index := ScanKeys(c);
      if index.Some? {
        key := Some(store.keys[index.value]);
        store := store.(last := index);
      }
    }
  }

  // The shortest list with room among the keys whose LLEN answered, if there is one.
  predicate IsLeast(c: Config, s: State, key: Option<Key>, answered: seq<bool>) {
    && |answered| == |s.keys|
    && (key.None? <==> forall p :: 0 <= p < |answered| && answered[p] ==> |Items(s, Processing(s.keys[p]))| >= c.maxProcessing)
    && (key.Some? ==>
          && HasRoom(c, s, key.value)
          && forall p :: 0 <= p < |answered| && answered[p] ==>
               |Items(s, Processing(key.value))| <= |Items(s, Processing(s.keys[p]))|)
  }

  // With all calls working that is an assignment in the sense of the specification.
  lemma LeastAssigns(c: Config, s: State, key: Option<Key>, answered: seq<bool>)
    requires IsLeast(c, s, key, answered) && forall p :: 0 <= p < |answered| ==> answered[p]
    ensures Assigns(c, s, key)
  {
    if key.None? {
      forall k | k in s.keys ensures !HasRoom(c, s, k) {
        var p :| 0 <= p < |s.keys| && s.keys[p] == k;
        assert answered[p];
      }
    }
  }

  class QueueManager {
    const redis: Redis
    const c: Config

    constructor (redis: Redis, c: Config)
      ensures this.redis == redis && this.c == c
    {
      this.redis, this.c := redis, c;
    }

    method RemoveFromQueue(k: ListKey, text: Text) returns (reply: Reply, ghost f: RemoveFaults)
      modifies redis
      ensures (redis.store, reply) == Remove(old(redis.store), k, text, f)
    {
      var failed, items := redis.LRange(k);
      f := RemoveFaults(failed, false);
      if failed {
        return Failed, f;
      }
      for i := 0 to |items|
        invariant redis.store == old(redis.store)
        invariant forall j :: 0 <= j < i ==> !Same(items[j], text)
      {
        if items[i] == text {
          FirstMatchAt(items, text, Same, i);
          var err, removed := redis.CutAt(k, i);
          f := RemoveFaults(false, err);
          return if err then Failed else if removed then Done else NotFound, f;
        }
      }
      NoMatch(items, text, Same);
      reply := NotFound;
    }

    method PushTo(k: ListKey, capacity: int, text: Text) returns (reply: Reply, ghost f: PushFaults)
      modifies redis
      ensures (redis.store, reply) == Push(old(redis.store), k, capacity, text, f)
    {
      var failed, length := redis.LLen(k);
      f := PushFaults(failed, false);
      if failed {
        return Failed, f;
      }
      if length >= capacity {
        return Refused, f;
      }
      failed := redis.LPush(k, text);
      f := PushFaults(false, failed);
      reply := if failed then Failed else Done;
    }

    method MoveTo(from: ListKey, to: ListKey) returns (reply: Reply, ghost f: MoveFaults)
      modifies redis
      ensures (redis.store, reply) == Move(old(redis.store), from, to, f)
    {
      var failed, text := redis.RPop(from);
      f := MoveFaults(failed, false, false);
      if text.None? {
        return NotFound, f;
      }
      failed := redis.LPush(to, text.value);
      if failed {
        var undone := redis.RPush(from, text.value);
        f := MoveFaults(false, true, undone);
        return Failed, f;
      }
      reply := Done;
    }

    method BackfillProcessingQueue(key: Key) returns (reply: Reply, ghost f: BackfillFaults)
      modifies redis
      ensures (redis.store, reply) == Backfill(c, old(redis.store), key, f)
    {
      ghost var none := MoveFaults(false, false, false);
      var failed, length := redis.LLen(Processing(key));
      f := BackfillFaults(failed, none, none);
      if failed {
        return Failed, f;
      }
      if length >= c.maxProcessing {
        return Done, f;
      }
      ghost var fw, fg;
      reply, fw := MoveTo(Waiting(key), Processing(key));
      f := BackfillFaults(false, fw, none);
      if reply != NotFound {
        return;
      }
      reply, fg := MoveTo(Global, Processing(key));
      f := BackfillFaults(false, fw, fg);
      reply := if reply == Failed then Failed else Done;
    }

    // Insert: the strategy assigns a key, and the task is pushed accordingly. The key is returned when
    // the task went to its processing list.
    method Insert(text: Text) returns (key: Option<Key>, reply: Reply, ghost scanFails: bool, ghost answered: seq<bool>, ghost push: PushFaults, ghost global: PushFaults)
      modifies redis
      ensures c.strategy.RoundRobinTask? ==>
                var (s1, chosen) := DoScan(c, old(redis.store), scanFails);
                (redis.store, reply) == DoInsert(c, s1, text, chosen, push, global) && (key.Some? ==> key == chosen)
      ensures c.strategy.LeastTask? ==>
                exists chosen :: IsLeast(c, old(redis.store), chosen, answered)
                              && (redis.store, reply) == DoInsert(c, old(redis.store), text, chosen, push, global) && (key.Some? ==> key == chosen)
    {
      scanFails, answered := false, [];
      var chosen: Option<Key>;
      match c.strategy {
        case RoundRobinTask =>
          var failed;
          failed, chosen := redis.NextKey(c);
          scanFails := failed;
        case LeastTask =>
          chosen, answered := LeastTask();
      }
      reply, push, global, key := InsertAssigned(text, chosen);
    }

    method InsertAssigned(text: Text, chosen: Option<Key>) returns (reply: Reply, ghost push: PushFaults, ghost global: PushFaults, key: Option<Key>)
      modifies redis
      ensures (redis.store, reply) == DoInsert(c, old(redis.store), text, chosen, push, global)
      ensures key.Some? ==> key == chosen && reply == Done
    {
      push, key := PushFaults(false, false), None;
      if chosen.Some? {
        reply, push := PushTo(Processing(chosen.value), c.maxProcessing, text);
        if reply == Done {
          global, key := push, chosen;
          return;
        }
      }
      reply, global := PushTo(Global, c.maxGlobal, text);
    }

    method InsertByKey(key: Key, text: Text) returns (reply: Reply, ghost fails: bool, ghost push: PushFaults, ghost waiting: PushFaults)
      modifies redis
      ensures (redis.store, reply) == DoInsertByKey(c, old(redis.store), key, text, fails, push, waiting)
    {
      push, waiting := PushFaults(false, false), PushFaults(false, false);
      var failed := redis.AddKey(key);
      fails := failed;
      if failed {
        reply := Failed;
        return;
      }
      reply, push := PushTo(Processing(key), c.maxProcessing, text);
      if reply == Done {
        return;
      }
      reply, waiting := PushTo(Waiting(key), c.maxWaiting, text);
      reply := if reply == Done then Done else Refused;
    }

    method Delete(key: Key, text: Text) returns (reply: Reply, ghost cut: RemoveFaults, ghost cutWaiting: RemoveFaults, ghost fill: BackfillFaults)
      modifies redis
      ensures (redis.store, reply) == DoDelete(c, old(redis.store), key, text, cut, cutWaiting, fill)
    {
      ghost var none := MoveFaults(false, false, false);
      cutWaiting, fill := RemoveFaults(false, false), BackfillFaults(false, none, none);
      reply, cut := RemoveFromQueue(Processing(key), text);
      if reply == Failed {
        return;
      }
      if reply == Done {
        var backfilled;
        backfilled, fill := BackfillProcessingQueue(key);
        return;
      }
      reply, cutWaiting := RemoveFromQueue(Waiting(key), text);
    }

    method TransformProcessingData(from: Key, to: Key, text: Text)
      returns (reply: Reply, ghost cut: RemoveFaults, ghost force: bool, ghost undo: bool, ghost fill: BackfillFaults)
      modifies redis
      ensures (redis.store, reply) == DoTransform(c, old(redis.store), from, to, text, cut, force, undo, fill)
    {
      ghost var none := MoveFaults(false, false, false);
      force, undo, fill := false, false, BackfillFaults(false, none, none);
      reply, cut := RemoveFromQueue(Processing(from), text);
      if reply != Done {
        return;
      }
      var failed := redis.LPush(Processing(to), text);
      force := failed;
      if failed {
        failed := redis.LPush(Processing(from), text);
        undo := failed;
        reply := Failed;
        return;
      }
      reply, fill := BackfillProcessingQueue(from);
    }

    // The key whose processing list is shortest among those with room; keys whose LLEN failed are
    // passed over.
    method LeastTask() returns (key: Option<Key>, ghost answered: seq<bool>)
      ensures IsLeast(c, redis.store, key, answered)
    {
      var keys := redis.store.keys;
      key, answered := None, [];
      var minTasks := c.maxProcessing + 1;
      for i := 0 to |keys|
        invariant |answered| == i
        invariant key.None? ==> minTasks == c.maxProcessing + 1
        invariant key.None? ==> forall p :: 0 <= p < i && answered[p] ==> |Items(redis.store, Processing(keys[p]))| >= c.maxProcessing
        invariant key.Some? ==> key.value in keys && minTasks == |Items(redis.store, Processing(key.value))| < c.maxProcessing
        invariant key.Some? ==> forall p :: 0 <= p < i && answered[p] ==> minTasks <= |Items(redis.store, Processing(keys[p]))|
        invariant key.Some? ==> exists p :: 0 <= p < i && answered[p] && keys[p] == key.value
      {
        var failed, length := redis.LLen(Processing(keys[i]));
        answered := answered + [!failed];
        if !failed && length < c.maxProcessing && length < minTasks {
          key, minTasks := Some(keys[i]), length;
          assert answered[i] && keys[i] == key.value;
        }
      }
    }

    // How many tasks the global queue hands out before text, or -1.
    method GetGlobalQueuePosition(text: Text) returns (failed: bool, position: int)
      ensures failed ==> position == -1
      ensures !failed && position == -1 ==> text !in Items(redis.store, Global)
      ensures !failed && position != -1 ==> 0 <= position && IsTurn(Items(redis.store, Global), text, position)
    {
      var items;
      failed, items := redis.LRange(Global);
      if failed {
        return true, -1;
      }
      for i := |items| downto 0
        invariant forall j :: i <= j < |items| ==> items[j] != text
      {
        if items[i] == text {
          TurnIs(items, text, i);
          return false, |items| - 1 - i;
        }
      }
      return false, -1;
    }
  }
}
