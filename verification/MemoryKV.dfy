/** The in-memory key-value store with leases and watchers (discovery/inprocess/memory_kv.go). */
module MemoryKVSpec {
  import opened Basics

  type Key = string
  type Value = seq<int>
  type LeaseId = nat
  type SubId = nat

  datatype Entry = Entry(value: Value, lease: Option<LeaseId>)

  type Items = map<Key, Entry>

  datatype Event = Put(key: Key, value: Value) | Deleted(key: Key)

  predicate HasPrefix(key: Key, prefix: Key) {
    prefix <= key
  }

  // The part of the store a watcher of prefix may see.
  function View(items: Items, prefix: Key): map<Key, Value> {
    map k | k in items && HasPrefix(k, prefix) :: items[k].value
  }

  function Change(store: map<Key, Value>, e: Event): map<Key, Value> {
    match e
    case Put(k, v) => store[k := v]
    case Deleted(k) => store - {k}
  }

  function Replay(store: map<Key, Value>, events: seq<Event>): map<Key, Value> {
    if events == [] then store
    else Change(Replay(store, events[..|events| - 1]), events[|events| - 1])
  }

  // Where the WatchKey goroutine is: blocked in select, about to take the queue after
  // receiving the token, handling what it took, or out of its loop.
  datatype Phase = Parked | Taking | Handling | Gone

  // queue and token are the shared part; hand is taken but not yet handled. base and
  // handled are the history: the view at subscription and every event handled so far.
  datatype Sub = Sub(prefix: Key, queue: seq<Event>, token: bool, phase: Phase, hand: seq<Event>,
                     base: map<Key, Value>, handled: seq<Event>)

  // A writer that holds the lock and is publishing: todo still get the event, mid got it
  // queued but not yet the token.
  datatype Writer = NoWriter | Publishing(event: Event, todo: set<SubId>, mid: Option<SubId>)

  // What has happened to the store, oldest first.
  datatype Op =
    | Wrote(key: Key, value: Value, lease: Option<LeaseId>)
    | Removed(key: Key)
    | Expired(timer: LeaseId)
    | Cleared

  // timers: leases whose goroutine may still fire, with their key; stale: leases whose
  // cancel function is about to be called.
  datatype State = State(items: Items, subs: map<SubId, Sub>, lastId: nat, writer: Writer,
                         timers: map<LeaseId, Key>, stale: set<LeaseId>, used: set<LeaseId>, history: seq<Op>)

  const START := State(map[], map[], 0, NoWriter, map[], {}, {}, [])

  datatype Step =
    | SetValue(key: Key, value: Value, lease: Option<LeaseId>)
    | DeleteKey(key: Key)
    | TimerFires(timer: LeaseId)
    | Cancel(timer: LeaseId)
    | Enqueue(i: SubId)
    | Notify
    | Unlock
    | Subscribe(prefix: Key)
    | Remove(i: SubId)
    | Wake(i: SubId)
    | Take(i: SubId)
    | Handle(i: SubId)
    | Park(i: SubId)
    | Quit(i: SubId)
    | Close

  predicate Enabled(s: State, step: Step) {
    match step
    case SetValue(_, _, lease) => s.writer.NoWriter? && (lease.Some? ==> lease.value !in s.used)
    case DeleteKey(_) => s.writer.NoWriter?
    case TimerFires(l) => s.writer.NoWriter? && l in s.timers
    case Cancel(l) => l in s.stale
    case Enqueue(i) => s.writer.Publishing? && s.writer.mid == None && i in s.writer.todo && i in s.subs
    case Notify => s.writer.Publishing? && s.writer.mid.Some? && s.writer.mid.value in s.subs
    case Unlock => s.writer.Publishing? && s.writer.mid == None && s.writer.todo == {}
    case Subscribe(_) => s.writer.NoWriter?
    case Remove(i) => s.writer.NoWriter? && i in s.subs && s.subs[i].phase == Gone
    case Wake(i) => i in s.subs && s.subs[i].phase == Parked && s.subs[i].token
    case Take(i) => i in s.subs && s.subs[i].phase == Taking
    case Handle(i) => i in s.subs && s.subs[i].phase == Handling && s.subs[i].hand != []
    case Park(i) => i in s.subs && s.subs[i].phase == Handling && s.subs[i].hand == []
    case Quit(i) => i in s.subs
    case Close => s.writer.NoWriter?
  }

  function Matching(subs: map<SubId, Sub>, key: Key): set<SubId> {
    set i | i in subs && HasPrefix(key, subs[i].prefix)
  }

  // publishWatchEventLocked begins.
  function Publish(s: State, e: Event): State {
    s.(writer := Publishing(e, Matching(s.subs, e.key), None))
  }

  function LeaseOf(items: Items, key: Key): set<LeaseId> {
    if key in items && items[key].lease.Some? then {items[key].lease.value} else {}
  }

  function Delete(s: State, key: Key): State {
    Publish(s.(items := s.items - {key}), Deleted(key))
  }

  function Apply(s: State, step: Step): State
    requires Enabled(s, step)
  {
    match step
    case SetValue(k, v, lease) =>
      var s' := s.(items := s.items[k := Entry(v, lease)], history := s.history + [Wrote(k, v, lease)], stale := s.stale + LeaseOf(s.items, k));
      Publish(if lease.Some? then s'.(timers := s'.timers[lease.value := k], used := s'.used + {lease.value}) else s', Put(k, v))
    case DeleteKey(k) =>
      var s' := s.(history := s.history + [Removed(k)], stale := s.stale + LeaseOf(s.items, k));
      if k in s.items then Delete(s', k) else s'
    case TimerFires(l) =>
      var k := s.timers[l];
      var s' := s.(timers := s.timers - {l}, history := s.history + [Expired(l)]);
      if k in s.items && s.items[k].lease == Some(l) then Delete(s', k) else s'
    case Cancel(l) => s.(timers := s.timers - {l})
    case Enqueue(i) =>
      var w := s.writer;
      var b := s.subs[i];
      s.(writer := w.(todo := w.todo - {i}, mid := Some(i)), subs := s.subs[i := b.(queue := b.queue + [w.event])])
    case Notify =>
      var i := s.writer.mid.value;
      s.(writer := s.writer.(mid := None), subs := s.subs[i := s.subs[i].(token := true)])
    case Unlock => s.(writer := NoWriter)
    case Subscribe(p) =>
      s.(lastId := s.lastId + 1, subs := s.subs[s.lastId + 1 := Sub(p, [], false, Parked, [], View(s.items, p), [])])
    case Remove(i) => s.(subs := s.subs - {i})
    case Wake(i) => s.(subs := s.subs[i := s.subs[i].(token := false, phase := Taking)])
    case Take(i) => s.(subs := s.subs[i := s.subs[i].(hand := s.subs[i].queue, queue := [], phase := Handling)])
    case Handle(i) =>
      var b := s.subs[i];
      s.(subs := s.subs[i := b.(handled := b.handled + [b.hand[0]], hand := b.hand[1..])])
    case Park(i) => s.(subs := s.subs[i := s.subs[i].(phase := Parked)])
    case Quit(i) => s.(subs := s.subs[i := s.subs[i].(phase := Gone)])
    case Close =>
      s.(items := map[], subs := map[], history := s.history + [Cleared],
         stale := s.stale + set k | k in s.items && s.items[k].lease.Some? :: s.items[k].lease.value)
  }

  predicate IsRun(s: State, steps: seq<Step>)
    decreases |steps|
  {
    steps == [] || (Enabled(s, steps[0]) && IsRun(Apply(s, steps[0]), steps[1..]))
  }

  function After(s: State, steps: seq<Step>): State
    requires IsRun(s, steps)
    decreases |steps|
  {
    if steps == [] then s else After(Apply(s, steps[0]), steps[1..])
  }

  // ----- the feed -----

  // What is still on its way to subscriber i: in hand, queued, or about to be queued by
  // the writer that holds the lock.
  function OnTheWay(b: Sub, i: SubId, w: Writer): seq<Event> {
    b.hand + b.queue + if w.Publishing? && i in w.todo then [w.event] else []
  }

  ghost predicate InStep(b: Sub, i: SubId, items: Items, w: Writer) {
    Replay(b.base, b.handled + OnTheWay(b, i, w)) == View(items, b.prefix)
  }

  // A non-empty queue is about to be seen: its token is set or being set, or its watcher
  // is on the way to take it.
  ghost predicate WillWake(b: Sub, i: SubId, w: Writer) {
    b.queue != [] ==> b.token || b.phase == Taking || b.phase == Gone || (w.Publishing? && w.mid == Some(i))
  }

  ghost predicate FeedOk(s: State) {
    && (forall i :: i in s.subs && s.subs[i].phase != Gone ==> InStep(s.subs[i], i, s.items, s.writer))
    && (forall i :: i in s.subs ==> WillWake(s.subs[i], i, s.writer))
    && (forall i :: i in s.subs ==> i <= s.lastId)
    && (forall i :: i in s.subs && s.subs[i].phase != Handling && s.subs[i].phase != Gone ==> s.subs[i].hand == [])
    && (s.writer.Publishing? ==> s.writer.todo <= s.subs.Keys && (s.writer.mid.Some? ==> s.writer.mid.value in s.subs))
  }

  lemma ReplayOne(store: map<Key, Value>, events: seq<Event>, e: Event)
    ensures Replay(store, events + [e]) == Change(Replay(store, events), e)
  {
    assert (events + [e])[..|events|] == events;
  }

  lemma ViewAfterPut(items: Items, k: Key, entry: Entry, p: Key)
    ensures View(items[k := entry], p) == if HasPrefix(k, p) then View(items, p)[k := entry.value] else View(items, p)
  {
  }

  lemma ViewAfterDelete(items: Items, k: Key, p: Key)
    ensures View(items - {k}, p) == if HasPrefix(k, p) then View(items, p) - {k} else View(items, p)
  {
  }

  // The store changes as event e says.
  ghost predicate Changes(items: Items, items': Items, e: Event) {
    || (e.Put? && exists l :: items' == items[e.key := Entry(e.value, l)])
    || (e.Deleted? && items' == items - {e.key})
  }

  lemma ViewChanges(items: Items, items': Items, e: Event, p: Key)
    requires Changes(items, items', e)
    ensures View(items', p) == if HasPrefix(e.key, p) then Change(View(items, p), e) else View(items, p)
  {
    if e.Put? {
      var l :| items' == items[e.key := Entry(e.value, l)];
      ViewAfterPut(items, e.key, Entry(e.value, l), p);
    } else {
      ViewAfterDelete(items, e.key, p);
    }
  }

  // One subscriber, when the writer starts to publish the change.
  lemma PublishKeepsInStep(b: Sub, i: SubId, items: Items, items': Items, e: Event, todo: set<SubId>)
    requires InStep(b, i, items, NoWriter) && Changes(items, items', e)
    requires i in todo <==> HasPrefix(e.key, b.prefix)
    ensures InStep(b, i, items', Publishing(e, todo, None))
  {
    ViewChanges(items, items', e, b.prefix);
    var coming := b.hand + b.queue;
    assert coming + [] == coming;
    if HasPrefix(e.key, b.prefix) {
      ReplayOne(b.base, b.handled + coming, e);
      assert b.handled + coming + [e] == b.handled + (coming + [e]);
    }
  }

  // Changing the store and starting to publish the change keeps every subscriber in step.
  lemma PublishKeepsFeed(s: State, s': State, e: Event)
    requires FeedOk(s) && s.writer.NoWriter?
    requires s'.subs == s.subs && s'.lastId == s.lastId
    requires s'.writer == Publishing(e, Matching(s.subs, e.key), None) && Changes(s.items, s'.items, e)
    ensures FeedOk(s')
  {
    forall i | i in s'.subs && s'.subs[i].phase != Gone
      ensures InStep(s'.subs[i], i, s'.items, s'.writer)
    {
      assert InStep(s.subs[i], i, s.items, s.writer);
      PublishKeepsInStep(s.subs[i], i, s.items, s'.items, e, s'.writer.todo);
    }
    forall i | i in s'.subs
      ensures WillWake(s'.subs[i], i, s'.writer)
    {
      assert WillWake(s.subs[i], i, s.writer);
    }
  }

  // How a writer may move on while it deals with subscriber i.
  predicate WriterMoves(w: Writer, w': Writer, i: SubId) {
    || w' == w
    || (&& w.Publishing? && w'.Publishing? && w'.event == w.event
        && (w'.todo == w.todo || w'.todo == w.todo - {i})
        && (w'.mid == None || w'.mid == Some(i))
        && (w.mid == None || w.mid == Some(i)))
  }

  lemma OtherSub(b: Sub, j: SubId, i: SubId, items: Items, w: Writer, w': Writer)
    requires j != i && WriterMoves(w, w', i)
    requires WillWake(b, j, w) && (b.phase != Gone ==> InStep(b, j, items, w))
    ensures WillWake(b, j, w') && (b.phase != Gone ==> InStep(b, j, items, w'))
  {
    assert w.Publishing? ==> (j in w.todo <==> j in w'.todo);
    assert OnTheWay(b, j, w) == OnTheWay(b, j, w');
  }

  // A step of one watcher, or of the writer towards one watcher.
  lemma SubKeepsFeed(s: State, s': State, i: SubId, b: Sub)
    requires FeedOk(s) && i in s.subs
    requires s'.subs == s.subs[i := b] && s'.lastId == s.lastId && s'.items == s.items
    requires WriterMoves(s.writer, s'.writer, i)
    requires b.phase != Gone ==> s.subs[i].phase != Gone && b.prefix == s.subs[i].prefix && b.base == s.subs[i].base
    requires b.phase != Gone ==> b.handled + OnTheWay(b, i, s'.writer) == s.subs[i].handled + OnTheWay(s.subs[i], i, s.writer)
    requires WillWake(b, i, s'.writer)
    requires b.phase != Handling && b.phase != Gone ==> b.hand == []
    ensures FeedOk(s')
  {
    forall j | j in s'.subs
      ensures WillWake(s'.subs[j], j, s'.writer) && (s'.subs[j].phase != Gone ==> InStep(s'.subs[j], j, s'.items, s'.writer))
    {
      if j != i {
        OtherSub(s.subs[j], j, i, s.items, s.writer, s'.writer);
      } else if b.phase != Gone {
        assert InStep(s.subs[i], i, s.items, s.writer);
      }
    }
  }

  lemma WriterSteps(s: State, step: Step)
    requires FeedOk(s) && Enabled(s, step)
    requires step.SetValue? || step.DeleteKey? || step.TimerFires? || step.Cancel? || step.Unlock? || step.Close?
    ensures FeedOk(Apply(s, step))
  {
    var s' := Apply(s, step);
    match step
    case SetValue(k, v, lease) =>
      PublishKeepsFeed(s, s', Put(k, v));
    case DeleteKey(k) =>
      if k in s.items { PublishKeepsFeed(s, s', Deleted(k)); }
    case TimerFires(l) =>
      var k := s.timers[l];
      if k in s.items && s.items[k].lease == Some(l) { PublishKeepsFeed(s, s', Deleted(k)); }
    case Unlock =>
      forall i | i in s'.subs && s'.subs[i].phase != Gone
        ensures InStep(s'.subs[i], i, s'.items, s'.writer)
      {
        assert InStep(s.subs[i], i, s.items, s.writer);
      }
      forall i | i in s'.subs
        ensures WillWake(s'.subs[i], i, s'.writer)
      {
        assert WillWake(s.subs[i], i, s.writer);
      }
    case _ =>
  }

  lemma EnqueueStep(s: State, i: SubId)
    requires FeedOk(s) && Enabled(s, Enqueue(i))
    ensures FeedOk(Apply(s, Enqueue(i)))
  {
    var b := s.subs[i];
    var b' := Apply(s, Enqueue(i)).subs[i];
    assert b.hand + b.queue + [s.writer.event] == b.hand + (b.queue + [s.writer.event]) + [];
    SubKeepsFeed(s, Apply(s, Enqueue(i)), i, b');
  }

  lemma SubscribeStep(s: State, p: Key)
    requires FeedOk(s) && Enabled(s, Subscribe(p))
    ensures FeedOk(Apply(s, Subscribe(p)))
  {
    var s' := Apply(s, Subscribe(p));
    forall i | i in s'.subs
      ensures WillWake(s'.subs[i], i, s'.writer) && (s'.subs[i].phase != Gone ==> InStep(s'.subs[i], i, s'.items, s'.writer))
    {
      if i in s.subs {
        assert WillWake(s.subs[i], i, s.writer);
        assert s.subs[i].phase != Gone ==> InStep(s.subs[i], i, s.items, s.writer);
      } else {
        var none: seq<Event> := [];
        assert none + none == none;
      }
    }
  }

  lemma WakeStep(s: State, i: SubId)
    requires FeedOk(s) && Enabled(s, Wake(i))
    ensures FeedOk(Apply(s, Wake(i)))
  {
    SubKeepsFeed(s, Apply(s, Wake(i)), i, s.subs[i].(token := false, phase := Taking));
  }

  lemma TakeStep(s: State, i: SubId)
    requires FeedOk(s) && Enabled(s, Take(i))
    ensures FeedOk(Apply(s, Take(i)))
  {
    var b := s.subs[i];
    var b' := b.(hand := b.queue, queue := [], phase := Handling);
    assert b.hand + b.queue == b'.hand + b'.queue;
    SubKeepsFeed(s, Apply(s, Take(i)), i, b');
  }

  lemma HandleStep(s: State, i: SubId)
    requires FeedOk(s) && Enabled(s, Handle(i))
    ensures FeedOk(Apply(s, Handle(i)))
  {
    var b := s.subs[i];
    var b' := b.(handled := b.handled + [b.hand[0]], hand := b.hand[1..]);
    var tail := if s.writer.Publishing? && i in s.writer.todo then [s.writer.event] else [];
    assert b.handled + (b.hand + b.queue + tail) == b'.handled + (b'.hand + b'.queue + tail);
    assert WillWake(b, i, s.writer);
    SubKeepsFeed(s, Apply(s, Handle(i)), i, b');
  }

  lemma ParkStep(s: State, i: SubId)
    requires FeedOk(s) && Enabled(s, Park(i))
    ensures FeedOk(Apply(s, Park(i)))
  {
    assert WillWake(s.subs[i], i, s.writer);
    SubKeepsFeed(s, Apply(s, Park(i)), i, s.subs[i].(phase := Parked));
  }

  lemma QuitStep(s: State, i: SubId)
    requires FeedOk(s) && Enabled(s, Quit(i))
    ensures FeedOk(Apply(s, Quit(i)))
  {
    SubKeepsFeed(s, Apply(s, Quit(i)), i, s.subs[i].(phase := Gone));
  }

  lemma StepKeepsFeed(s: State, step: Step)
    requires FeedOk(s) && Enabled(s, step)
    ensures FeedOk(Apply(s, step))
  {
    match step
    case Enqueue(i) => EnqueueStep(s, i);
    case Notify =>
      var i := s.writer.mid.value;
      assert WillWake(s.subs[i], i, s.writer);
      SubKeepsFeed(s, Apply(s, Notify), i, s.subs[i].(token := true));
    case Subscribe(p) => SubscribeStep(s, p);
    case Remove(i) => RemoveStep(s, i);
    case Wake(i) => WakeStep(s, i);
    case Take(i) => TakeStep(s, i);
    case Handle(i) => HandleStep(s, i);
    case Park(i) => ParkStep(s, i);
    case Quit(i) => QuitStep(s, i);
    case _ => WriterSteps(s, step);
  }

  lemma RemoveStep(s: State, i: SubId)
    requires FeedOk(s) && Enabled(s, Remove(i))
    ensures FeedOk(Apply(s, Remove(i)))
  {
    var s' := Apply(s, Remove(i));
    forall j | j in s'.subs
      ensures WillWake(s'.subs[j], j, s'.writer) && (s'.subs[j].phase != Gone ==> InStep(s'.subs[j], j, s'.items, s'.writer))
    {
      assert WillWake(s.subs[j], j, s.writer);
      assert s.subs[j].phase != Gone ==> InStep(s.subs[j], j, s.items, s.writer);
    }
  }

  lemma {:induction false} RunKeepsFeed(s: State, steps: seq<Step>)
    requires FeedOk(s) && IsRun(s, steps)
    ensures FeedOk(After(s, steps))
    decreases |steps|
  {
    if steps != [] {
      StepKeepsFeed(s, steps[0]);
      RunKeepsFeed(Apply(s, steps[0]), steps[1..]);
    }
  }

  // Watch replay: for every watcher still in its loop, applying to the view it started
  // from what it has handled, what it holds, what is queued and what a writer is about to
  // queue gives the view of the store now, in the order of the mutations.
  lemma WatchReplay(steps: seq<Step>, i: SubId)
    requires IsRun(START, steps)
    requires i in After(START, steps).subs && After(START, steps).subs[i].phase != Gone
    ensures var s := After(START, steps); var b := s.subs[i];
            && Replay(b.base, b.handled + OnTheWay(b, i, s.writer)) == View(s.items, b.prefix)
            && (s.writer.NoWriter? && b.queue == [] && b.hand == [] ==> Replay(b.base, b.handled) == View(s.items, b.prefix))
  {
    RunKeepsFeed(START, steps);
    var s := After(START, steps);
    var b := s.subs[i];
    assert InStep(b, i, s.items, s.writer);
    var none: seq<Event> := [];
    assert b.handled + (none + none + none) == b.handled;
  }

  // No lost wakeup: with no writer inside, a parked watcher without a token has nothing
  // queued.
  lemma NoLostWakeup(steps: seq<Step>, i: SubId)
    requires IsRun(START, steps)
    requires var s := After(START, steps); i in s.subs && s.writer.NoWriter? && s.subs[i].phase == Parked && !s.subs[i].token
    ensures After(START, steps).subs[i].queue == []
  {
    RunKeepsFeed(START, steps);
    var s := After(START, steps);
    assert WillWake(s.subs[i], i, s.writer);
  }

  // ----- leases -----

  predicate Ends(op: Op, written: Op)
    requires written.Wrote?
  {
    || op.Cleared?
    || (op.Wrote? && op.key == written.key)
    || op == Removed(written.key)
    || (op.Expired? && written.lease == Some(op.timer))
  }

  // Write j is the last word on its key: it was not overwritten, deleted or cleared, and
  // its own lease has not run out.
  ghost predicate Survives(h: seq<Op>, j: nat) {
    j < |h| && h[j].Wrote? && forall k :: j < k < |h| ==> !Ends(h[k], h[j])
  }

  // The store holds exactly the surviving writes.
  ghost predicate StoreOk(items: Items, h: seq<Op>) {
    && (forall j: nat :: Survives(h, j) ==> h[j].key in items && items[h[j].key] == Entry(h[j].value, h[j].lease))
    && (forall k :: k in items ==> exists j: nat :: Survives(h, j) && h[j].key == k)
  }

  // What one more operation does to the store.
  ghost predicate Does(items: Items, op: Op, items': Items) {
    if op.Wrote? then items' == items[op.key := Entry(op.value, op.lease)]
    else
      && items'.Keys <= items.Keys
      && (forall k :: k in items' ==> items'[k] == items[k])
      && (forall k :: k in items ==> (k !in items' <==> Ends(op, Wrote(k, items[k].value, items[k].lease))))
  }

  // A write survives one more operation exactly when that does not end it.
  lemma SurvivesOneMore(h: seq<Op>, op: Op, j: nat)
    requires j < |h|
    ensures Survives(h + [op], j) <==> Survives(h, j) && !Ends(op, h[j])
  {
    var h' := h + [op];
    assert forall k :: j < k < |h| ==> h'[k] == h[k];
    assert h'[|h|] == op;
  }

  lemma OneMoreHolds(items: Items, h: seq<Op>, op: Op, items': Items, j: nat)
    requires StoreOk(items, h) && Does(items, op, items') && Survives(h + [op], j)
    ensures var w := (h + [op])[j]; w.key in items' && items'[w.key] == Entry(w.value, w.lease)
  {
    if j < |h| {
      SurvivesOneMore(h, op, j);
      assert items[h[j].key] == Entry(h[j].value, h[j].lease);
    }
  }

  lemma OneMoreHeld(items: Items, h: seq<Op>, op: Op, items': Items, k: Key)
    requires StoreOk(items, h) && Does(items, op, items') && k in items'
    ensures exists j: nat :: Survives(h + [op], j) && (h + [op])[j].key == k
  {
    if op.Wrote? && op.key == k {
      assert Survives(h + [op], |h|);
    } else {
      var j: nat :| Survives(h, j) && h[j].key == k;
      assert h[j] == Wrote(k, items[k].value, items[k].lease);
      SurvivesOneMore(h, op, j);
      assert (h + [op])[j] == h[j];
    }
  }

  lemma OneMore(items: Items, h: seq<Op>, op: Op, items': Items)
    requires StoreOk(items, h) && Does(items, op, items')
    ensures StoreOk(items', h + [op])
  {
    forall j: nat | Survives(h + [op], j)
      ensures (h + [op])[j].key in items' && items'[(h + [op])[j].key] == Entry((h + [op])[j].value, (h + [op])[j].lease)
    {
      OneMoreHolds(items, h, op, items', j);
    }
    forall k | k in items'
      ensures exists j: nat :: Survives(h + [op], j) && (h + [op])[j].key == k
    {
      OneMoreHeld(items, h, op, items', k);
    }
  }

  // Leases are never shared, and a stored lease has its timer, not cancelled, on its key.
  ghost predicate TimersOk(items: Items, timers: map<LeaseId, Key>, stale: set<LeaseId>, used: set<LeaseId>) {
    && (forall k :: k in items && items[k].lease.Some? ==>
          var l := items[k].lease.value; l in used && l !in stale && l in timers && timers[l] == k)
    && timers.Keys <= used && stale <= used
  }

  ghost predicate LeasesOk(s: State) {
    StoreOk(s.items, s.history) && TimersOk(s.items, s.timers, s.stale, s.used)
  }

  lemma StepKeepsStore(s: State, step: Step)
    requires LeasesOk(s) && Enabled(s, step)
    ensures StoreOk(Apply(s, step).items, Apply(s, step).history)
  {
    var s' := Apply(s, step);
    match step
    case SetValue(k, v, lease) => OneMore(s.items, s.history, Wrote(k, v, lease), s'.items);
    case DeleteKey(k) => OneMore(s.items, s.history, Removed(k), s'.items);
    case TimerFires(l) => OneMore(s.items, s.history, Expired(l), s'.items);
    case Close => OneMore(s.items, s.history, Cleared, s'.items);
    case _ =>
  }

  lemma StepKeepsTimers(s: State, step: Step)
    requires TimersOk(s.items, s.timers, s.stale, s.used) && Enabled(s, step)
    ensures var s' := Apply(s, step); TimersOk(s'.items, s'.timers, s'.stale, s'.used)
  {
  }

  lemma StepKeepsLeases(s: State, step: Step)
    requires LeasesOk(s) && Enabled(s, step)
    ensures LeasesOk(Apply(s, step))
  {
    StepKeepsStore(s, step);
    StepKeepsTimers(s, step);
  }

  lemma {:induction false} RunKeepsLeases(s: State, steps: seq<Step>)
    requires LeasesOk(s) && IsRun(s, steps)
    ensures LeasesOk(After(s, steps))
    decreases |steps|
  {
    if steps != [] {
      StepKeepsLeases(s, steps[0]);
      RunKeepsLeases(Apply(s, steps[0]), steps[1..]);
    }
  }

  // Last write wins, with its own TTL: over every interleaving of writes, deletions,
  // cancellations and timers, a key holds a value if and only if its last write has not
  // been deleted and that write's own lease has not run out; and a lease whose value is
  // still stored still has its timer, on that key.
  lemma LastWriteWins(steps: seq<Step>, key: Key)
    requires IsRun(START, steps)
    ensures var s := After(START, steps);
            && (key in s.items <==> exists j: nat :: Survives(s.history, j) && s.history[j].key == key)
            && (forall j: nat :: Survives(s.history, j) && s.history[j].key == key ==>
                  s.items[key] == Entry(s.history[j].value, s.history[j].lease))
            && (key in s.items && s.items[key].lease.Some? ==>
                  s.items[key].lease.value in s.timers && s.timers[s.items[key].lease.value] == key)
  {
    RunKeepsLeases(START, steps);
  }

  // A stale timer changes nothing: it removes only a value that was written with its lease.
  lemma StaleTimer(steps: seq<Step>, l: LeaseId)
    requires IsRun(START, steps) && Enabled(After(START, steps), TimerFires(l))
    ensures var s := After(START, steps); var s' := Apply(s, TimerFires(l));
            forall k :: k in s.items ==> if s.items[k].lease == Some(l) then k !in s'.items else k in s'.items && s'.items[k] == s.items[k]
  {
    RunKeepsLeases(START, steps);
  }

  lemma {:induction false} RunSnoc(s: State, steps: seq<Step>, step: Step)
    requires IsRun(s, steps) && Enabled(After(s, steps), step)
    ensures IsRun(s, steps + [step]) && After(s, steps + [step]) == Apply(After(s, steps), step)
    decreases |steps|
  {
    if steps == [] {
      assert (steps + [step])[1..] == [];
    } else {
      assert (steps + [step])[1..] == steps[1..] + [step];
      RunSnoc(Apply(s, steps[0]), steps[1..], step);
    }
  }

  // The steps by which a writer publishes to these subscribers, in this order.
  function Publishes(order: seq<SubId>): seq<Step> {
    if order == [] then [] else Publishes(order[..|order| - 1]) + [Enqueue(order[|order| - 1]), Notify]
  }

  // Of the subscribers in who, exactly those whose prefix matches have the event queued, and a token.
  function Told(subs: map<SubId, Sub>, e: Event, who: set<SubId>): map<SubId, Sub> {
    map i | i in subs ::
      if i in who && HasPrefix(e.key, subs[i].prefix) then subs[i].(queue := subs[i].queue + [e], token := true) else subs[i]
  }

  // Enqueue and Notify towards one subscriber.
  function TellOne(s: State, i: SubId): State
    requires Enabled(s, Enqueue(i))
  {
    var b, w := s.subs[i], s.writer;
    s.(subs := s.subs[i := b.(queue := b.queue + [w.event], token := true)], writer := w.(todo := w.todo - {i}))
  }

  // Of was, only the subscribers in rest have still to be dealt with; order are those told so far.
  ghost predicate Published(was: State, s: State, e: Event, rest: set<SubId>, order: seq<SubId>) {
    && s == was.(subs := Told(was.subs, e, was.subs.Keys - rest), writer := Publishing(e, Matching(was.subs, e.key) * rest, None))
    && (forall i, j :: 0 <= i < j < |order| ==> order[i] != order[j])
    && (forall i :: i in order <==> i in Matching(was.subs, e.key) - rest)
  }

  lemma StartPublishing(s: State, e: Event)
    requires s.writer == Publishing(e, Matching(s.subs, e.key), None)
    ensures Published(s, s, e, s.subs.Keys, [])
  {
    assert Told(s.subs, e, {}) == s.subs;
    assert s.subs.Keys - s.subs.Keys == {};
    assert Matching(s.subs, e.key) * s.subs.Keys == Matching(s.subs, e.key);
  }

  lemma PublishNext(was: State, s: State, e: Event, i: SubId, rest: set<SubId>, order: seq<SubId>)
    requires Published(was, s, e, rest, order) && i in rest && i in s.subs && HasPrefix(e.key, s.subs[i].prefix)
    ensures Enabled(s, Enqueue(i)) && s.writer.Publishing? && s.writer.event == e && s.writer.mid == None && i in s.writer.todo
    ensures Published(was, TellOne(s, i), e, rest - {i}, order + [i])
    ensures Publishes(order + [i]) == Publishes(order) + [Enqueue(i), Notify]
  {
    assert (order + [i])[..|order|] == order;
    var subs, todo := was.subs, Matching(was.subs, e.key);
    assert Told(subs, e, subs.Keys - (rest - {i})) == Told(subs, e, subs.Keys - rest)[i := subs[i].(queue := subs[i].queue + [e], token := true)];
    assert todo * (rest - {i}) == todo * rest - {i};
    forall q | 0 <= q < |order| ensures order[q] != i {
      assert order[q] in order;
    }
  }

  lemma SkipNext(was: State, s: State, e: Event, i: SubId, rest: set<SubId>, order: seq<SubId>)
    requires Published(was, s, e, rest, order) && i in s.subs && !HasPrefix(e.key, s.subs[i].prefix)
    ensures Published(was, s, e, rest - {i}, order)
  {
    assert Told(was.subs, e, was.subs.Keys - (rest - {i})) == Told(was.subs, e, was.subs.Keys - rest);
    assert Matching(was.subs, e.key) * (rest - {i}) == Matching(was.subs, e.key) * rest;
  }

  lemma EndPublishing(was: State, s: State, e: Event, order: seq<SubId>)
    requires Published(was, s, e, {}, order)
    ensures Walks(order, was.subs, e.key)
    ensures s == was.(subs := Told(was.subs, e, was.subs.Keys), writer := Publishing(e, {}, None))
  {
    assert was.subs.Keys - {} == was.subs.Keys;
    assert Matching(was.subs, e.key) * {} == {};
  }

  // Each matching subscriber once, in whatever order the map is walked.
  predicate Walks(order: seq<SubId>, subs: map<SubId, Sub>, key: Key) {
    && (forall i, j :: 0 <= i < j < |order| ==> order[i] != order[j])
    && (set i | i in order) == Matching(subs, key)
  }
}

/** The store object and its subscribers; writers run under the store's lock. */
module MemoryKV {
  import opened Basics
  import opened MemoryKVSpec

  class WatchSubscriber {
    const prefix: Key
    var queue: seq<Event>
    var token: bool

    constructor (p: Key)
      ensures prefix == p && queue == [] && !token
    {
      prefix, queue, token := p, [], false;
    }

    method Enqueue(e: Event)
      modifies this
      ensures queue == old(queue) + [e] && token
    {
      queue := queue + [e];
      token := true;
    }

    method TakeAll() returns (events: seq<Event>)
      modifies this`queue
      ensures events == old(queue) && queue == []
    {
      events := queue;
      queue := [];
    }
  }

  class Store {
    var items: Items
    var subscribers: map<SubId, WatchSubscriber>
    var lastId: nat
    ghost var cells: set<WatchSubscriber>
    // The protocol state, and every step since the store was made.
    ghost var view: State
    ghost var log: seq<Step>

    ghost predicate Valid()
      reads this`subscribers, this`cells, this`lastId
    {
      && (forall i :: i in subscribers ==> subscribers[i] in cells && i <= lastId)
      && (forall i, j :: i in subscribers && j in subscribers && i != j ==> subscribers[i] != subscribers[j])
    }

    // The subscribers as the protocol has them.
    ghost predicate ShowsSubs(subs: map<SubId, Sub>)
      reads this`subscribers, this`cells, cells
    {
      && subscribers.Keys == subs.Keys
      && forall i :: i in subscribers && subscribers[i] in cells ==>
           subscribers[i].prefix == subs[i].prefix && subscribers[i].queue == subs[i].queue && subscribers[i].token == subs[i].token
    }

    ghost predicate Shows()
      reads this, cells
    {
      && IsRun(START, log) && view == After(START, log)
      && items == view.items && lastId == view.lastId && ShowsSubs(view.subs)
    }

    // Nobody holds the lock.
    ghost predicate Unlocked()
      reads this`view
    {
      view.writer.NoWriter?
    }

    constructor ()
      ensures Valid() && Shows() && Unlocked() && view == START && log == [] && cells == {}
    {
      items, subscribers, lastId, cells := map[], map[], 0, {};
      view, log := START, [];
    }

    ghost method Record(step: Step)
      requires IsRun(START, log) && view == After(START, log) && Enabled(view, step)
      modifies this`view, this`log
      ensures IsRun(START, log) && view == After(START, log)
      ensures view == Apply(old(view), step) && log == old(log) + [step]
    {
      RunSnoc(START, log, step);
      view, log := Apply(view, step), log + [step];
    }

    method PublishLocked(e: Event) returns (ghost order: seq<SubId>)
      requires Valid() && Shows() && view.writer == Publishing(e, Matching(view.subs, e.key), None)
      modifies cells, this`view, this`log
      ensures Valid() && Shows() && log == old(log) + Publishes(order) && Walks(order, old(view).subs, e.key)
      ensures view == old(view).(subs := Told(old(view).subs, e, old(view).subs.Keys), writer := Publishing(e, {}, None))
    {
      order := [];
      var rest := subscribers.Keys;
      ghost var was, before := view, log;
      StartPublishing(view, e);
      while rest != {}
        invariant rest <= subscribers.Keys && Shows() && log == before + Publishes(order)
        invariant Published(was, view, e, rest, order)
        decreases rest
      {
        var i :| i in rest;
        order := PublishRound(was, before, e, i, rest, order);
        rest := rest - {i};
      }
      EndPublishing(was, view, e, order);
    }

    method PublishRound(ghost was: State, ghost before: seq<Step>, e: Event, i: SubId, ghost rest: set<SubId>, ghost order: seq<SubId>)
      returns (ghost longer: seq<SubId>)
      requires Valid() && Shows() && i in rest && i in subscribers
      requires log == before + Publishes(order) && Published(was, view, e, rest, order)
      modifies subscribers[i], this`view, this`log
      ensures Shows() && log == before + Publishes(longer) && Published(was, view, e, rest - {i}, longer)
    {
      assert subscribers[i].prefix == view.subs[i].prefix;
      if HasPrefix(e.key, subscribers[i].prefix) {
        longer := order + [i];
        PublishNext(was, view, e, i, rest, order);
        PublishTo(i, e);
      } else {
        longer := order;
        SkipNext(was, view, e, i, rest, order);
      }
    }

    method PublishTo(i: SubId, e: Event)
      requires Valid() && Shows() && i in subscribers
      requires view.writer.Publishing? && view.writer.event == e && view.writer.mid == None && i in view.writer.todo
      modifies subscribers[i], this`view, this`log
      ensures Valid() && Shows() && log == old(log) + [Enqueue(i), Notify]
      ensures view == TellOne(old(view), i)
    {
      RecordPublish(i);
      subscribers[i].Enqueue(e);
    }

    ghost method RecordPublish(i: SubId)
      requires IsRun(START, log) && view == After(START, log) && Enabled(view, Enqueue(i))
      modifies this`view, this`log
      ensures IsRun(START, log) && view == After(START, log)
      ensures view == TellOne(old(view), i) && log == old(log) + [Enqueue(i), Notify]
    {
      Record(Enqueue(i));
      Record(Notify);
    }

    // setValue's critical section. The old lease, if any, is then the caller's to cancel.
    method SetValue(key: Key, value: Value, lease: Option<LeaseId>) returns (oldLease: Option<LeaseId>, ghost order: seq<SubId>)
      requires Valid() && Shows() && Unlocked() && (lease.Some? ==> lease.value !in view.used)
      modifies this`items, this`view, this`log, cells
      ensures Valid() && Shows() && Unlocked()
      ensures Walks(order, old(view).subs, key)
      ensures log == old(log) + [Step.SetValue(key, value, lease)] + Publishes(order) + [Unlock]
      ensures items == old(items)[key := Entry(value, lease)]
      ensures oldLease == if key in old(items) then old(items)[key].lease else None
      ensures oldLease.Some? ==> Enabled(view, Cancel(oldLease.value))
      ensures view.subs == Told(old(view).subs, Put(key, value), old(view).subs.Keys)
    {
      oldLease := None;
      if key in items {
        oldLease := items[key].lease;
      }
      Record(Step.SetValue(key, value, lease));
      items := items[key := Entry(value, lease)];
      order := PublishLocked(Put(key, value));
      Record(Unlock);
    }

    // The timer of a lease has fired.
    method DeleteIfLeaseMatches(key: Key, lease: LeaseId) returns (ghost order: seq<SubId>)
      requires Valid() && Shows() && Unlocked() && lease in view.timers && view.timers[lease] == key
      modifies this`items, this`view, this`log, cells
      ensures Valid() && Shows() && Unlocked()
      ensures var hit := key in old(items) && old(items)[key].lease == Some(lease);
              && (hit ==> Walks(order, old(view).subs, key))
              && log == old(log) + [TimerFires(lease)] + (if hit then Publishes(order) + [Unlock] else [])
              && items == (if hit then old(items) - {key} else old(items))
              && view.subs == if hit then Told(old(view).subs, Deleted(key), old(view).subs.Keys) else old(view).subs
    {
      order := [];
      Record(TimerFires(lease));
      if key in items && items[key].lease == Some(lease) {
        items := items - {key};
        order := PublishLocked(Deleted(key));
        Record(Unlock);
      }
    }

    // The code only ever asks to notify; a silent deletion is not a step of the protocol.
    method DeleteKey(key: Key, notify: bool) returns (oldLease: Option<LeaseId>, ghost order: seq<SubId>)
      requires Valid() && Shows() && Unlocked()
      modifies this`items, this`view, this`log, cells
      ensures Valid() && Unlocked()
      ensures notify ==> Shows() && (key in old(items) ==> Walks(order, old(view).subs, key))
      ensures notify ==> log == old(log) + [Step.DeleteKey(key)] + (if key in old(items) then Publishes(order) + [Unlock] else [])
      ensures items == old(items) - {key}
      ensures oldLease == if key in old(items) then old(items)[key].lease else None
      ensures notify && oldLease.Some? ==> Enabled(view, Cancel(oldLease.value))
      ensures ShowsSubs(view.subs)
      ensures view.subs == if key in old(items) && notify then Told(old(view).subs, Deleted(key), old(view).subs.Keys) else old(view).subs
    {
      oldLease, order := None, [];
      if notify {
        Record(Step.DeleteKey(key));
      }
      if key in items {
        oldLease := items[key].lease;
        items := items - {key};
        if notify {
          order := PublishLocked(Deleted(key));
          Record(Unlock);
        }
      }
    }

    method AddSubscriber(w: WatchSubscriber) returns (id: SubId)
      requires Valid() && Shows() && Unlocked() && w !in cells && w.queue == [] && !w.token
      modifies this`subscribers, this`lastId, this`cells, this`view, this`log
      ensures Valid() && Shows() && Unlocked() && log == old(log) + [Subscribe(w.prefix)]
      ensures id == lastId == old(lastId) + 1 && id !in old(subscribers)
      ensures subscribers == old(subscribers)[id := w]
    {
      Record(Subscribe(w.prefix));
      lastId := lastId + 1;
      id := lastId;
      subscribers := subscribers[id := w];
      cells := cells + {w};
    }

    // The watcher has left its loop.
    method RemoveSubscriber(id: SubId, w: WatchSubscriber)
      requires Valid() && Shows() && Unlocked()
      requires id in subscribers && subscribers[id] == w ==> view.subs[id].phase == Gone
      modifies this`subscribers, this`view, this`log
      ensures Valid() && Shows() && Unlocked()
      ensures var hit := id in old(subscribers) && old(subscribers)[id] == w;
              subscribers == (if hit then old(subscribers) - {id} else old(subscribers)) && log == old(log) + if hit then [Remove(id)] else []
    {
      if id in subscribers && subscribers[id] == w {
        Record(Remove(id));
        subscribers := subscribers - {id};
      }
    }

    // A parked watcher receives its token and takes the queue.
    method Receive(i: SubId) returns (events: seq<Event>)
      requires Valid() && Shows() && i in subscribers && view.subs[i].phase == Parked && subscribers[i].token
      modifies subscribers[i], this`view, this`log
      ensures Valid() && Shows() && log == old(log) + [Wake(i), Take(i)]
      ensures i in view.subs && events == old(subscribers[i].queue) == view.subs[i].hand && view.subs[i].phase == Handling
    {
      RecordReceive(i);
      subscribers[i].token := false;
      events := subscribers[i].TakeAll();
    }

    ghost method RecordReceive(i: SubId)
      requires IsRun(START, log) && view == After(START, log) && Enabled(view, Wake(i))
      modifies this`view, this`log
      ensures IsRun(START, log) && view == After(START, log) && log == old(log) + [Wake(i), Take(i)]
      ensures var b := old(view).subs[i];
              view == old(view).(subs := old(view).subs[i := b.(token := false, phase := Handling, hand := b.queue, queue := [])])
    {
      Record(Wake(i));
      Record(Take(i));
    }

    // close under the lock.
    method Close()
      requires Valid() && Shows() && Unlocked()
      modifies this`items, this`subscribers, this`view, this`log
      ensures Valid() && Shows() && Unlocked() && items == map[] && subscribers == map[] && log == old(log) + [Step.Close]
    {
      Record(Step.Close);
      items, subscribers := map[], map[];
    }
  }
}
