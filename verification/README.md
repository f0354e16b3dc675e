# Proofs about the OpenIM tools library

The `.dfy` files here model the parts of the library whose correctness depends on more than one
function, and prove what their documentation promises. `dafny verify dfyconfig.toml` checks them all.

## What is modelled

**The Redis Streams queue** (`mq/redismq`). `RedisStream` is the server: a stream with one consumer group
and one function per command. `QueueProtocol` is a state machine of all producers, consumers, their
goroutines and the server; each RPC, each mutex section and each channel operation is one step, and
crashes, demotions, overlapping leaders, commands whose answer is lost and late acknowledgements are
steps like any other. No step assumes the lease. `QueueSafety` states the invariant, `QueueSteps` proves
it step by step and `QueueTheorems` draws the promises from it. `LeaderLoops` holds the loops of
consumer.go as methods on a server that others change at every point where the code does not hold
it. `TermSwitch`, `Acker` and `StreamId` are the term switch, the acker and the id comparison;
`LeaseTiming` puts times on the two lease scripts and on the renewal loop.

**The rolling window** (`stability/internal/window`). `RingSpec` is the ring of buckets as a value next to
the log of all points ever added; `RollingWindow` is the linked ring, the iterator, the aggregations and
the policy, updated in place.

**The in-memory queue** (`mq/memamq`). `MemQueueSpec` is the stop protocol of any number of pushers,
workers and stoppers, one atomic operation a step; `MemQueue` holds the methods.

**The in-process registry** (`discovery/inprocess`). `MemoryKVSpec` and `MethodRegistrySpec` are the
protocols of the key-value store with its watchers and timers and of the method registry with its
waiters; `MemoryKV` and `MethodRegistry` are the objects, whose methods take steps of those protocols.

**The task queues** (`queue/bound`, `queue/task`). `RoundRobin` is the scan both managers share.
`StandaloneSpec` and `StandaloneTasks` are the manager in memory, `RedisTaskSpec` and `RedisTasks` the one
on Redis, where each command may fail.

**The connection pool** (`discovery/etcd/etcd_conn.go`). `ConnPoolSpec` has one step per critical section
and per closed connection, `ConnPool` the methods with their loops.

`Basics` has what several of these share.

In each pair the `Spec` module says what a step does and what follows over whole runs, and the methods of
the other module are proved to compute its functions or to take its steps: those of `MemQueue` among any
steps of others, those of `MemoryKV`, `MethodRegistry` and `ConnPool` one critical section at a time.

## Where the code differs from what one might expect

- Reduce and Timespan advance the clock of the rolling window without rotating it, so a window that is
  read often shows expired points (`RingSpec.ReadIsExactIff`, `RingSpec.StaleRead`).
- `orphanedPending` skips the own name, so a consumer that leads a second time does not reclaim what its
  own first term left pending (`QueueTheorems.ReclaimCompleteIff`; `QueueTheorems.OwnBacklogIsSkipped` is a
  run from the start in which this happens). Those entries are not lost; they wait for another leader.
- In memory, Delete on a processing queue above its capacity drops an item it popped to backfill
  (`StandaloneSpec.DeleteConservesIff`), and a transfer backfills nothing, so somebody can wait for a key
  with room (`StandaloneSpec.WaitingMeansFullIff`; `StandaloneSpec.TransferStrandsWaiting` is a run of three
  calls). The Redis manager does neither. In both, a transfer to a key overtakes those who wait there
  (`StandaloneSpec.OvertakesAndLoses` and `RedisTaskSpec.OvertakesInRun` are runs from the start).
- `compareID` confuses ids with a part of 2^63 - 1 or more (`StreamId.CompareIsOrderIff`).
- Two leaders are sure to overlap for less than the renew interval and two call durations if and only if
  that time exceeds the lease TTL by at most one millisecond and one tick of the local clocks
  (`LeaseTiming.OverlapIsShortIff`).

## Assumptions

- Queue: `MaxLen` is 0; one goroutine per consumer loops on Subscribe; marking an id means that every id
  handed out in the term up to it is done; a name that is being pruned neither reads nor claims between the
  two calls. An acknowledgement can arrive late, a batch read or claimed can get lost on its way back.
- Both parts of every entry id are below 2^63 - 1; then `compareID` is the order by which the other modules
  compare ids (`StreamId.CompareIsOrderIff`).
- Which entries are idle enough to be claimed, and when anything happens, is free, except in `LeaseTiming`,
  where calls take at most `d`, pauses at most `renew` and local steps no time, the TTL is in whole
  milliseconds as the server's clock is, the local clocks are as fine as one likes, and where the names compared
  do not release the lease: release comes with Close, after the loop has ended.
- The clock given to the rolling window does not go back, and sums are over the reals.
- The task managers: one operation at a time, and a failed Redis call has no effect. In the Redis manager a
  task is the text that marshalling gives.
- Keys, ids and options that the code treats as opaque are strings or numbers here.

## Model

| member | source | states |
|---|---|---|
| QueueTheorems.AtLeastOnce | mq/redismq/consumer.go:155-188 | In every state of every run (crashes, demotions, overlapping leaders, lost answers, failed XACKs, trims, prunes), each produced entry has been processed by a handler that received it, or is still in the stream undelivered or pending. |
| QueueTheorems.DeliveryOrder | mq/redismq/consumer.go:297-347 | Within one leadership term the entries sent are strictly ascending by id, hence without repeats, across claims, passes and live reads; what reaches the handler is a prefix of what was sent. |
| QueueTheorems.StaleTermIsFenced | mq/redismq/consumer.go:110-188 | Once a term is not the current one of its consumer it never is again, and from then on none of its messages passes the check in front of the handler. |
| QueueTheorems.FloorNeverDrops | mq/redismq/consumer.go:519-567 | A lower bound of the pending and undelivered ids stays one over every run, whatever all consumers do. |
| QueueTheorems.TrimNeverLoses | mq/redismq/consumer.go:528-567 | Every XTRIM that any run issues, however late after its XINFO GROUPS and XPENDING, keeps each pending and each undelivered entry. |
| QueueTheorems.FlushTakesAllMarked | mq/redismq/acker.go:64-92 | With any number of flushes and re-queues in flight, the queue is a block at or below the watermark followed by a strictly ascending block; the batch is exactly the ids at or below the watermark, all of them processed, and no recorded pending id is forgotten. |
| QueueTheorems.ReclaimCompleteIff | mq/redismq/consumer.go:379-466 | For every state that the invariant admits and in which a term begins: all its reclaims are sure to be complete, whatever else happens, if and only if its name owns nothing pending at that moment. |
| QueueTheorems.ReclaimComplete | mq/redismq/consumer.go:379-403 | The first half in detail: for a name that owns nothing pending when its term begins and gains entries only through that term, all that is pending when the orphan count is zero has been collected, however many passes and other consumers intervened. |
| QueueTheorems.MissesOwn | mq/redismq/consumer.go:450-466 | The second half: whenever the name owns something pending as its term begins, there is a reclaim that ends with a zero orphan count and has not collected it. |
| QueueTheorems.CollectedBeforeLive | mq/redismq/consumer.go:297-314 | The collection is sent, in id order, before the first live read of the term. |
| QueueTheorems.ProducedIsAdded | mq/redismq/consumer.go:77-83 | Every entry produced in a run is among those the group has to serve, and that set only grows. |
| QueueTheorems.OthersKeepRely | mq/redismq/consumer.go:379-466 | Every step of another consumer satisfies the interference condition that the imperative reader loops are proved under. |
| QueueTheorems.ClaimIsStep | mq/redismq/consumer.go:415-428 | A page of claims in the loops is the step Claim of their term, with the same effect on the server and the collection. |
| QueueTheorems.NoOrphansIsStep | mq/redismq/consumer.go:385-388 | The reclaim may end exactly when the orphan count of the loops is zero, and then has the sorted collection to send. |
| QueueTheorems.ReadIsStep | mq/redismq/consumer.go:321-345 | The batches a live read of the term may have are exactly those XREADGROUP may answer. |
| QueueTheorems.DeliverIsSteps | mq/redismq/consumer.go:475-486 | Delivering an entry is the step Send followed by Record: it is the next one sent and the last one the acker knows. |
| QueueTheorems.LowerIsStep | mq/redismq/consumer.go:547-558 | The smallest pending id of XPENDING is among the bounds the protocol may trim at; likewise the last-delivered id when nothing is pending. |
| QueueSteps.StepKeepsInv | mq/redismq/consumer.go:155-591 | Each of the thirty kinds of step keeps the invariant that carries the results above: coverage of every entry, order per term, the acker split, the mark contract, fencing, trim bounds. |
| QueueSteps.BatchIsDone | mq/redismq/acker.go:22-33 | Under the mark contract every id that a flush hands to XACK has been processed. |
| RedisStream.TrimSafeIff | mq/redismq/consumer.go:519-567 | XTRIM MINID m keeps all pending and undelivered entries if and only if m is a lower bound of them. |
| RedisStream.DelConsumerSafeIff | mq/redismq/consumer.go:573-591 | Deleting a consumer name loses nothing if and only if that name has nothing pending. |
| LeaderLoops.TrimStream | mq/redismq/consumer.go:528-567 | With other clients free to act between the three commands, the bound is the one the code computes and the trim drops no pending and no undelivered entry; a failed command or the id 0-0 trims nothing. |
| LeaderLoops.OrphanedPending | mq/redismq/consumer.go:451-466 | The count is zero exactly when everything pending belongs to the caller. |
| LeaderLoops.ClaimScan | mq/redismq/consumer.go:409-434 | A pass collects everything that is pending under the own name at its end, if that held before, through all pages, errors and interference. |
| LeaderLoops.DeliverClaimed | mq/redismq/consumer.go:437-448 | The collection goes out in strictly ascending id order, completely unless the term is cancelled. |
| LeaderLoops.ReclaimPending | mq/redismq/consumer.go:379-403 | Passes repeat until the orphan count is zero; for a name that owned nothing, all that is pending then is sent, in order, unless the term is cancelled. |
| LeaderLoops.ReadTerm | mq/redismq/consumer.go:300-347 | Reclaim followed by the live loop sends strictly ascending ids, for any interference. |
| LeaderLoops.SortIds | mq/redismq/consumer.go:438-442 | The sorted sequence is strictly ascending and holds exactly the given ids. |
| LeaderLoops.FirstAreNext | mq/redismq/consumer.go:321-327 | The first undelivered ids in order are a batch that XREADGROUP may answer: in order, without a gap. |
| Terms.NoLostWakeup | mq/redismq/consumer.go:133-142 | A pair obtained from currentTerm is still current, or its wake channel is closed, after any sequence of beginnings and endings; closed channels stay closed and each is closed once. |
| Terms.StaleStaysStale | mq/redismq/consumer.go:122-131 | A late endTerm changes nothing, and a term that is not current becomes so only by beginning. |
| TermSwitch.Switch.BeginTerm | mq/redismq/consumer.go:110-120 | The fields become the new term and a new channel, and exactly the old channel is closed. |
| TermSwitch.Switch.EndTerm | mq/redismq/consumer.go:124-131 | Only the current term is cleared; then exactly the old channel is closed. |
| TermSwitch.Switch.SignalLocked | mq/redismq/consumer.go:133-136 | Closes the current channel, which is open, and replaces it. |
| TermSwitch.Switch.CurrentTerm | mq/redismq/consumer.go:138-142 | Returns the term together with the channel that will announce its end. |
| AckerSpec.SplitMeansSplitAt | mq/redismq/acker.go:36-43 | The order condition on the queue is the existence of the split into a marked block and an ascending rest. |
| AckerSpec.TakeIsExact | mq/redismq/acker.go:70-80 | The counting loop takes all pending ids at or below the watermark and no other, and the rest is ascending. |
| AckerSpec.SplitKept | mq/redismq/acker.go:45-92 | Recording a later id, raising the watermark, taking a batch and putting a failed batch back all keep the split. |
| Acker.AckQueue.Take | mq/redismq/acker.go:64-80 | The prefix loop returns the batch of the specification and leaves the rest. |
| Acker.AckQueue.OnDeliver | mq/redismq/acker.go:45-49 | Appends the id, watermark untouched. |
| Acker.AckQueue.Mark | mq/redismq/acker.go:51-57 | The watermark becomes the maximum of itself and the id. |
| Acker.AckQueue.Requeue | mq/redismq/acker.go:82-88 | A failed batch goes back in front. |
| Acker.AckQueue.Flush | mq/redismq/acker.go:64-92 | A flush acknowledges exactly the batch or, when XACK fails, leaves the queue as it was. |
| StreamId.ParseText | mq/redismq/message.go:91-103 | parseID inverts the printing of an id, up to clamping at the largest int64. |
| StreamId.CompareIsOrderIff | mq/redismq/message.go:71-89 | compareID agrees with the order of ids against every other id if and only if both parts are below the largest int64. |
| StreamId.Confused | mq/redismq/message.go:71-103 | For every id outside that range there is a different one that compareID takes for equal. |
| StreamId.EmptyIsLowest | mq/redismq/message.go:71-94 | The empty id, the watermark before any mark, sorts below every id. |
| LeaseTiming.Exclusive | mq/redismq/consumer.go:25-42 | Two names that win the lease are more than a TTL apart, unless the first released it. |
| LeaseTiming.LeaseStands | mq/redismq/consumer.go:25-31 | A lease stands until somebody else wins, and nobody else wins before it ran out. |
| LeaseTiming.RunLeader | mq/redismq/consumer.go:237-263 | The loop returns at exactly the first call that is refused or fails a TTL after the last success. |
| LeaseTiming.LeaderBound | mq/redismq/consumer.go:229-263 | A leader acts before the time of its last lease write plus TTL, renew interval and two call durations. |
| LeaseTiming.ExitBound | mq/redismq/consumer.go:251-261 | The call after which runLeader returns ends within the same bound. |
| LeaseTiming.Overlap | mq/redismq/consumer.go:229-263 | After another name has won, a leader goes on for less than the renew interval and two call durations, or by a lease it won itself more than a TTL later. |
| LeaseTiming.OverlapIsShortIff | mq/redismq/consumer.go:237-263 | For every timing and every resolution of the local clocks, u ticks to a millisecond: two leaders never overlap for the renew interval and two call durations or longer if and only if that time is at most the TTL, one millisecond and one tick. |
| LeaseTiming.OverlapIsShort | mq/redismq/consumer.go:229-263 | The first half in detail: then the leader whose lease was taken over has no later lease of its own and goes on for less than that time. |
| LeaseTiming.ComebackIsPossible | mq/redismq/consumer.go:237-263 | The second half: for every longer timing and every resolution a schedule in which a leader survives two failed renewals and another leader's whole lease, and leads on. |
| LeaseTiming.WinsApart | mq/redismq/consumer.go:25-42 | Wins of different names are more than a TTL apart also on the finer clock, and the later one falls at least TTL and one millisecond after the millisecond of the earlier. |
| LeaseTiming.HeldIff | mq/redismq/consumer.go:25-42 | At any time the key shows as holder exactly the name that won it, at most a TTL ago, and has not released it since. |
| LeaseTiming.OneHolder | mq/redismq/consumer.go:25-42 | Over any history of both scripts no two names hold the lease at one time. |
| LeaseTiming.LeaseKey.RunLeaseScript | mq/redismq/consumer.go:25-31 | Answers 1 exactly when no other name holds the lease by the history of all scripts; then the caller holds it for a whole TTL. |
| LeaseTiming.LeaseKey.RunReleaseScript | mq/redismq/consumer.go:37-42 | Answers 1 exactly when the caller held the lease by that history; afterwards it holds none at any time, and what every other name holds is untouched. |
| RingSpec.RotateKeeps | stability/internal/window/policy.go:50-61 | Rotating by the elapsed buckets, the full reset included, keeps every bucket the set of points of its turn. |
| RingSpec.AddKeeps | stability/internal/window/policy.go:45-65 | Add keeps the ring a faithful image of the log of all points ever added. |
| RingSpec.VisitedIsSince | stability/internal/window/policy.go:68-92 | A read visits, in the order of adding, exactly the points of the last Size minus span turns. |
| RingSpec.ReadIsExact | stability/internal/window/policy.go:68-92 | While no read has consumed a period, a read sees exactly the points of the last Size periods. |
| RingSpec.ReadIsOneSided | stability/internal/window/policy.go:68-92 | After any interleaving of reads and adds no point inside the window is left out; an older one is seen exactly when its age exceeds the window by less than the periods reads consumed since it was added. |
| RingSpec.ReadIsExactIff | stability/internal/window/policy.go:34-41 | A read is exact if and only if no point has an age in that gap. |
| RingSpec.ReadEndsWithRecent | stability/internal/window/policy.go:68-92 | The points of the window are always the tail of what a read sees, so its sum is theirs plus that of older ones. |
| RingSpec.StaleRead | stability/internal/window/policy.go:73 | Reads move the clock without rotating the ring: a concrete case in which an expired point is seen. |
| RollingWindow.ReduceMeaning | stability/internal/window/aggregations.go:4-80 | What Reduce of Sum and of Count returns in terms of the logged points, exactly and in general. |
| RollingWindow.Rolling.Add | stability/internal/window/policy.go:45-65 | On the linked buckets: the ring becomes the rotated ring with the value in the active bucket, and the clock advances by whole periods. |
| RollingWindow.Rolling.Reduce | stability/internal/window/policy.go:68-92 | Returns the fold over the buckets visited, 0 when all expired; the ring is untouched, the clock advances. |
| RollingWindow.Rolling.Timespan | stability/internal/window/policy.go:34-42 | The number of periods elapsed; lastUpdateTime advances by exactly those. |
| RollingWindow.Sum | stability/internal/window/aggregations.go:4-13 | Drains the iterator and returns the sum of all points of its buckets. |
| RollingWindow.Count | stability/internal/window/aggregations.go:73-80 | Returns the number of points from the counters the buckets keep. |
| RollingWindow.Link | stability/internal/window/windows.go:15-22 | Each bucket points to the next one and the last to the first. |
| RollingWindow.Window.ResetBuckets | stability/internal/window/windows.go:40-44 | Clears exactly count buckets from the offset on, cyclically. |
| RollingWindow.Window.ResetWindow | stability/internal/window/windows.go:28-32 | Clears every bucket and keeps the ring links. |
| RollingWindow.Window.Append | stability/internal/window/windows.go:47-49 | Appends to the bucket at the offset, modulo the size, and to no other. |
| RollingWindow.Iterator.Bucket | stability/internal/window/iterator.go:26-34 | Returns the current bucket and moves to the next one of the ring. |
| RollingWindow.Bucket.Append | stability/internal/window/bucket.go:22-25 | Appends the point and keeps the counter equal to the number of points. |
| Basics.WrapIsMod | stability/internal/window/windows.go:36-48 | The wrapping used in the specification is the remainder that the code computes. |
| RollingWindow.PeriodIsUnique | stability/internal/window/policy.go:34-42 | A time lies in one period only, so the clock of the specification is determined. |
| MemQueueSpec.NoSendAfterClose | mq/memamq/queue.go:62-130 | In every interleaving of any number of pushers, workers and stoppers nothing is sent on the closed channel, the channel is closed once, and count is the number of push calls inside. |
| MemQueueSpec.StopDrains | mq/memamq/queue.go:123-130 | When the Stop that won returns, every accepted task has finished exactly once and none is left. |
| MemQueueSpec.StepKeepsSenders | mq/memamq/queue.go:62-76 | Once count was seen at zero after the stop, no push call is past the stopped check. |
| MemQueueSpec.StepKeepsInv | mq/memamq/queue.go:46-143 | Every step keeps the counting, the stop phases and the conservation of tasks. |
| MemQueueSpec.OwnSteps | mq/memamq/queue.go:62-130 | In every interleaving the steps of each push call and each Stop call are those of the code, in its order; the protocol record of a call tells them all. |
| MemQueueSpec.OthersLeaveAlone | mq/memamq/queue.go:62-143 | The steps of all others, in any number, keep the invariant and the record of a call: what its methods rely on between two accesses. |
| MemQueue.MemoryQueue.Select | mq/memamq/queue.go:70-75 | One select among any interference: the task is sent on a channel that is still open, or the call gives up; with a default case it gives up only when the channel is full. |
| MemQueue.MemoryQueue.PushOne | mq/memamq/queue.go:62-120 | Push, PushCtx and NotWaitPush among any interference: the call ends having sent its one task, having given up, or having seen the stop. |
| MemQueue.MemoryQueue.BatchPush | mq/memamq/queue.go:92-106 | Among any interference: the number returned is how many tasks, the first ones, the call has sent: all without an error, fewer when it gave up, none after a stop. |
| MemQueue.MemoryQueue.CompareAndSwapStopped | mq/memamq/queue.go:124-126 | Among any interference: wins exactly when no other Stop call has won. |
| MemQueue.MemoryQueue.Stop | mq/memamq/queue.go:123-143 | Among any interference: a loser returns at once; the winner closes the channel, which is still open, after it has seen no push call inside. |
| MemoryKVSpec.WatchReplay | discovery/inprocess/memory_kv.go:122-189 | For every watcher until it quits, in every interleaving, what it handled, holds and has queued replays its starting view to the current view of its prefix. |
| MemoryKVSpec.NoLostWakeup | discovery/inprocess/memory_kv.go:39-58 | With no writer inside, a parked watcher without a token has nothing queued. |
| MemoryKVSpec.LastWriteWins | discovery/inprocess/memory_kv.go:155-228 | A key holds a value if and only if its last write was neither deleted nor expired by its own lease, and then that value; its lease still has its timer. |
| MemoryKVSpec.StaleTimer | discovery/inprocess/memory_kv.go:204-212 | A timer removes exactly the value written with its lease. |
| MemoryKVSpec.StepKeepsFeed | discovery/inprocess/memory_kv.go:140-265 | Every step of writers and watchers keeps all watchers in step with the store and sure to wake. |
| MemoryKV.Store.PublishLocked | discovery/inprocess/memory_kv.go:255-265 | Takes the publishing steps to each matching subscriber once: exactly those have the event queued and a token, in the objects and in the protocol state. |
| MemoryKV.Store.SetValue | discovery/inprocess/memory_kv.go:155-189 | Takes the steps SetValue, publishing and Unlock of the protocol; returns the lease that is now to be cancelled. |
| MemoryKV.Store.DeleteIfLeaseMatches | discovery/inprocess/memory_kv.go:204-212 | Takes the step of the timer; deletes and publishes exactly when the stored lease is the given one. |
| MemoryKV.Store.DeleteKey | discovery/inprocess/memory_kv.go:214-228 | Takes the steps DeleteKey, publishing and Unlock when asked to notify; returns the lease that is now to be cancelled. |
| MemoryKV.Store.AddSubscriber | discovery/inprocess/memory_kv.go:230-240 | Takes the step Subscribe: a fresh id, and the view at that moment is the watcher's starting point. |
| MemoryKV.Store.RemoveSubscriber | discovery/inprocess/memory_kv.go:242-250 | Takes the step Remove exactly when the id still belongs to that subscriber. |
| MemoryKV.Store.Receive | discovery/inprocess/memory_kv.go:145-146 | Takes the steps Wake and Take: the token is consumed and the whole queue is in hand. |
| MethodRegistrySpec.WaiterLifecycle | discovery/inprocess/method_registry.go:39-127 | In every interleaving a name is never both registered and waited for, a mapped waiter counts exactly its unreleased callers and has at least one, and no step closes a ready channel a second time. |
| MethodRegistrySpec.RegistrationReachesWaiters | discovery/inprocess/method_registry.go:39-127 | In every interleaving of register, call, release and close: a caller whose waiter a registration closed can wake and then finds the handler of its method; a woken caller gets the internal error exactly when its method is unregistered, and only after a close call took its waiter. |
| MethodRegistrySpec.RegisteredIsReached | discovery/inprocess/method_registry.go:39-62 | Until close is called, a waiting caller whose method is registered can wake, since a registration closed its waiter. |
| MethodRegistrySpec.NobodyIsStranded | discovery/inprocess/method_registry.go:64-127 | With close at any moment, a waiting caller can wake now, or after a pending close of its channel, or after a registration. |
| MethodRegistrySpec.HandlersStay | discovery/inprocess/method_registry.go:48-61 | A registered handler never changes. |
| MethodRegistrySpec.StepKeepsInv | discovery/inprocess/method_registry.go:39-127 | Every critical section keeps the invariant behind these results. |
| MethodRegistry.Registry.RegisterService | discovery/inprocess/method_registry.go:39-62 | Registers the methods in order up to the first name already taken, as a run of the protocol; no waiter channel is closed twice. |
| MethodRegistry.Registry.Enter | discovery/inprocess/method_registry.go:69-84 | Takes the protocol step of a call: the handler, or a counted reference to the one waiter of the name. |
| MethodRegistry.Registry.LookAgain | discovery/inprocess/method_registry.go:94-102 | The look-up after waking: the handler registered, or the internal error. |
| MethodRegistry.Registry.ReleaseWaiter | discovery/inprocess/method_registry.go:105-116 | Lowers the count of the waiter if it is still mapped and drops it at zero. |
| MethodRegistry.Registry.TakeWaiters | discovery/inprocess/method_registry.go:118-122 | Empties the map and hands exactly its waiters to the closer. |
| MethodRegistry.Registry.CloseTaken | discovery/inprocess/method_registry.go:124-126 | Closes a taken waiter, which is still open. |
| BoundQueue.Queue.Push | queue/bound/queue.go:31-39 | Appends when below capacity and otherwise changes nothing and says so. |
| BoundQueue.Queue.Pop | queue/bound/queue.go:49-59 | Takes the first item; empty stays empty. |
| BoundQueue.Queue.Remove | queue/bound/queue.go:78-88 | Removes exactly the first match, if any. |
| BoundQueue.Queue.Peek | queue/bound/queue.go:90-99 | The index of the first match or -1. |
| BoundQueueSpec.WithoutOne | queue/bound/queue.go:83 | Removal at an index takes one copy of that item and nothing else. |
| RoundRobin.PickIsNearest | queue/task/standalonetask/strategy.go:27-44 | The scan finds none exactly when every key is full, and otherwise the open key nearest after the last one. |
| RoundRobin.BoundedBypass | queue/task/standalonetask/strategy.go:22-45 | A key that stays open is picked within as many assignments as its cyclic distance, so at most the number of keys; also for a stored index beyond the list. |
| RoundRobin.PickBringsNearer | queue/task/standalonetask/strategy.go:30-36 | An assignment that passes over an open key lowers its cyclic distance. |
| RoundRobin.ScanIndex | queue/task/redistask/strategy.go:66-78 | The index arithmetic of both scans is a walk around the list that meets each key once. |
| StandaloneSpec.ManagerInvariant | queue/task/standalonetask/task_queue_manager.go:70-201 | After any run the ordered keys are the queues' keys, each once, the last index is in range, an assigned key has a queue, waiting and global queue respect their capacity and a processing queue exceeds its own by at most the transfers into it. |
| StandaloneSpec.BoundedBypassInRuns | queue/task/standalonetask/strategy.go:22-45 | In any run of all operations over a fixed set of n keys, a key that has room at every assignment is assigned within n assignments. |
| StandaloneSpec.InsertGoesWhereThereIsRoom | queue/task/standalonetask/task_queue_manager.go:96-119 | Under both strategies Insert uses a processing queue if and only if one has room, else the global queue, and refuses exactly when that is full too. |
| StandaloneSpec.DeleteConservesIff | queue/task/standalonetask/task_queue_manager.go:140-165 | Delete loses nothing but the item it found if and only if the processing queue was not above capacity or there is nothing to backfill; otherwise the popped item is lost. |
| StandaloneSpec.TransformConserves | queue/task/standalonetask/task_queue_manager.go:214-230 | A transfer swaps the item found for the one given, also onto the same key, and changes none when nothing matches. |
| StandaloneSpec.InsertByKeyConserves | queue/task/standalonetask/task_queue_manager.go:121-136 | An accepted item is held once more, a refused one not at all. |
| StandaloneSpec.DeleteKeyDiscards | queue/task/standalonetask/task_queue_manager.go:179-201 | DeleteKey discards exactly what the two queues of the key held. |
| StandaloneSpec.RunConserves | queue/task/standalonetask/task_queue_manager.go:96-230 | Over a whole run in which each Delete meets that condition, every accepted item is still held or was taken out by a caller. |
| StandaloneSpec.WaitingMeansFullIff | queue/task/standalonetask/task_queue_manager.go:96-241 | In every state of a run whoever waits for a key waits because its processing queue is full, if and only if no step transfers an item away from that key while its queue is just full and others wait. |
| StandaloneSpec.StepWaitsIff | queue/task/standalonetask/task_queue_manager.go:96-241 | The same for one call of any kind in any state. |
| StandaloneSpec.WaitingMeansFull | queue/task/standalonetask/task_queue_manager.go:96-241 | In particular in all runs without transfers from that key, whatever goes to it or elsewhere. |
| StandaloneSpec.FirstComeFirstServed | queue/task/standalonetask/task_queue_manager.go:96-241 | Over any run without a transfer to the key or a stranding one from it, the line at a key (processing, then waiting) is those who were in it followed by those who joined, in the order of joining, less exactly as many as left. |
| StandaloneSpec.TransferOvertakesIff | queue/task/standalonetask/task_queue_manager.go:214-230 | A transfer from another key keeps that order if and only if all who wait there equal the item transferred. |
| StandaloneSpec.TransferOntoSelfIff | queue/task/standalonetask/task_queue_manager.go:214-230 | A transfer onto the same key keeps the order if and only if all who wait equal the item, or all from its place on in processing do. |
| StandaloneSpec.OvertakesAndLoses | queue/task/standalonetask/task_queue_manager.go:140-230 | A run from the start of five calls in which a transfer overtakes a waiting item and a deletion then loses it. |
| StandaloneSpec.TransformMoves | queue/task/standalonetask/task_queue_manager.go:214-230 | The item given arrives at the end of the target and the one found leaves the source, exactly when one is found. |
| StandaloneSpec.TransformElsewhere | queue/task/standalonetask/task_queue_manager.go:214-230 | The queues of other keys, all waiting queues and the global queue are left alone. |
| StandaloneTasks.QueueManager.ScanKeys | queue/task/standalonetask/strategy.go:22-45 | The modular loop computes the scan of the specification. |
| StandaloneTasks.QueueManager.LeastTask | queue/task/standalonetask/strategy.go:48-59 | Returns a key whose processing queue is shortest; none exactly when there is no key. |
| StandaloneTasks.QueueManager.GetOrCreateTaskQueues | queue/task/standalonetask/task_queue_manager.go:70-81 | Adds an empty pair of queues and the key, once, only when it is missing. |
| StandaloneTasks.QueueManager.Insert | queue/task/standalonetask/task_queue_manager.go:96-119 | The state and reply of the specification, in place, with the key assigned by the strategy. |
| StandaloneTasks.QueueManager.InsertByKey | queue/task/standalonetask/task_queue_manager.go:121-136 | Processing, then waiting, then refusal, in place. |
| StandaloneTasks.QueueManager.Delete | queue/task/standalonetask/task_queue_manager.go:140-165 | Removal, then at most one backfill from waiting or global, in place. |
| StandaloneTasks.QueueManager.DeleteKey | queue/task/standalonetask/task_queue_manager.go:179-201 | Drops the queues and the ordered key and adjusts the last index. |
| StandaloneTasks.QueueManager.TransformProcessingData | queue/task/standalonetask/task_queue_manager.go:214-230 | Creates the target first, removes the first match, pushes regardless of capacity. |
| StandaloneTasks.QueueManager.AutoTransformProcessingData | queue/task/standalonetask/task_queue_manager.go:232-241 | Assigns a key, which moves the last index, and then transfers. |
| StandaloneTasks.QueueManager.GetGlobalQueuePosition | queue/task/standalonetask/task_queue_manager.go:244-251 | The place of the first match in the global queue or -1. |
| RedisTaskSpec.CutTakesOne | queue/task/redistask/task_queue_manager.go:366-376 | The tombstone script takes out exactly the item at the index, whatever the list holds, even a text that reads like the tombstone. |
| RedisTaskSpec.CutKeepsOrderIff | queue/task/redistask/task_queue_manager.go:366-376 | The other items keep their order if and only if no other item before the index follows such a text. |
| RedisTaskSpec.DeleteConservesIff | queue/task/redistask/task_queue_manager.go:154-179 | Whatever calls fail, Delete loses nothing but the deleted item exactly when no compensating push fails after a failed push. |
| RedisTaskSpec.TransformConservesIff | queue/task/redistask/task_queue_manager.go:219-238 | The same for a transfer, whether it succeeds, fails or is undone. |
| RedisTaskSpec.BackfillHolds | queue/task/redistask/task_queue_manager.go:420-474 | A backfill moves one item and drops one only when both its pushes fail. |
| RedisTaskSpec.InsertHolds | queue/task/redistask/task_queue_manager.go:116-133 | An item is held once more exactly when Insert says so, whatever calls fail. |
| RedisTaskSpec.InsertByKeyHolds | queue/task/redistask/task_queue_manager.go:135-152 | The same for InsertByKey. |
| RedisTaskSpec.RunConserves | queue/task/redistask/task_queue_manager.go:116-238 | Over a whole run with any failures: what is held, taken out and dropped equals what was held and accepted. |
| RedisTaskSpec.RunBounded | queue/task/redistask/task_queue_manager.go:249-347 | Waiting and global lists respect their capacity and a processing list exceeds its own by at most the transfers into it, whatever fails. |
| RedisTaskSpec.WaitingMeansFull | queue/task/redistask/task_queue_manager.go:420-474 | As long as the calls work, an item waits only for a full processing list, transfers included. |
| RedisTaskSpec.FirstComeFirstServed | queue/task/redistask/task_queue_manager.go:116-238 | As long as the calls work and nothing is transferred to the key, the line at a key is those who were in it followed by those who joined, in the order of joining, less exactly as many as left. |
| RedisTaskSpec.TransferOvertakesIff | queue/task/redistask/task_queue_manager.go:219-238 | A transfer from another key keeps that order if and only if all who wait there equal the text transferred. |
| RedisTaskSpec.TransferOntoSelfIff | queue/task/redistask/task_queue_manager.go:219-238 | A transfer onto the same key keeps the order if and only if all who wait equal the text, or it was the newest in processing. |
| RedisTaskSpec.OvertakesInRun | queue/task/redistask/task_queue_manager.go:135-238 | A run from the start of four calls in which a transfer overtakes a waiting task. |
| RedisTaskSpec.TransformMoves | queue/task/redistask/task_queue_manager.go:219-238 | A transfer that is done has put the text at the head of the target list; one that found nothing changed nothing. |
| RedisTaskSpec.TransformElsewhere | queue/task/redistask/task_queue_manager.go:219-238 | The lists of other keys are left alone, whatever fails. |
| RedisTaskSpec.ScanFindsRoom | queue/task/redistask/strategy.go:45-83 | The script answers nil exactly when every listed key is full, else the open key nearest after the stored index. |
| RedisTaskSpec.InsertGoesWhereThereIsRoom | queue/task/redistask/task_queue_manager.go:116-133 | Under both strategies, when the calls work, Insert uses the processing list of the assigned key if and only if some listed key has room, else the global list, and refuses exactly when that is full too. |
| RedisTaskSpec.BoundedBypassInRuns | queue/task/redistask/strategy.go:43-108 | In any run of all operations with any failures over a fixed list of n keys, a key that has room at every scan is assigned within n scans, even from a stored index beyond the list. |
| RedisTasks.QueueManager.RemoveFromQueue | queue/task/redistask/task_queue_manager.go:349-388 | Removes the newest item equal to the text, or reports why not, in place. |
| RedisTasks.QueueManager.BackfillProcessingQueue | queue/task/redistask/task_queue_manager.go:420-474 | The specified backfill as a sequence of commands any of which may fail. |
| RedisTasks.QueueManager.Delete | queue/task/redistask/task_queue_manager.go:154-179 | The specified deletion as a sequence of commands; a failed backfill is not reported. |
| RedisTasks.QueueManager.TransformProcessingData | queue/task/redistask/task_queue_manager.go:219-238 | The specified transfer with its compensating push. |
| RedisTasks.QueueManager.PushTo | queue/task/redistask/task_queue_manager.go:249-347 | The length check and the push of the three push functions. |
| RedisTasks.QueueManager.Insert | queue/task/redistask/task_queue_manager.go:116-133 | The strategy assigns a key by its commands, then the push to its processing list, else to the global list; the key is returned when the task went there. |
| RedisTasks.QueueManager.InsertByKey | queue/task/redistask/task_queue_manager.go:135-152 | Key, processing list, waiting list, refusal. |
| RedisTasks.QueueManager.LeastTask | queue/task/redistask/strategy.go:111-141 | The shortest list with room among those whose length call answered; none exactly when all of those are full. |
| RedisTasks.LeastAssigns | queue/task/redistask/strategy.go:111-141 | When all length calls answered, that is an assignment to a key with room if there is one. |
| RedisTasks.QueueManager.GetGlobalQueuePosition | queue/task/redistask/task_queue_manager.go:391-418 | The number of RPOPs that come before the first turn of the text; -1 exactly when it is absent or the call fails. |
| RedisTasks.Redis.ScanKeys | queue/task/redistask/strategy.go:64-77 | The Lua loop computes the scan of the specification. |
| RedisTasks.Redis.NextKey | queue/task/redistask/strategy.go:45-83 | The script stores the index it found and returns its key, or nil, or fails without effect. |
| ConnPoolSpec.Ledger | discovery/etcd/etcd_conn.go:84-243 | In every interleaving each connection ever opened is in exactly one place, once: one pool, one service entry or one closer, until closed exactly once; then in none. |
| ConnPoolSpec.PoolsAreCurrent | discovery/etcd/etcd_conn.go:84-129 | A pool lists each target once, and only connections dialled with the pool-wide options now in force. |
| ConnPoolSpec.NothingOpensAfterClose | discovery/etcd/etcd_conn.go:222-243 | After close nothing is opened, and when the closers are through everything ever opened has been closed once. |
| ConnPoolSpec.SyncFollowsAddresses | discovery/etcd/etcd_conn.go:84-129 | A sync reuses each connection whose address remains, hands the others over for closing, and lists all dialled addresses but the empty one. |
| ConnPoolSpec.ByTargetKeepsAll | discovery/etcd/etcd_conn.go:91-94 | With distinct targets no old connection is overwritten and forgotten. |
| ConnPoolSpec.LoopSorts | discovery/etcd/etcd_conn.go:99-118 | The address loop: every listed connection is reused and no longer among the old, or new; targets stay distinct. |
| ConnPoolSpec.StepKeepsInv | discovery/etcd/etcd_conn.go:84-243 | Every critical section and every single close keeps the ledger. |
| ConnPool.Connections.SyncLocked | discovery/etcd/etcd_conn.go:84-123 | In place: the step of the specification, and the list to close holds exactly the connections taken, each once. |
| ConnPool.Connections.Dial | discovery/etcd/etcd_conn.go:95-118 | The loop over the addresses computes the specified lists; dials may fail. |
| ConnPool.Connections.GetConnLocked | discovery/etcd/etcd_conn.go:162-177 | Returns an open connection that the pool keeps, dialling at most once; an error changes nothing. |
| ConnPool.Connections.AddOptionLocked | discovery/etcd/etcd_conn.go:180-184 | Takes all pooled connections, each once, and appends the options. |
| ConnPool.Connections.CloseLocked | discovery/etcd/etcd_conn.go:232-239 | Takes all pooled and serving connections, each once, and closes the pool. |
| ConnPool.Connections.CloseTaken | discovery/etcd/etcd_conn.go:240-242 | Closes one taken connection, which had not been closed. |

## Left out

- Trimming by `MAXLEN` on XADD: the configuration itself warns that it can drop pending entries.
- Header encoding and decoding, the Builder and the version check of `mq/redismq`: one-branch plumbing.
- Close, Subscribe's contexts and the manage loop as code: they appear as the steps Crash, EndTerm, BeginTerm, Wakeup and Drop.
- The capacity of the delivery channel: a full channel only delays a Send, so it removes runs and adds none.
- Cursors, counts and idle times of XAUTOCLAIM in `QueueProtocol`: any set of pending entries may be claimed there; `LeaderLoops` has the pagination.
- `LeaderLoops.ReclaimPending`: a failed XAUTOCLAIM has no effect there, as completeness needs; `QueueProtocol` also has claims whose answer is lost.
- `RedisTaskSpec.FirstComeFirstServed`: asks that no text reads like the tombstone, because such a text can change the order (`RedisTaskSpec.CutKeepsOrderIff`).
- Avg, Max and Min and the unused Window.Add of the rolling window; rounding of float64; the overflow of durations.
- `RollingWindow.Rolling.Reduce`: calls one after the other only; the code writes lastUpdateTime under the read lock, so concurrent reads race. The body is divided into helper methods (Timespan, Collect); Add likewise uses Turn.
- The three-second timer and the contexts of Push, PushCtx and BatchPushCtx: giving up is a free choice of the pusher in `MemQueueSpec`.
- `MemQueue.MemoryQueue.Stop`: ends with the closing of the channel; the wg.Wait that follows is the step Return of `MemQueueSpec`.
- GetKey and the sorted GetKeyWithPrefix of the key-value store: they only read.
- Concurrent calls on the task managers: the in-memory Delete works outside the lock, and the Redis removal reads the list and deletes by index in two calls.
- The hooks called after a push to a processing queue.
- Uniqueness of the Redis keys list: AddKey asks for a processing list that Redis drops when it is empty, so keys may repeat in it; every statement here allows that.
- Parsing a key back from its text with Sscanf, and marshalling errors, in the Redis manager.
- Per-service dial options and GetConns in the connection pool, the watchers, and when AddOption syncs again: a later Sync is a step at any time.
- `mq/simmq`: a sender past the closed check can reach its select after the close, so it has no such safety.
- `stability/ratelimit/bbr`, `stability/circuitbreaker/sre` and `stability/internal/cpu`: floating point, randomness and probes of the operating system.
- S3, Kafka, ZooKeeper, Kubernetes and Mongo back ends, logging, configuration and `utils`: thin layers or small helpers.
