/** The Redis side: one stream with one consumer group, one function per command used. */
module RedisStream {
  import opened Ids

  type Name = nat

  // added: every id XADDed since the group was created; entries: what the stream holds;
  // top: last generated id; delivered: the group's last-delivered id; pel: the pending
  // entries list with the owner of each entry.
  datatype Server = Server(added: set<Id>, entries: set<Id>, top: Id, delivered: Id, pel: map<Id, Name>)

  // XGROUP CREATE with "$": history up to top is skipped.
  function Created(history: set<Id>, top: Id): Server {
    Server({}, history, top, top, map[])
  }

  function XAdd(s: Server, id: Id): Server {
    s.(added := s.added + {id}, entries := s.entries + {id}, top := id)
  }

  // What XREADGROUP with ">" may answer: the oldest undelivered entries, in order, no gap.
  ghost predicate IsNextBatch(s: Server, batch: seq<Id>) {
    && batch != []
    && Ascending(batch)
    && (forall e :: e in batch ==> e in s.entries && e > s.delivered)
    && (forall e :: e in s.entries && s.delivered < e <= batch[|batch| - 1] ==> e in batch)
  }

  function XReadGroup(s: Server, name: Name, batch: seq<Id>): Server
    requires batch != []
  {
    s.(delivered := batch[|batch| - 1], pel := s.pel + map e | e in batch :: name)
  }

  function XAck(s: Server, ids: set<Id>): Server {
    s.(pel := s.pel - ids)
  }

  // XAUTOCLAIM moves pending entries that are idle enough; which ones are is up to time.
  function XAutoClaim(s: Server, name: Name, ids: set<Id>): Server {
    s.(pel := map e | e in s.pel :: if e in ids then name else s.pel[e])
  }

  // XTRIM MINID: exact, drops entries strictly below m, leaves the group alone.
  function XTrimMinId(s: Server, m: Id): Server {
    s.(entries := set e | e in s.entries && e >= m)
  }

  function OwnedBy(s: Server, name: Name): set<Id> {
    set e | e in s.pel && s.pel[e] == name
  }

  // XGROUP DELCONSUMER also discards what the consumer had pending.
  function XGroupDelConsumer(s: Server, name: Name): Server {
    s.(pel := s.pel - OwnedBy(s, name))
  }

  ghost predicate ServerOk(s: Server) {
    && s.delivered <= s.top
    && s.pel.Keys <= s.entries
    && (forall e :: e in s.pel ==> e <= s.delivered)
    && (forall e :: e in s.entries ==> e <= s.top)
    && (forall e :: e in s.added && e > s.delivered ==> e in s.entries)
    && (forall e :: e in s.added ==> e <= s.top)
  }

  // Nothing pending or undelivered lies below m, now or ever after.
  ghost predicate Floor(s: Server, m: Id) {
    m <= s.delivered && forall e :: e in s.pel ==> m <= e
  }

  // An entry the group still has to hand out: undelivered, or pending, and not trimmed.
  ghost predicate Waiting(s: Server, id: Id) {
    id in s.entries && (id > s.delivered || id in s.pel)
  }

  // A trim at m keeps every pending and undelivered entry exactly when m is a floor of
  // the pending ids and no undelivered entry lies below it.
  lemma TrimSafeIff(s: Server, m: Id)
    requires ServerOk(s)
    ensures (forall e :: Waiting(s, e) ==> Waiting(XTrimMinId(s, m), e))
       <==> (forall e :: Waiting(s, e) ==> m <= e)
  {
    if e: Id :| Waiting(s, e) && e < m {
      assert !Waiting(XTrimMinId(s, m), e);
    }
  }

  // Removing a consumer name loses nothing exactly when it owns no pending entry: the
  // prune step is only as safe as the idleness of the name it removes.
  lemma DelConsumerSafeIff(s: Server, name: Name)
    requires ServerOk(s)
    ensures (forall e :: Waiting(s, e) ==> Waiting(XGroupDelConsumer(s, name), e))
       <==> OwnedBy(s, name) == {}
  {
    var s' := XGroupDelConsumer(s, name);
    if OwnedBy(s, name) != {} {
      var e :| e in OwnedBy(s, name);
      assert Waiting(s, e) && !Waiting(s', e);
    }
  }
}
