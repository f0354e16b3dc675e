/** Every step of QueueProtocol keeps the invariant of QueueSafety. */
module QueueSteps {
  import opened Basics
  import opened Ids
  import opened Terms
  import opened AckerSpec
  import opened RedisStream
  import opened QueueProtocol
  import opened QueueSafety

  lemma ProduceStep(s: State, id: Id)
    requires Inv(s) && Enabled(s, Produce(id))
    ensures Inv(Apply(s, Produce(id)))
  {
    ServerStep(s, XAdd(s.server, id));
  }

  lemma JoinStep(s: State, c: Name)
    requires Inv(s) && Enabled(s, Join(c))
    ensures Inv(Apply(s, Join(c)))
  {
    ProcStep(s, c, Proc(START, Idle, true));
  }

  lemma BeginStep(s: State, c: Name, t: TermId)
    requires Inv(s) && Enabled(s, BeginTerm(c, t))
    ensures Inv(Apply(s, BeginTerm(c, t)))
  {
    var tm := Term(c, Collecting, {}, [], [], [], [], 0, FRESH, [], {}, NoTrim, {});
    assert ProcOk(c, s.procs[c], s.terms);
    LocalStep(s, t, tm, s.procs[c].(cell := Begin(s.procs[c].cell, t)));
  }

  lemma EndStep(s: State, t: TermId)
    requires Inv(s) && Enabled(s, EndTerm(t))
    ensures Inv(Apply(s, EndTerm(t)))
  {
    var tm := s.terms[t];
    var p := s.procs[tm.owner];
    assert TermOk(tm, s);
    EndProc(s.terms, t, tm.owner, p);
    LocalStep(s, t, tm.(phase := Stopped), p.(cell := End(p.cell, t)));
  }

  lemma EndProc(terms: map<TermId, Term>, t: TermId, c: Name, p: Proc)
    requires ProcOk(c, p, terms) && t in terms && terms[t].owner == c
    ensures ProcOk(c, p.(cell := End(p.cell, t)), terms[t := terms[t].(phase := Stopped)])
  {
  }

  lemma ClaimStep(s: State, t: TermId, ids: set<Id>)
    requires Inv(s) && Enabled(s, Claim(t, ids))
    ensures Inv(Apply(s, Claim(t, ids)))
  {
    var tm := s.terms[t];
    LostClaimStep(s, tm.owner, ids);
    var mid := Apply(s, LostClaim(tm.owner, ids));
    assert TermOk(mid.terms[t], mid);
    TermStep(mid, t, tm.(claimed := tm.claimed + ids));
  }

  lemma LostClaimStep(s: State, c: Name, ids: set<Id>)
    requires Inv(s) && Enabled(s, LostClaim(c, ids))
    ensures Inv(Apply(s, LostClaim(c, ids)))
  {
    ClaimKeepsServer(s.server, c, ids);
    ServerStep(s, XAutoClaim(s.server, c, ids));
  }

  lemma ReclaimedStep(s: State, t: TermId, order: seq<Id>)
    requires Inv(s) && Enabled(s, Reclaimed(t, order))
    ensures Inv(Apply(s, Reclaimed(t, order)))
  {
    var tm := s.terms[t];
    assert TermOk(tm, s);
    assert [] + order == order;
    assert forall e :: e in order ==> e in Elems(order);
    TermStep(s, t, tm.(phase := Serving, toSend := order));
  }

  // A live batch lies above the last-delivered id, hence above all that was ever sent.
  lemma ReadCore(tm: Term, sv: Server, batch: seq<Id>)
    requires ReaderOk(tm, sv.delivered) && tm.toSend == [] && IsNextBatch(sv, batch) && tm.phase == Serving
    ensures ReaderOk(tm.(toSend := batch), batch[|batch| - 1])
  {
    assert tm.sent + [] == tm.sent;
    assert forall e :: e in batch ==> sv.delivered < e <= batch[|batch| - 1];
    assert batch[|batch| - 1] in batch;
    forall i, j | 0 <= i < j < |tm.sent + batch|
      ensures (tm.sent + batch)[i] < (tm.sent + batch)[j]
    {
      if i < |tm.sent| <= j {
        assert tm.sent[i] in tm.sent + [];
        assert batch[j - |tm.sent|] in batch;
      }
    }
  }

  lemma ReadStep(s: State, t: TermId, batch: seq<Id>)
    requires Inv(s) && Enabled(s, Read(t, batch))
    ensures Inv(Apply(s, Read(t, batch)))
  {
    var tm := s.terms[t];
    assert TermOk(tm, s);
    ReadCore(tm, s.server, batch);
    LostReadStep(s, tm.owner, batch);
    var mid := Apply(s, LostRead(tm.owner, batch));
    assert TermOk(mid.terms[t], mid);
    TermStep(mid, t, tm.(toSend := batch));
    assert Apply(s, Read(t, batch)) == SetTerm(mid, t, tm.(toSend := batch));
  }

  lemma LostReadStep(s: State, c: Name, batch: seq<Id>)
    requires Inv(s) && Enabled(s, LostRead(c, batch))
    ensures Inv(Apply(s, LostRead(c, batch)))
  {
    ReadKeepsServer(s.server, c, batch);
    ServerStep(s, XReadGroup(s.server, c, batch));
  }

  lemma SendCore(tm: Term, tm': Term, delivered: Id, done: set<Id>, pel: map<Id, Name>)
    requires CoreOk(tm, delivered, done, pel) && tm.toSend != [] && tm.recorded == |tm.sent| && tm.phase == Serving
    requires tm' == tm.(toSend := tm.toSend[1..], sent := tm.sent + [tm.toSend[0]], chan := tm.chan + [tm.toSend[0]])
    ensures CoreOk(tm', delivered, done, pel)
  {
    assert tm'.sent + tm'.toSend == tm.sent + tm.toSend;
    assert tm'.sent[..tm.recorded] == tm.sent[..tm.recorded];
  }

  lemma SendStep(s: State, t: TermId)
    requires Inv(s) && Enabled(s, Send(t))
    ensures Inv(Apply(s, Send(t)))
  {
    var tm := s.terms[t];
    var tm' := Sent(tm);
    assert TermOk(tm, s);
    SendCore(tm, tm', s.server.delivered, s.done, s.server.pel);
    var p := s.procs[tm.owner];
    SendProc(s.terms, t, tm.owner, p);
    LocalStep(s, t, tm', p);
    SendIs(s, t);
  }

  function Sent(tm: Term): Term
    requires tm.toSend != []
  {
    tm.(toSend := tm.toSend[1..], sent := tm.sent + [tm.toSend[0]], chan := tm.chan + [tm.toSend[0]])
  }

  lemma SendProc(terms: map<TermId, Term>, t: TermId, c: Name, p: Proc)
    requires ProcOk(c, p, terms) && t in terms && terms[t].owner == c && terms[t].toSend != []
    ensures ProcOk(c, p, terms[t := Sent(terms[t])])
  {
    var x := [terms[t].toSend[0]];
    assert terms[t].handed + InHand(p.sub, t) + (terms[t].chan + x) == terms[t].handed + InHand(p.sub, t) + terms[t].chan + x;
  }

  lemma SendIs(s: State, t: TermId)
    requires Enabled(s, Send(t)) && s.terms[t].owner in s.procs
    ensures var c := s.terms[t].owner; Apply(s, Send(t)) == SetProc(SetTerm(s, t, Sent(s.terms[t])), c, s.procs[c])
  {
    var c := s.terms[t].owner;
    assert s.procs[c := s.procs[c]] == s.procs;
  }

  lemma RecordAscends(tm: Term, delivered: Id)
    requires ReaderOk(tm, delivered) && AckOk(tm) && tm.recorded < |tm.sent|
    ensures forall i :: 0 <= i < |tm.ack.pending| ==> tm.ack.pending[i] < tm.sent[tm.recorded]
  {
    forall i | 0 <= i < |tm.ack.pending|
      ensures tm.ack.pending[i] < tm.sent[tm.recorded]
    {
      assert tm.ack.pending[i] in tm.sent[..tm.recorded];
      var j :| 0 <= j < tm.recorded && tm.ack.pending[i] == tm.sent[j];
      assert (tm.sent + tm.toSend)[j] < (tm.sent + tm.toSend)[tm.recorded];
    }
  }

  lemma RecordForgetsNothing(tm: Term, tm': Term, pel: map<Id, Name>)
    requires KeptOk(tm, pel) && tm.recorded < |tm.sent|
    requires tm' == tm.(recorded := tm.recorded + 1, ack := OnDeliver(tm.ack, tm.sent[tm.recorded]))
    ensures KeptOk(tm', pel)
  {
  }

  lemma RecordCore(tm: Term, tm': Term, delivered: Id, done: set<Id>, pel: map<Id, Name>)
    requires CoreOk(tm, delivered, done, pel) && tm.recorded < |tm.sent|
    requires tm' == tm.(recorded := tm.recorded + 1, ack := OnDeliver(tm.ack, tm.sent[tm.recorded]))
    ensures CoreOk(tm', delivered, done, pel)
  {
    RecordAscends(tm, delivered);
    SplitKept(tm.ack, tm.sent[tm.recorded], []);
    assert tm.sent[..tm.recorded + 1] == tm.sent[..tm.recorded] + [tm.sent[tm.recorded]];
    RecordForgetsNothing(tm, tm', pel);
  }

  lemma RecordStep(s: State, t: TermId)
    requires Inv(s) && Enabled(s, Record(t))
    ensures Inv(Apply(s, Record(t)))
  {
    var tm, tm' := s.terms[t], Apply(s, Record(t)).terms[t];
    assert TermOk(tm, s);
    RecordCore(tm, tm', s.server.delivered, s.done, s.server.pel);
    TermStep(s, t, tm');
  }

  lemma LookStep(s: State, c: Name)
    requires Inv(s) && Enabled(s, Look(c))
    ensures Inv(Apply(s, Look(c)))
  {
    var p := s.procs[c];
    assert ProcOk(c, p, s.terms);
    ProcStep(s, c, p.(sub := Holding(p.cell.term, p.cell.wake)));
  }

  lemma ReceiveStep(s: State, c: Name)
    requires Inv(s) && Enabled(s, Receive(c))
    ensures Inv(Apply(s, Receive(c)))
  {
    var t := s.procs[c].sub.term.value;
    var tm := s.terms[t];
    assert TermOk(tm, s);
    assert ProcOk(c, s.procs[c], s.terms);
    ReceiveProc(s.terms, t, c, s.procs[c]);
    LocalStep(s, t, tm.(chan := tm.chan[1..]), s.procs[c].(sub := Got(t, tm.chan[0])));
  }

  lemma ReceiveProc(terms: map<TermId, Term>, t: TermId, c: Name, p: Proc)
    requires ProcOk(c, p, terms) && p.sub.Holding? && p.sub.term == Some(t) && t in terms && terms[t].owner == c && terms[t].chan != []
    ensures ProcOk(c, p.(sub := Got(t, terms[t].chan[0])), terms[t := terms[t].(chan := terms[t].chan[1..])])
  {
    assert terms[t].chan == [terms[t].chan[0]] + terms[t].chan[1..];
    assert terms[t].handed + [] + terms[t].chan == terms[t].handed + [terms[t].chan[0]] + terms[t].chan[1..];
  }

  // A newly handed id lies above everything handed before, hence above the watermark.
  lemma HandCore(tm: Term, tm': Term, id: Id, delivered: Id, done: set<Id>, pel: map<Id, Name>)
    requires CoreOk(tm, delivered, done, pel)
    requires tm.handed + [id] + tm.chan == tm.sent
    requires tm' == tm.(handed := tm.handed + [id])
    ensures CoreOk(tm', delivered, done, pel)
  {
    var h := |tm.handed|;
    if tm.ack.watermark != NONE {
      var x :| x in tm.handed && x == tm.ack.watermark;
      var i :| 0 <= i < h && tm.handed[i] == x;
      assert x in tm'.handed;
      assert (tm.sent + tm.toSend)[i] < (tm.sent + tm.toSend)[h];
    }
  }

  lemma HandStep(s: State, c: Name)
    requires Inv(s) && Enabled(s, Hand(c))
    ensures Inv(Apply(s, Hand(c)))
  {
    var Got(t, id) := s.procs[c].sub;
    var tm := s.terms[t];
    var tm' := tm.(handed := tm.handed + [id]);
    assert TermOk(tm, s);
    assert ProcOk(c, s.procs[c], s.terms);
    HandCore(tm, tm', id, s.server.delivered, s.done, s.server.pel);
    assert tm'.handed + [] + tm'.chan == tm.handed + [id] + tm.chan;
    LocalStep(s, t, tm', s.procs[c].(sub := Idle));
  }

  lemma FinishStep(s: State, id: Id)
    requires Inv(s) && Enabled(s, Finish(id))
    ensures Inv(Apply(s, Finish(id)))
  {
    var s' := Apply(s, Finish(id));
    forall u | u in s'.terms
      ensures TermOk(s'.terms[u], s')
    {
      TermFrame(s.terms[u], s, s');
    }
    forall x | x in s'.done
      ensures WasHanded(s', x)
    {
      assert WasHanded(s, x);
    }
  }

  lemma MarkCore(tm: Term, tm': Term, id: Id, delivered: Id, done: set<Id>, pel: map<Id, Name>)
    requires CoreOk(tm, delivered, done, pel)
    requires id in tm.handed && forall x :: x in tm.handed && x <= id ==> x in done
    requires tm' == tm.(ack := Mark(tm.ack, id))
    ensures CoreOk(tm', delivered, done, pel)
  {
    SplitKept(tm.ack, id, []);
    forall k | 0 <= k < |tm'.inflight|
      ensures BatchOk(tm'.inflight[k], tm'.issued, tm'.ack.watermark)
    {
      assert BatchOk(tm.inflight[k], tm.issued, tm.ack.watermark);
    }
  }

  lemma MarkStep(s: State, t: TermId, id: Id)
    requires Inv(s) && Enabled(s, MarkId(t, id))
    ensures Inv(Apply(s, MarkId(t, id)))
  {
    var tm, tm' := s.terms[t], Apply(s, MarkId(t, id)).terms[t];
    assert TermOk(tm, s);
    MarkCore(tm, tm', id, s.server.delivered, s.done, s.server.pel);
    TermStep(s, t, tm');
  }

  lemma SmallerIsEarlier(ids: seq<Id>, i: nat, j: nat)
    requires Ascending(ids) && i < |ids| && j < |ids| && ids[j] <= ids[i]
    ensures j <= i
  {
  }

  // What a flush takes is done: it was sent no later than the watermark id, which was
  // handed out, so it was handed out too, and the mark contract covers it.
  lemma BatchIsDone(tm: Term, done: set<Id>, x: Id)
    requires tm.handed <= tm.sent && Ascending(tm.sent + tm.toSend)
    requires tm.recorded <= |tm.sent| && MarkOk(tm, done)
    requires forall e :: e in tm.ack.pending ==> e in tm.sent[..tm.recorded]
    requires x in Batch(tm.ack)
    ensures x in done && x <= tm.ack.watermark && x in tm.sent[..tm.recorded]
  {
    assert x in tm.ack.pending;
    var w :| w in tm.handed && w == tm.ack.watermark;
    var i :| 0 <= i < |tm.handed| && tm.handed[i] == w;
    var j :| 0 <= j < tm.recorded && tm.sent[j] == x;
    SmallerIsEarlier(tm.sent + tm.toSend, i, j);
    assert tm.handed[j] == x;
  }

  lemma TakeCore(tm: Term, tm': Term, delivered: Id, done: set<Id>, pel: map<Id, Name>)
    requires CoreOk(tm, delivered, done, pel)
    requires tm' == tm.(ack := AfterTake(tm.ack), inflight := tm.inflight + [Batch(tm.ack)], issued := tm.issued + Elems(Batch(tm.ack)))
    ensures CoreOk(tm', delivered, done, pel)
  {
    TakeBatches(tm, tm', done);
    SplitKept(tm.ack, 0, []);
    assert Batch(tm.ack) + tm'.ack.pending == tm.ack.pending;
    TakeForgetsNothing(tm, tm', pel);
  }

  lemma TakeBatches(tm: Term, tm': Term, done: set<Id>)
    requires AckOk(tm) && MarkOk(tm, done) && tm.handed <= tm.sent && Ascending(tm.sent + tm.toSend)
    requires tm' == tm.(ack := AfterTake(tm.ack), inflight := tm.inflight + [Batch(tm.ack)], issued := tm.issued + Elems(Batch(tm.ack)))
    ensures forall k :: 0 <= k < |tm'.inflight| ==> BatchOk(tm'.inflight[k], tm'.issued, tm'.ack.watermark)
    ensures forall x :: x in Batch(tm.ack) ==> x in done && x <= tm.ack.watermark && x in tm.sent[..tm.recorded]
  {
    var batch := Batch(tm.ack);
    forall x | x in batch
      ensures x in done && x <= tm.ack.watermark && x in tm.sent[..tm.recorded]
    {
      BatchIsDone(tm, done, x);
    }
    forall k | 0 <= k < |tm'.inflight|
      ensures BatchOk(tm'.inflight[k], tm'.issued, tm'.ack.watermark)
    {
      if k < |tm.inflight| {
        assert BatchOk(tm.inflight[k], tm.issued, tm.ack.watermark);
      } else {
        assert tm'.inflight[k] == batch;
      }
    }
  }

  lemma TakeForgetsNothing(tm: Term, tm': Term, pel: map<Id, Name>)
    requires KeptOk(tm, pel)
    requires tm'.sent == tm.sent && tm'.recorded == tm.recorded
    requires tm'.inflight == tm.inflight + [Batch(tm.ack)] && tm'.ack == AfterTake(tm.ack)
    ensures KeptOk(tm', pel)
  {
    assert Batch(tm.ack) + tm'.ack.pending == tm.ack.pending;
    assert tm'.inflight[|tm.inflight|] == Batch(tm.ack);
    forall i | 0 <= i < tm'.recorded <= |tm'.sent| && tm'.sent[i] in pel
      ensures tm'.sent[i] in tm'.ack.pending || exists k :: 0 <= k < |tm'.inflight| && tm'.sent[i] in tm'.inflight[k]
    {
      if tm.sent[i] !in tm.ack.pending {
        var k :| 0 <= k < |tm.inflight| && tm.sent[i] in tm.inflight[k];
        assert tm'.inflight[k] == tm.inflight[k];
      }
    }
  }

  lemma FlushTakeStep(s: State, t: TermId)
    requires Inv(s) && Enabled(s, FlushTake(t))
    ensures Inv(Apply(s, FlushTake(t)))
  {
    var tm, tm' := s.terms[t], Apply(s, FlushTake(t)).terms[t];
    assert TermOk(tm, s);
    TakeCore(tm, tm', s.server.delivered, s.done, s.server.pel);
    TermStep(s, t, tm');
  }

  // Dropping batch k from the ones in flight forgets nothing if its ids are queued again
  // or acknowledged.
  lemma WithoutKeeps(tm: Term, tm': Term, k: nat, pel: map<Id, Name>, pel': map<Id, Name>)
    requires KeptOk(tm, pel) && k < |tm.inflight|
    requires tm'.sent == tm.sent && tm'.recorded == tm.recorded && tm'.inflight == Without(tm.inflight, k)
    requires forall e :: e in tm.ack.pending ==> e in tm'.ack.pending
    requires forall e :: e in tm.inflight[k] ==> e in tm'.ack.pending || e !in pel'
    requires forall e :: e in pel' ==> e in pel
    ensures KeptOk(tm', pel')
  {
    forall i | 0 <= i < tm'.recorded <= |tm'.sent| && tm'.sent[i] in pel'
      ensures tm'.sent[i] in tm'.ack.pending || exists m :: 0 <= m < |tm'.inflight| && tm'.sent[i] in tm'.inflight[m]
    {
      if tm.sent[i] !in tm'.ack.pending {
        var m :| 0 <= m < |tm.inflight| && tm.sent[i] in tm.inflight[m];
        assert tm'.inflight[if m < k then m else m - 1] == tm.inflight[m];
      }
    }
  }

  lemma WithoutAck(tm: Term, tm': Term, k: nat)
    requires AckOk(tm) && k < |tm.inflight|
    requires tm'.sent == tm.sent && tm'.recorded == tm.recorded && tm'.issued == tm.issued
    requires tm'.inflight == Without(tm.inflight, k)
    requires tm'.ack == tm.ack || tm'.ack == Requeue(tm.ack, tm.inflight[k])
    ensures AckOk(tm')
  {
    var batch := tm.inflight[k];
    assert BatchOk(batch, tm.issued, tm.ack.watermark);
    SplitKept(tm.ack, 0, batch);
    forall m | 0 <= m < |tm'.inflight|
      ensures BatchOk(tm'.inflight[m], tm'.issued, tm'.ack.watermark)
    {
      assert BatchOk(tm.inflight[if m < k then m else m + 1], tm.issued, tm.ack.watermark);
    }
  }

  lemma FlushOkStep(s: State, t: TermId, k: nat)
    requires Inv(s) && Enabled(s, FlushOk(t, k))
    ensures Inv(Apply(s, FlushOk(t, k)))
  {
    var tm := s.terms[t];
    assert TermOk(tm, s);
    var ids := Elems(tm.inflight[k]);
    assert BatchOk(tm.inflight[k], tm.issued, tm.ack.watermark);
    LateAckStep(s, t, ids);
    var mid := Apply(s, LateAck(t, ids));
    assert TermOk(tm, mid);
    var tm' := tm.(inflight := Without(tm.inflight, k));
    WithoutKeeps(tm, tm', k, mid.server.pel, mid.server.pel);
    WithoutAck(tm, tm', k);
    TermStep(mid, t, tm');
  }

  lemma FlushFailStep(s: State, t: TermId, k: nat)
    requires Inv(s) && Enabled(s, FlushFail(t, k))
    ensures Inv(Apply(s, FlushFail(t, k)))
  {
    var tm, tm' := s.terms[t], Apply(s, FlushFail(t, k)).terms[t];
    assert TermOk(tm, s);
    WithoutKeeps(tm, tm', k, s.server.pel, s.server.pel);
    WithoutAck(tm, tm', k);
    TermStep(s, t, tm');
  }

  lemma LateAckStep(s: State, t: TermId, ids: set<Id>)
    requires Inv(s) && Enabled(s, LateAck(t, ids))
    ensures Inv(Apply(s, LateAck(t, ids)))
  {
    assert TermOk(s.terms[t], s);
    AckKeepsServer(s.server, ids);
    ServerStep(s, XAck(s.server, ids));
  }

  lemma TrimInfoStep(s: State, t: TermId)
    requires Inv(s) && Enabled(s, TrimInfo(t))
    ensures Inv(Apply(s, TrimInfo(t)))
  {
    if s.server.pel == map[] {
      BoundStep(s, s.server.delivered);
    } else {
      SawGroupStep(s, t);
    }
    assert Apply(s, TrimInfo(t)) ==
           if s.server.pel == map[] then AddBound(s, s.server.delivered) else SetTerm(s, t, s.terms[t].(trim := SawGroup(s.server.delivered)));
  }

  lemma SawGroupStep(s: State, t: TermId)
    requires Inv(s) && t in s.terms
    ensures Inv(SetTerm(s, t, s.terms[t].(trim := SawGroup(s.server.delivered))))
  {
    assert TermOk(s.terms[t], s);
    TermStep(s, t, s.terms[t].(trim := SawGroup(s.server.delivered)));
  }

  lemma BoundStep(s: State, m: Id)
    requires Inv(s) && Floor(s.server, m)
    ensures Inv(AddBound(s, m))
  {
    var s' := AddBound(s, m);
    forall u | u in s'.terms
      ensures TermOk(s'.terms[u], s')
    {
      TermFrame(s.terms[u], s, s');
    }
    forall id | id in s'.done
      ensures WasHanded(s', id)
    {
      assert WasHanded(s, id);
    }
  }

  lemma TrimPendingStep(s: State, t: TermId, lower: Id)
    requires Inv(s) && Enabled(s, TrimPending(t, lower))
    ensures Inv(Apply(s, TrimPending(t, lower)))
  {
    assert TermOk(s.terms[t], s);
    var m := if s.server.pel == map[] then s.terms[t].trim.delivered else lower;
    ForgetGroupStep(s, t);
    BoundStep(SetTerm(s, t, s.terms[t].(trim := NoTrim)), m);
    TrimPendingIs(s, t, lower);
  }

  lemma ForgetGroupStep(s: State, t: TermId)
    requires Inv(s) && t in s.terms
    ensures Inv(SetTerm(s, t, s.terms[t].(trim := NoTrim)))
  {
    assert TermOk(s.terms[t], s);
    TermStep(s, t, s.terms[t].(trim := NoTrim));
  }

  lemma TrimPendingIs(s: State, t: TermId, lower: Id)
    requires Enabled(s, TrimPending(t, lower))
    ensures var m := if s.server.pel == map[] then s.terms[t].trim.delivered else lower;
            Apply(s, TrimPending(t, lower)) == AddBound(SetTerm(s, t, s.terms[t].(trim := NoTrim)), m)
  {
  }

  lemma TrimExecStep(s: State, m: Id)
    requires Inv(s) && Enabled(s, TrimExec(m))
    ensures Inv(Apply(s, TrimExec(m)))
  {
    var sv := XTrimMinId(s.server, m);
    assert Floor(s.server, m);
    assert forall n :: OwnedBy(s.server, n) == OwnedBy(sv, n);
    ServerStep(s, sv);
  }

  lemma PruneScanStep(s: State, t: TermId, names: set<Name>)
    requires Inv(s) && Enabled(s, PruneScan(t, names))
    ensures Inv(Apply(s, PruneScan(t, names)))
  {
    assert TermOk(s.terms[t], s);
    TermStep(s, t, s.terms[t].(doomed := names));
  }

  lemma PruneDelStep(s: State, t: TermId, name: Name)
    requires Inv(s) && Enabled(s, PruneDel(t, name))
    ensures Inv(Apply(s, PruneDel(t, name)))
  {
    var tm := s.terms[t];
    assert TermOk(tm, s);
    assert OwnedBy(s.server, name) == {};
    assert XGroupDelConsumer(s.server, name) == s.server;
    TermStep(s, t, tm.(doomed := tm.doomed - {name}));
  }

  lemma ForgetStep(s: State, t: TermId)
    requires Inv(s) && t in s.terms
    ensures Inv(SetTerm(s, t, s.terms[t].(trim := NoTrim)))
    ensures Inv(SetTerm(s, t, s.terms[t].(doomed := {})))
  {
    assert TermOk(s.terms[t], s);
    TermStep(s, t, s.terms[t].(trim := NoTrim));
    TermStep(s, t, s.terms[t].(doomed := {}));
  }

  lemma SubStep(s: State, c: Name, p: Proc)
    requires Inv(s) && c in s.procs
    requires p == s.procs[c].(alive := false) || (p == s.procs[c].(sub := Idle)
          && (s.procs[c].sub.Got? ==> s.procs[c].cell.term != Some(s.procs[c].sub.t)))
    ensures Inv(SetProc(s, c, p))
  {
    assert ProcOk(c, s.procs[c], s.terms);
    ProcStep(s, c, p);
  }

  lemma ReaderSteps(s: State, step: Step)
    requires Inv(s) && Enabled(s, step)
    requires step.Claim? || step.LostClaim? || step.Reclaimed? || step.Read? || step.LostRead? || step.Send? || step.Record?
    ensures Inv(Apply(s, step))
  {
    match step
    case Claim(t, ids) => ClaimStep(s, t, ids);
    case LostClaim(c, ids) => LostClaimStep(s, c, ids);
    case Reclaimed(t, order) => ReclaimedStep(s, t, order);
    case Read(t, batch) => ReadStep(s, t, batch);
    case LostRead(c, batch) => LostReadStep(s, c, batch);
    case Send(t) => SendStep(s, t);
    case Record(t) => RecordStep(s, t);
  }

  lemma SubscriberSteps(s: State, step: Step)
    requires Inv(s) && Enabled(s, step)
    requires step.Look? || step.Wakeup? || step.Receive? || step.Hand? || step.Drop? || step.Finish?
    ensures Inv(Apply(s, step))
  {
    match step
    case Look(c) => LookStep(s, c);
    case Wakeup(c) => SubStep(s, c, s.procs[c].(sub := Idle));
    case Receive(c) => ReceiveStep(s, c);
    case Hand(c) => HandStep(s, c);
    case Drop(c) => SubStep(s, c, s.procs[c].(sub := Idle));
    case Finish(id) => FinishStep(s, id);
  }

  lemma AckSteps(s: State, step: Step)
    requires Inv(s) && Enabled(s, step)
    requires step.MarkId? || step.FlushTake? || step.FlushOk? || step.FlushFail? || step.LateAck?
    ensures Inv(Apply(s, step))
  {
    match step
    case MarkId(t, id) => MarkStep(s, t, id);
    case FlushTake(t) => FlushTakeStep(s, t);
    case FlushOk(t, k) => FlushOkStep(s, t, k);
    case FlushFail(t, k) => FlushFailStep(s, t, k);
    case LateAck(t, ids) => LateAckStep(s, t, ids);
  }

  lemma MaintenanceSteps(s: State, step: Step)
    requires Inv(s) && Enabled(s, step)
    requires step.TrimInfo? || step.TrimPending? || step.TrimGiveUp? || step.TrimExec? || step.PruneScan? || step.PruneDel? || step.PruneGiveUp?
    ensures Inv(Apply(s, step))
  {
    match step
    case TrimInfo(t) => TrimInfoStep(s, t);
    case TrimPending(t, lower) => TrimPendingStep(s, t, lower);
    case TrimGiveUp(t) => ForgetStep(s, t);
    case TrimExec(m) => TrimExecStep(s, m);
    case PruneScan(t, names) => PruneScanStep(s, t, names);
    case PruneDel(t, name) => PruneDelStep(s, t, name);
    case PruneGiveUp(t) => ForgetStep(s, t);
  }

  lemma LifecycleSteps(s: State, step: Step)
    requires Inv(s) && Enabled(s, step)
    requires step.Produce? || step.Join? || step.Crash? || step.BeginTerm? || step.EndTerm?
    ensures Inv(Apply(s, step))
  {
    match step
    case Produce(id) => ProduceStep(s, id);
    case Join(c) => JoinStep(s, c);
    case Crash(c) => SubStep(s, c, s.procs[c].(alive := false));
    case BeginTerm(c, t) => BeginStep(s, c, t);
    case EndTerm(t) => EndStep(s, t);
  }

  lemma StepKeepsInv(s: State, step: Step)
    requires Inv(s) && Enabled(s, step)
    ensures Inv(Apply(s, step))
  {
    if step.Claim? || step.LostClaim? || step.Reclaimed? || step.Read? || step.LostRead? || step.Send? || step.Record? {
      ReaderSteps(s, step);
    } else if step.Look? || step.Wakeup? || step.Receive? || step.Hand? || step.Drop? || step.Finish? {
      SubscriberSteps(s, step);
    } else if step.MarkId? || step.FlushTake? || step.FlushOk? || step.FlushFail? || step.LateAck? {
      AckSteps(s, step);
    } else if step.Produce? || step.Join? || step.Crash? || step.BeginTerm? || step.EndTerm? {
      LifecycleSteps(s, step);
    } else {
      MaintenanceSteps(s, step);
    }
  }
}
