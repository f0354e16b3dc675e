/** What holds in every state of every run of QueueProtocol. */
module QueueSafety {
  import opened Basics
  import opened Ids
  import opened Terms
  import opened AckerSpec
  import opened RedisStream
  import opened QueueProtocol

  // An added entry is processed, or still waiting in the stream for the group.
  ghost predicate Covered(s: State) {
    forall id :: id in s.server.added && id !in s.done ==> Waiting(s.server, id)
  }

  // The reader's side of a term: what it has sent or will send is ascending and below
  // the group's last-delivered id, so the next live batch is above all of it.
  ghost predicate ReaderOk(tm: Term, delivered: Id) {
    && Ascending(tm.sent + tm.toSend)
    && (forall e :: e in tm.sent + tm.toSend ==> e <= delivered)
    && (forall e :: e in tm.claimed ==> e <= delivered)
    && (tm.phase == Collecting ==> tm.sent == [] && tm.toSend == [])
    && tm.handed <= tm.sent
  }

  ghost predicate BatchOk(batch: seq<Id>, issued: set<Id>, watermark: int) {
    forall i :: 0 <= i < |batch| ==> batch[i] in issued && batch[i] <= watermark
  }

  // The acker's side: it only knows ids that were sent, its queue is split, and batches
  // in flight lie at or below the watermark.
  ghost predicate AckOk(tm: Term) {
    && tm.recorded <= |tm.sent| <= tm.recorded + 1
    && Split(tm.ack)
    && (forall e :: e in tm.ack.pending ==> e in tm.sent[..tm.recorded])
    && (forall e :: e in tm.issued ==> e in tm.sent[..tm.recorded])
    && (forall k :: 0 <= k < |tm.inflight| ==> BatchOk(tm.inflight[k], tm.issued, tm.ack.watermark))
  }

  // Marks: everything handed out at or below the watermark is done, and so is whatever
  // an XACK was ever issued for.
  ghost predicate MarkOk(tm: Term, done: set<Id>) {
    && (tm.ack.watermark != NONE ==> exists x :: x in tm.handed && x == tm.ack.watermark)
    && (forall e :: e in tm.handed && e <= tm.ack.watermark ==> e in done)
    && tm.issued <= done
  }

  // No recorded id is forgotten: it is pending, in a batch in flight, or acknowledged.
  ghost predicate KeptOk(tm: Term, pel: map<Id, Name>) {
    forall i :: 0 <= i < tm.recorded <= |tm.sent| && tm.sent[i] in pel ==>
      tm.sent[i] in tm.ack.pending || exists k :: 0 <= k < |tm.inflight| && tm.sent[i] in tm.inflight[k]
  }

  ghost predicate CoreOk(tm: Term, delivered: Id, done: set<Id>, pel: map<Id, Name>) {
    && ReaderOk(tm, delivered)
    && AckOk(tm)
    && MarkOk(tm, done)
    && KeptOk(tm, pel)
  }

  ghost predicate TermOk(tm: Term, s: State) {
    && CoreOk(tm, s.server.delivered, s.done, s.server.pel)
    && (tm.trim.SawGroup? ==> tm.trim.delivered <= s.server.delivered)
    && tm.owner in s.procs
    && forall n :: n in tm.doomed ==> OwnedBy(s.server, n) == {}
  }

  function InHand(sub: Sub, t: TermId): seq<Id> {
    if sub.Got? && sub.t == t then [sub.id] else []
  }

  // While a term is current, what was handed out, what the subscriber holds and what the
  // channel buffers are, in this order, exactly what was sent.
  ghost predicate ProcOk(c: Name, p: Proc, terms: map<TermId, Term>) {
    && CellOk(p.cell)
    && (p.cell.term.Some? ==>
          var t := p.cell.term.value;
          t in terms && terms[t].owner == c && terms[t].handed + InHand(p.sub, t) + terms[t].chan == terms[t].sent)
    && (p.sub.Holding? ==> Informed(p.cell, p.sub.term, p.sub.wake))
    && (p.sub.Holding? && p.sub.term.Some? ==> p.sub.term.value in terms && terms[p.sub.term.value].owner == c)
    && (p.sub.Got? ==> p.sub.t in terms && terms[p.sub.t].owner == c)
  }

  ghost predicate Inv(s: State) {
    && ServerOk(s.server)
    && Covered(s)
    && (forall m :: m in s.bounds ==> Floor(s.server, m))
    && (forall t :: t in s.terms ==> TermOk(s.terms[t], s))
    && (forall c :: c in s.procs ==> ProcOk(c, s.procs[c], s.terms))
    && (forall id :: id in s.done ==> WasHanded(s, id))
  }

  // How the server may change under any step: the last-delivered id never goes back, and
  // only ids above it enter the pending list.
  ghost predicate Advances(a: Server, b: Server) {
    && a.delivered <= b.delivered
    && (forall e :: e in b.pel ==> e in a.pel || e > a.delivered)
  }

  // The new owner of a pending entry, if any, is c.
  ghost predicate OnlyGains(a: Server, b: Server, c: Name) {
    forall n :: n != c && OwnedBy(a, n) == {} ==> OwnedBy(b, n) == {}
  }

  lemma FloorStays(a: Server, b: Server, m: Id)
    requires Advances(a, b) && Floor(a, m)
    ensures Floor(b, m)
  {
  }

  // A term that a step does not touch stays fine.
  lemma TermFrame(tm: Term, s: State, s': State)
    requires TermOk(tm, s)
    requires Advances(s.server, s'.server)
    requires s.done <= s'.done && s.procs.Keys <= s'.procs.Keys
    requires forall n :: n in tm.doomed ==> OwnedBy(s'.server, n) == {}
    ensures TermOk(tm, s')
  {
    forall i | 0 <= i < tm.recorded <= |tm.sent| && tm.sent[i] in s'.server.pel
      ensures tm.sent[i] in s.server.pel
    {
      assert tm.sent[i] in tm.sent + tm.toSend;
    }
  }

  lemma ReadKeepsServer(s: Server, c: Name, batch: seq<Id>)
    requires ServerOk(s) && IsNextBatch(s, batch)
    ensures var s' := XReadGroup(s, c, batch);
            ServerOk(s') && Advances(s, s') && OnlyGains(s, s', c) && (forall e :: Waiting(s, e) ==> Waiting(s', e))
  {
    var s' := XReadGroup(s, c, batch);
    var last := batch[|batch| - 1];
    assert last in batch;
    forall n | n != c && OwnedBy(s, n) == {}
      ensures OwnedBy(s', n) == {}
    {
      assert forall e :: e !in OwnedBy(s, n) ==> e !in OwnedBy(s', n);
    }
    assert forall e :: e in batch ==> e <= last;
  }

  lemma ClaimKeepsServer(s: Server, c: Name, ids: set<Id>)
    requires ServerOk(s) && ids <= s.pel.Keys
    ensures var s' := XAutoClaim(s, c, ids);
            ServerOk(s') && Advances(s, s') && OnlyGains(s, s', c) && (forall e :: Waiting(s, e) ==> Waiting(s', e))
  {
    var s' := XAutoClaim(s, c, ids);
    assert s'.pel.Keys == s.pel.Keys;
    forall n | n != c && OwnedBy(s, n) == {}
      ensures OwnedBy(s', n) == {}
    {
      assert forall e :: e !in OwnedBy(s, n) ==> e !in OwnedBy(s', n);
    }
  }

  lemma AckKeepsServer(s: Server, ids: set<Id>)
    requires ServerOk(s)
    ensures var s' := XAck(s, ids);
            && ServerOk(s') && Advances(s, s')
            && (forall n :: OwnedBy(s, n) == {} ==> OwnedBy(s', n) == {})
            && (forall e :: Waiting(s, e) && e !in ids ==> Waiting(s', e))
  {
    var s' := XAck(s, ids);
    forall n | OwnedBy(s, n) == {}
      ensures OwnedBy(s', n) == {}
    {
      assert forall e :: e !in OwnedBy(s, n) ==> e !in OwnedBy(s', n);
    }
  }

  // A step that only changes the server.
  lemma ServerStep(s: State, sv: Server)
    requires Inv(s)
    requires ServerOk(sv) && Advances(s.server, sv)
    requires forall e :: e in sv.added && e !in s.server.added ==> Waiting(sv, e)
    requires forall e :: Waiting(s.server, e) && e !in s.done ==> Waiting(sv, e)
    requires forall t, n :: t in s.terms && n in s.terms[t].doomed ==> OwnedBy(sv, n) == {}
    ensures Inv(s.(server := sv))
  {
    var s' := s.(server := sv);
    forall m | m in s.bounds
      ensures Floor(sv, m)
    {
      FloorStays(s.server, sv, m);
    }
    forall t | t in s.terms
      ensures TermOk(s'.terms[t], s')
    {
      TermFrame(s.terms[t], s, s');
    }
    forall id | id in s'.done
      ensures WasHanded(s', id)
    {
      assert WasHanded(s, id);
    }
  }

  lemma TermsAfter(s: State, t: TermId, tm: Term, s': State)
    requires forall u :: u in s.terms ==> TermOk(s.terms[u], s)
    requires TermOk(tm, s)
    requires s'.terms == s.terms[t := tm] && s'.server == s.server && s'.done == s.done
    requires s.procs.Keys <= s'.procs.Keys
    ensures forall u :: u in s'.terms ==> TermOk(s'.terms[u], s')
  {
    forall u | u in s'.terms
      ensures TermOk(s'.terms[u], s')
    {
      TermFrame(s'.terms[u], s, s');
    }
  }

  lemma HandedAfter(s: State, t: TermId, tm: Term, s': State)
    requires forall id :: id in s.done ==> WasHanded(s, id)
    requires s'.terms == s.terms[t := tm] && s'.done == s.done
    requires t in s.terms ==> s.terms[t].handed <= tm.handed
    ensures forall id :: id in s'.done ==> WasHanded(s', id)
  {
    forall id | id in s'.done
      ensures WasHanded(s', id)
    {
      var u :| u in s.terms && id in s.terms[u].handed;
      assert u in s'.terms && id in s'.terms[u].handed;
    }
  }

  // A step that changes one term, or starts it, and the process that owns it.
  lemma LocalStep(s: State, t: TermId, tm: Term, p: Proc)
    requires Inv(s)
    requires TermOk(tm, s)
    requires t in s.terms ==> s.terms[t].owner == tm.owner && s.terms[t].handed <= tm.handed
    requires ProcOk(tm.owner, p, s.terms[t := tm])
    ensures Inv(SetProc(SetTerm(s, t, tm), tm.owner, p))
  {
    var s' := SetProc(SetTerm(s, t, tm), tm.owner, p);
    TermsAfter(s, t, tm, s');
    HandedAfter(s, t, tm, s');
    forall c | c in s'.procs
      ensures ProcOk(c, s'.procs[c], s'.terms)
    {
      if c != tm.owner {
        OtherProc(s, c, t, tm);
      }
    }
  }

  lemma OtherProc(s: State, c: Name, t: TermId, tm: Term)
    requires c in s.procs && ProcOk(c, s.procs[c], s.terms)
    requires c != tm.owner && (t in s.terms ==> s.terms[t].owner == tm.owner)
    ensures ProcOk(c, s.procs[c], s.terms[t := tm])
  {
  }

  // A step that only changes one term, and neither what it sent, handed out nor buffers.
  lemma TermStep(s: State, t: TermId, tm: Term)
    requires Inv(s) && t in s.terms
    requires TermOk(tm, s)
    requires tm.owner == s.terms[t].owner
    requires tm.sent == s.terms[t].sent && tm.handed == s.terms[t].handed && tm.chan == s.terms[t].chan
    ensures Inv(SetTerm(s, t, tm))
  {
    var p := s.procs[tm.owner];
    assert ProcOk(tm.owner, p, s.terms);
    LocalStep(s, t, tm, p);
    assert SetProc(SetTerm(s, t, tm), tm.owner, p) == SetTerm(s, t, tm);
  }

  // A step that only changes one process.
  lemma ProcStep(s: State, c: Name, p: Proc)
    requires Inv(s)
    requires ProcOk(c, p, s.terms)
    ensures Inv(SetProc(s, c, p))
  {
    var s' := SetProc(s, c, p);
    forall u | u in s'.terms
      ensures TermOk(s'.terms[u], s')
    {
      TermFrame(s.terms[u], s, s');
    }
    forall id | id in s'.done
      ensures WasHanded(s', id)
    {
      assert WasHanded(s, id);
    }
  }
}
