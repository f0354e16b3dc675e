/** The promises of the queue, over every run of QueueProtocol. */
module QueueTheorems {
  import opened Basics
  import opened Ids
  import opened Terms
  import opened AckerSpec
  import opened RedisStream
  import opened QueueProtocol
  import opened QueueSafety
  import opened QueueSteps
  import LeaderLoops

  lemma {:induction false} RunKeepsInv(s: State, steps: seq<Step>)
    requires Inv(s) && IsRun(s, steps)
    ensures Inv(After(s, steps))
    decreases |steps|
  {
    if steps != [] {
      StepKeepsInv(s, steps[0]);
      RunKeepsInv(Apply(s, steps[0]), steps[1..]);
    }
  }

  lemma Reachable(history: set<Id>, top: Id, steps: seq<Step>)
    requires forall e :: e in history ==> e <= top
    requires IsRun(Init(history, top), steps)
    ensures Inv(After(Init(history, top), steps))
  {
    RunKeepsInv(Init(history, top), steps);
  }

  lemma {:induction false} ProducedIsAdded(s: State, steps: seq<Step>)
    requires IsRun(s, steps)
    ensures s.server.added <= After(s, steps).server.added
    ensures forall id :: Produce(id) in steps ==> id in After(s, steps).server.added
    decreases |steps|
  {
    if steps != [] {
      var s' := Apply(s, steps[0]);
      assert s.server.added <= s'.server.added;
      ProducedIsAdded(s', steps[1..]);
      forall id | Produce(id) in steps
        ensures id in After(s, steps).server.added
      {
        if steps[0] == Produce(id) {
          assert id in s'.server.added;
        } else {
          assert Produce(id) in steps[1..];
        }
      }
    }
  }

  // At-least-once: in every state of every run, each produced entry has been processed
  // by a handler it was passed to, or is in the stream, undelivered or pending.
  lemma AtLeastOnce(history: set<Id>, top: Id, steps: seq<Step>, id: Id)
    requires forall e :: e in history ==> e <= top
    requires IsRun(Init(history, top), steps)
    requires Produce(id) in steps
    ensures var s := After(Init(history, top), steps);
            (id in s.done && WasHanded(s, id)) || Waiting(s.server, id)
  {
    Reachable(history, top, steps);
    ProducedIsAdded(Init(history, top), steps);
  }

  // Within a term, entries are sent in strictly ascending order, so never twice, and what
  // reaches the handler is a prefix of what was sent.
  lemma DeliveryOrder(history: set<Id>, top: Id, steps: seq<Step>, t: TermId)
    requires forall e :: e in history ==> e <= top
    requires IsRun(Init(history, top), steps)
    requires t in After(Init(history, top), steps).terms
    ensures var tm := After(Init(history, top), steps).terms[t];
            Ascending(tm.sent) && Ascending(tm.handed) && tm.handed <= tm.sent
  {
    Reachable(history, top, steps);
    var s := After(Init(history, top), steps);
    var tm := s.terms[t];
    assert TermOk(tm, s);
    assert forall i :: 0 <= i < |tm.sent| ==> tm.sent[i] == (tm.sent + tm.toSend)[i];
  }

  // Fencing: once a term is not the current one of its consumer it never is again, and
  // nothing more of it passes the check in front of the handler.
  lemma {:induction false} StaleTermIsFenced(s: State, steps: seq<Step>, t: TermId)
    requires Inv(s) && IsRun(s, steps)
    requires t in s.terms && s.procs[s.terms[t].owner].cell.term != Some(t)
    ensures var s' := After(s, steps);
            && Inv(s') && t in s'.terms && s'.terms[t].owner == s.terms[t].owner
            && s'.procs[s'.terms[t].owner].cell.term != Some(t)
            && s'.terms[t].handed == s.terms[t].handed
    decreases |steps|
  {
    RunKeepsInv(s, steps);
    if steps != [] {
      StepKeepsInv(s, steps[0]);
      assert TermOk(s.terms[t], s);
      forall c | c in s.procs && s.procs[c].sub.Got?
        ensures s.procs[c].sub.t in s.terms && s.terms[s.procs[c].sub.t].owner == c
      {
        assert ProcOk(c, s.procs[c], s.terms);
      }
      HandedByCurrent(s, steps[0], t);
      CurrentByBeginning(s, steps[0], t, s.terms[t].owner);
      StaleTermIsFenced(Apply(s, steps[0]), steps[1..], t);
    }
  }

  // No step gives a term another owner, and only one with the term current hands anything of it out.
  lemma HandedByCurrent(s: State, step: Step, t: TermId)
    requires Enabled(s, step) && t in s.terms
    requires step.Hand? ==> s.procs[step.c].sub.t in s.terms && s.terms[s.procs[step.c].sub.t].owner == step.c
    requires s.terms[t].owner in s.procs && s.procs[s.terms[t].owner].cell.term != Some(t)
    ensures var s' := Local(s, step);
            t in s'.terms && s'.terms[t].owner == s.terms[t].owner && s'.terms[t].handed == s.terms[t].handed
  {
  }

  // A term becomes current only by beginning.
  lemma CurrentByBeginning(s: State, step: Step, t: TermId, c: Name)
    requires Enabled(s, step) && t in s.terms && c in s.procs && s.procs[c].cell.term != Some(t)
    ensures c in Local(s, step).procs && Local(s, step).procs[c].cell.term != Some(t)
  {
  }

  // The key to trimming: whatever every consumer does in the meantime, a floor of the
  // pending and undelivered ids stays one, so an XTRIM at an old bound is still safe.
  lemma {:induction false} FloorNeverDrops(s: State, steps: seq<Step>, m: Id)
    requires Inv(s) && IsRun(s, steps) && Floor(s.server, m)
    ensures Floor(After(s, steps).server, m)
    decreases |steps|
  {
    if steps != [] {
      StepKeepsInv(s, steps[0]);
      StepAdvances(s, steps[0]);
      FloorStays(s.server, Apply(s, steps[0]).server, m);
      FloorNeverDrops(Apply(s, steps[0]), steps[1..], m);
    }
  }

  lemma StepAdvances(s: State, step: Step)
    requires ServerOk(s.server) && Enabled(s, step)
    ensures Advances(s.server, Serve(s, step))
  {
    if step.Read? {
      ReadKeepsServer(s.server, s.terms[step.t].owner, step.batch);
    } else if step.LostRead? {
      ReadKeepsServer(s.server, step.c, step.batch);
    }
  }

  // No trim of any run drops an entry that is pending or undelivered, however many
  // commands of other consumers ran since its bound was computed.
  lemma TrimNeverLoses(history: set<Id>, top: Id, steps: seq<Step>, m: Id)
    requires forall e :: e in history ==> e <= top
    requires IsRun(Init(history, top), steps)
    requires Enabled(After(Init(history, top), steps), TrimExec(m))
    ensures var sv := After(Init(history, top), steps).server;
            forall e :: Waiting(sv, e) ==> Waiting(XTrimMinId(sv, m), e)
  {
    Reachable(history, top, steps);
    var s := After(Init(history, top), steps);
    assert Floor(s.server, m);
  }

  // The acker's queue is, at any moment of any run, a block of ids at or below the
  // watermark and then a strictly ascending block, so a flush takes every pending id up
  // to the watermark and nothing else; and a recorded id that Redis still has pending is
  // in the queue or in a batch on its way.
  lemma FlushTakesAllMarked(history: set<Id>, top: Id, steps: seq<Step>, t: TermId)
    requires forall e :: e in history ==> e <= top
    requires IsRun(Init(history, top), steps)
    requires t in After(Init(history, top), steps).terms
    ensures var s := After(Init(history, top), steps); var tm := s.terms[t]; var a := tm.ack;
            && (exists k: nat :: SplitAt(a, k))
            && Batch(a) + AfterTake(a).pending == a.pending
            && (forall i :: 0 <= i < |Batch(a)| ==> Batch(a)[i] <= a.watermark && Batch(a)[i] in s.done)
            && (forall i :: 0 <= i < |AfterTake(a).pending| ==> AfterTake(a).pending[i] > a.watermark)
            && KeptOk(tm, s.server.pel)
  {
    Reachable(history, top, steps);
    var s := After(Init(history, top), steps);
    var tm := s.terms[t];
    assert TermOk(tm, s);
    SplitMeansSplitAt(tm.ack);
    TakeIsExact(tm.ack);
    forall i | 0 <= i < |Batch(tm.ack)|
      ensures Batch(tm.ack)[i] in s.done
    {
      assert Batch(tm.ack)[i] in Batch(tm.ack);
      BatchIsDone(tm, s.done, Batch(tm.ack)[i]);
    }
  }

  // Everything pending under the name of the term's owner has been collected.
  ghost predicate OwnCollected(s: State, t: TermId) {
    t in s.terms && OwnedBy(s.server, s.terms[t].owner) <= s.terms[t].claimed
  }

  // Nothing becomes pending under name c except through term t with the answer received.
  ghost predicate QuietFor(s: State, step: Step, t: TermId, c: Name)
    requires Enabled(s, step)
  {
    match step
    case LostClaim(n, _) => n != c
    case LostRead(n, _) => n != c
    case Claim(u, _) => u == t || s.terms[u].owner != c
    case Read(u, _) => u == t || s.terms[u].owner != c
    case _ => true
  }

  ghost predicate QuietRun(s: State, steps: seq<Step>, t: TermId, c: Name)
    requires IsRun(s, steps)
    decreases |steps|
  {
    steps == [] || (QuietFor(s, steps[0], t, c) && QuietRun(Apply(s, steps[0]), steps[1..], t, c))
  }

  // The only steps that make an entry pending under name c.
  lemma WhoGains(s: State, step: Step, c: Name, e: Id)
    requires Enabled(s, step)
    requires e in OwnedBy(Serve(s, step), c) && e !in OwnedBy(s.server, c)
    ensures (step.Claim? && s.terms[step.t].owner == c && e in step.ids)
         || (step.Read? && s.terms[step.t].owner == c)
         || (step.LostClaim? && step.c == c) || (step.LostRead? && step.c == c)
  {
  }

  lemma CollectingStep(s: State, step: Step, t: TermId)
    requires Enabled(s, step)
    requires OwnCollected(s, t) && QuietFor(s, step, t, s.terms[t].owner)
    requires s.terms[t].phase == Collecting
    ensures OwnCollected(Apply(s, step), t) && Apply(s, step).terms[t].owner == s.terms[t].owner
  {
    var s' := Apply(s, step);
    var c := s.terms[t].owner;
    assert s.terms[t].claimed <= s'.terms[t].claimed;
    forall e | e in OwnedBy(s'.server, c)
      ensures e in s'.terms[t].claimed
    {
      if e !in OwnedBy(s.server, c) {
        WhoGains(s, step, c, e);
      }
    }
  }

  lemma {:induction false} CollectingRun(s: State, steps: seq<Step>, t: TermId)
    requires IsRun(s, steps)
    requires OwnCollected(s, t) && QuietRun(s, steps, t, s.terms[t].owner)
    requires t in After(s, steps).terms && After(s, steps).terms[t].phase == Collecting
    ensures OwnCollected(After(s, steps), t)
    decreases |steps|
  {
    if steps != [] {
      var s' := Apply(s, steps[0]);
      LeavesCollecting(s, steps, t);
      CollectingStep(s, steps[0], t);
      CollectingRun(s', steps[1..], t);
    }
  }

  // Collecting is the first phase of a term and is never entered again.
  lemma {:induction false} LeavesCollecting(s: State, steps: seq<Step>, t: TermId)
    requires IsRun(s, steps) && t in s.terms
    ensures t in After(s, steps).terms
    ensures s.terms[t].phase != Collecting ==> After(s, steps).terms[t].phase != Collecting
    decreases |steps|
  {
    if steps != [] {
      LeavesCollecting(Apply(s, steps[0]), steps[1..], t);
    }
  }

  // Zero orphans says nothing of the consumer's own pending entries: the count skips its name.
  lemma ZeroOrphans(s: State, t: TermId, order: seq<Id>)
    requires Enabled(s, Reclaimed(t, order))
    ensures s.server.pel.Keys <= Elems(order) <==> OwnCollected(s, t)
  {
    if OwnCollected(s, t) {
      forall e | e in s.server.pel
        ensures e in Elems(order)
      {
        assert e in OwnedBy(s.server, s.terms[t].owner);
      }
    }
  }

  ghost predicate Started(s: State, t: TermId, order: seq<Id>) {
    t in s.terms && s.terms[t].phase != Collecting && order <= s.terms[t].sent + s.terms[t].toSend
  }

  lemma {:induction false} StartedRun(s: State, steps: seq<Step>, t: TermId, order: seq<Id>)
    requires IsRun(s, steps) && Started(s, t, order)
    ensures Started(After(s, steps), t, order)
    decreases |steps|
  {
    if steps != [] {
      var s' := Apply(s, steps[0]);
      var tm, tm' := s.terms[t], s'.terms[t];
      if steps[0] == Send(t) {
        assert tm'.sent + tm'.toSend == tm.sent + tm.toSend;
      } else if steps[0].Read? && steps[0].t == t {
        assert tm.sent + [] == tm.sent;
      }
      StartedRun(s', steps[1..], t, order);
    }
  }

  // Reclaim completeness: for a name that starts its term owning nothing pending and
  // whose only claims are its term's own, every entry pending when the orphan count is
  // zero is collected.
  lemma ReclaimComplete(s: State, c: Name, t: TermId, collect: seq<Step>, order: seq<Id>)
    requires Enabled(s, BeginTerm(c, t)) && OwnedBy(s.server, c) == {}
    requires IsRun(Apply(s, BeginTerm(c, t)), collect)
    requires QuietRun(Apply(s, BeginTerm(c, t)), collect, t, c)
    requires Enabled(After(Apply(s, BeginTerm(c, t)), collect), Reclaimed(t, order))
    ensures After(Apply(s, BeginTerm(c, t)), collect).server.pel.Keys <= Elems(order)
  {
    var s0 := Apply(s, BeginTerm(c, t));
    CollectingRun(s0, collect, t);
    ZeroOrphans(After(s0, collect), t, order);
  }

  // Every reclaim of a term t that c begins now is complete: whatever happens until the orphan
  // count is zero, as long as nothing else becomes pending under c, all that is pending then has
  // been collected.
  ghost predicate AllReclaimsComplete(s: State, c: Name, t: TermId)
    requires Enabled(s, BeginTerm(c, t))
  {
    forall collect, order :: ReclaimsOver(Apply(s, BeginTerm(c, t)), c, t, collect, order) ==>
      After(Apply(s, BeginTerm(c, t)), collect).server.pel.Keys <= Elems(order)
  }

  ghost predicate ReclaimsOver(s: State, c: Name, t: TermId, collect: seq<Step>, order: seq<Id>) {
    IsRun(s, collect) && QuietRun(s, collect, t, c) && Enabled(After(s, collect), Reclaimed(t, order))
  }

  // Reclaiming is sure to be complete exactly when the name owns nothing pending as its term begins.
  lemma ReclaimCompleteIff(s: State, c: Name, t: TermId)
    requires Inv(s) && Enabled(s, BeginTerm(c, t))
    ensures AllReclaimsComplete(s, c, t) <==> OwnedBy(s.server, c) == {}
  {
    if OwnedBy(s.server, c) == {} {
      forall collect, order | ReclaimsOver(Apply(s, BeginTerm(c, t)), c, t, collect, order)
        ensures After(Apply(s, BeginTerm(c, t)), collect).server.pel.Keys <= Elems(order)
      {
        ReclaimComplete(s, c, t, collect, order);
      }
    } else {
      var e :| e in OwnedBy(s.server, c);
      var collect, order := MissesOwn(s, c, t);
    }
  }

  // A reclaim that misses what c owned: one claim of everything else, then a zero orphan count.
  lemma MissesOwn(s: State, c: Name, t: TermId) returns (collect: seq<Step>, order: seq<Id>)
    requires Inv(s) && Enabled(s, BeginTerm(c, t)) && OwnedBy(s.server, c) != {}
    ensures ReclaimsOver(Apply(s, BeginTerm(c, t)), c, t, collect, order)
    ensures !(After(Apply(s, BeginTerm(c, t)), collect).server.pel.Keys <= Elems(order))
  {
    var s0 := Apply(s, BeginTerm(c, t));
    var ids := s.server.pel.Keys - OwnedBy(s.server, c);
    var claim := Claim(t, ids);
    NotDoomedByOwning(s, c, t);
    assert Enabled(s0, claim);
    collect := [claim];
    order := InOrder(ids);
    assert [claim][1..] == [];
    var s1 := Apply(s0, claim);
    assert IsRun(s1, []) && After(s1, []) == s1 && QuietRun(s1, [], t, c);
    assert After(s0, collect) == s1;
    assert s1.terms[t].claimed == {} + ids;
    var e :| e in OwnedBy(s.server, c);
    assert e in s1.server.pel.Keys && e !in Elems(order);
  }

  lemma NotDoomedByOwning(s: State, c: Name, t: TermId)
    requires Inv(s) && Enabled(s, BeginTerm(c, t)) && OwnedBy(s.server, c) != {}
    ensures NotDoomed(Apply(s, BeginTerm(c, t)), c)
  {
    forall u | u in s.terms ensures c !in s.terms[u].doomed {
      assert TermOk(s.terms[u], s);
    }
  }

  // Any finite set of ids can be put in order.
  lemma {:induction false} InOrder(ids: set<Id>) returns (order: seq<Id>)
    ensures Ascending(order) && Elems(order) == ids
    decreases ids
  {
    if ids == {} {
      order := [];
    } else {
      var m := Largest(ids);
      var front := InOrder(ids - {m});
      order := front + [m];
      forall i | 0 <= i < |front| ensures front[i] < m {
        assert front[i] in Elems(front);
      }
      assert Elems(order) == Elems(front) + {m};
    }
  }

  lemma {:induction false} Largest(ids: set<Id>) returns (m: Id)
    requires ids != {}
    ensures m in ids && forall e :: e in ids ==> e <= m
    decreases ids
  {
    var x :| x in ids;
    m := x;
    if ids - {x} != {} {
      var n := Largest(ids - {x});
      m := if n >= x then n else x;
    }
    forall e | e in ids ensures e <= m {
      assert e == x || e in ids - {x};
    }
  }

  // What was collected is sent, in id order, before the term's first live read.
  lemma CollectedBeforeLive(history: set<Id>, top: Id, steps: seq<Step>, t: TermId, order: seq<Id>, serve: seq<Step>, batch: seq<Id>)
    requires forall e :: e in history ==> e <= top
    requires IsRun(Init(history, top), steps)
    requires Enabled(After(Init(history, top), steps), Reclaimed(t, order))
    requires IsRun(Apply(After(Init(history, top), steps), Reclaimed(t, order)), serve)
    requires Enabled(After(Apply(After(Init(history, top), steps), Reclaimed(t, order)), serve), Read(t, batch))
    ensures order <= After(Apply(After(Init(history, top), steps), Reclaimed(t, order)), serve).terms[t].sent
  {
    Reachable(history, top, steps);
    var s := After(Init(history, top), steps);
    assert TermOk(s.terms[t], s);
    var s1 := Apply(s, Reclaimed(t, order));
    assert [] + order == order;
    StartedRun(s1, serve, t, order);
    var tm := After(s1, serve).terms[t];
    assert tm.sent + [] == tm.sent;
  }

  // Consumer 0 has read entry 1 in term 0; the term then ended with the entry undelivered.
  const LED: Term := Term(0, Serving, {}, [1], [], [], [], 0, FRESH, [], {}, NoTrim, {})
  const BEFORE: State := State(Server({1}, {1}, 1, 0, map[]), map[0 := Proc(Begin(START, 0), Idle, true)], map[0 := LED.(toSend := [])], {}, {})
  const AFTERWARDS: State := State(Server({1}, {1}, 1, 1, map[1 := 0]), map[0 := Proc(End(Begin(START, 0), 0), Idle, true)], map[0 := LED.(phase := Stopped)], {}, {})

  lemma LeadOnce() returns (steps: seq<Step>)
    ensures IsRun(Init({}, 0), steps) && After(Init({}, 0), steps) == BEFORE
  {
    var s0 := Init({}, 0);
    steps := [];
    steps := RunSnoc(s0, steps, Join(0));
    steps := RunSnoc(s0, steps, BeginTerm(0, 0));
    assert Elems([]) == {};
    steps := RunSnoc(s0, steps, Reclaimed(0, []));
    steps := RunSnoc(s0, steps, Produce(1));
    assert After(s0, steps).server == BEFORE.server;
  }

  const READ: State := State(Server({1}, {1}, 1, 1, map[1 := 0]), map[0 := Proc(Begin(START, 0), Idle, true)], map[0 := LED], {}, {})

  lemma ReadStep()
    ensures Enabled(BEFORE, Read(0, [1])) && Apply(BEFORE, Read(0, [1])) == READ
  {
    assert IsNextBatch(BEFORE.server, [1]);
    assert 1 in [1];
    assert XReadGroup(BEFORE.server, 0, [1]) == READ.server;
  }

  lemma StopStep()
    ensures Enabled(READ, EndTerm(0)) && Apply(READ, EndTerm(0)) == AFTERWARDS
  {
  }

  lemma ReadAndStop(s0: State, first: seq<Step>) returns (steps: seq<Step>)
    requires IsRun(s0, first) && After(s0, first) == BEFORE
    ensures IsRun(s0, steps) && After(s0, steps) == AFTERWARDS
  {
    ReadStep();
    steps := RunSnoc(s0, first, Read(0, [1]));
    StopStep();
    steps := RunSnoc(s0, steps, EndTerm(0));
  }

  // Term 1 begins after that and finds no orphan.
  lemma LeadAgain()
    ensures Enabled(AFTERWARDS, BeginTerm(0, 1))
    ensures var s := Apply(AFTERWARDS, BeginTerm(0, 1)); Enabled(s, Reclaimed(1, [])) && s.server.pel.Keys == {1} && 1 !in s.done
  {
    assert Elems([]) == {};
  }

  // The condition can fail in a run: a consumer that leads again while an entry of its earlier
  // term is still pending under its own name counts no orphan and collects nothing.
  lemma OwnBacklogIsSkipped()
    ensures exists steps :: IsRun(Init({}, 0), steps) &&
              var s := After(Init({}, 0), steps);
              Enabled(s, Reclaimed(1, [])) && s.server.pel.Keys == {1} && 1 !in s.done
  {
    var steps := LeadOnce();
    steps := ReadAndStop(Init({}, 0), steps);
    LeadAgain();
    steps := RunSnoc(Init({}, 0), steps, BeginTerm(0, 1));
  }

  lemma {:induction false} RunSnoc(s: State, steps: seq<Step>, step: Step) returns (longer: seq<Step>)
    requires IsRun(s, steps) && Enabled(After(s, steps), step)
    ensures longer == steps + [step]
    ensures IsRun(s, longer) && After(s, longer) == Apply(After(s, steps), step)
    decreases |steps|
  {
    longer := steps + [step];
    if steps != [] {
      var tail := RunSnoc(Apply(s, steps[0]), steps[1..], step);
      assert longer[1..] == tail;
    } else {
      assert longer[1..] == [];
    }
  }

  // The rely of LeaderLoops is what the steps of everyone else amount to.
  lemma OthersKeepRely(s: State, step: Step, me: Name)
    requires Inv(s) && Enabled(s, step)
    requires (step.Claim? || step.Read?) ==> s.terms[step.t].owner != me
    requires (step.LostClaim? || step.LostRead?) ==> step.c != me
    ensures LeaderLoops.Rely(s.server, Apply(s, step).server, me)
  {
    StepKeepsInv(s, step);
    StepAdvances(s, step);
    forall e | e in OwnedBy(Apply(s, step).server, me)
      ensures e in OwnedBy(s.server, me)
    {
      if e !in OwnedBy(s.server, me) {
        WhoGains(s, step, me, e);
        assert false;
      }
    }
  }

  // And what the loops themselves do is what the steps of their term amount to. A page of claims:
  lemma ClaimIsStep(s: State, t: TermId, ids: set<Id>)
    requires LiveTerm(s, t) && s.terms[t].phase == Collecting && NotDoomed(s, s.terms[t].owner) && ids <= s.server.pel.Keys
    ensures Enabled(s, Claim(t, ids))
    ensures var s' := Apply(s, Claim(t, ids));
            s'.server == XAutoClaim(s.server, s.terms[t].owner, ids) && s'.terms[t].claimed == s.terms[t].claimed + ids
  {
  }

  // A zero orphan count, as LeaderLoops.OrphanedPending has it, and the sorted collection:
  lemma NoOrphansIsStep(s: State, t: TermId, order: seq<Id>)
    requires LiveTerm(s, t) && s.terms[t].phase == Collecting && Ascending(order) && Elems(order) == s.terms[t].claimed
    ensures Enabled(s, Reclaimed(t, order)) <==> s.server.pel.Keys == OwnedBy(s.server, s.terms[t].owner)
    ensures Enabled(s, Reclaimed(t, order)) ==>
              Apply(s, Reclaimed(t, order)).server == s.server && Apply(s, Reclaimed(t, order)).terms[t].toSend == order
  {
    if s.server.pel.Keys == OwnedBy(s.server, s.terms[t].owner) {
      forall e | e in s.server.pel ensures s.server.pel[e] == s.terms[t].owner {
        assert e in OwnedBy(s.server, s.terms[t].owner);
      }
    }
  }

  // A live read:
  lemma ReadIsStep(s: State, t: TermId, batch: seq<Id>)
    requires LiveTerm(s, t) && s.terms[t].phase == Serving && s.terms[t].toSend == [] && NotDoomed(s, s.terms[t].owner)
    ensures Enabled(s, Read(t, batch)) <==> IsNextBatch(s.server, batch)
    ensures Enabled(s, Read(t, batch)) ==>
              var s' := Apply(s, Read(t, batch)); s'.server == XReadGroup(s.server, s.terms[t].owner, batch) && s'.terms[t].toSend == batch
  {
  }

  // Delivering the next entry: it is put into the channel and then recorded with the acker.
  lemma DeliverIsSteps(s: State, t: TermId)
    requires LiveTerm(s, t) && s.terms[t].phase == Serving && s.terms[t].toSend != [] && s.terms[t].recorded == |s.terms[t].sent|
    ensures Enabled(s, Send(t)) && Enabled(Apply(s, Send(t)), Record(t))
    ensures var tm, tm' := s.terms[t], Apply(Apply(s, Send(t)), Record(t)).terms[t];
            && tm'.sent == tm.sent + [tm.toSend[0]] && tm'.toSend == tm.toSend[1..] && tm'.recorded == |tm'.sent|
            && tm'.ack == OnDeliver(tm.ack, tm.toSend[0])
  {
  }

  // The bounds of trimStream: the last-delivered id when nothing was pending at the first look,
  lemma GroupIsStep(s: State, t: TermId)
    requires LiveTerm(s, t) && s.terms[t].trim == NoTrim
    ensures Enabled(s, TrimInfo(t))
    ensures s.server.pel == map[] && s.server.delivered != 0 ==> s.server.delivered in Apply(s, TrimInfo(t)).bounds
    ensures s.server.pel != map[] ==> Apply(s, TrimInfo(t)).terms[t].trim == SawGroup(s.server.delivered)
  {
  }

  // or at the second,
  lemma NonePendingIsStep(s: State, t: TermId)
    requires LiveTerm(s, t) && s.terms[t].trim.SawGroup? && s.server.pel == map[] && s.terms[t].trim.delivered != 0
    ensures Enabled(s, TrimPending(t, 0)) && s.terms[t].trim.delivered in Apply(s, TrimPending(t, 0)).bounds
  {
  }

  // else the smallest pending id.
  lemma LowerIsStep(s: State, t: TermId, lower: Id)
    requires LiveTerm(s, t) && s.terms[t].trim.SawGroup? && IsMin(lower, s.server.pel.Keys) && lower != 0
    ensures Enabled(s, TrimPending(t, lower)) && lower in Apply(s, TrimPending(t, lower)).bounds
  {
  }

  // The trim itself comes at any time after.
  lemma TrimIsStep(s: State, m: Id)
    requires m in s.bounds
    ensures Enabled(s, TrimExec(m)) && Apply(s, TrimExec(m)).server == XTrimMinId(s.server, m)
  {
  }
}
