/** Every run of producers, consumers, their goroutines and the Redis server. */
module QueueProtocol {
  import opened Basics
  import opened Ids
  import opened Terms
  import opened AckerSpec
  import opened RedisStream

  datatype Phase = Collecting | Serving | Stopped

  // What the maintenance goroutine holds between XINFO GROUPS and XPENDING.
  datatype Trim = NoTrim | SawGroup(delivered: Id)

  // One leadership term. claimed: collected by the reclaim; toSend: what the reader still
  // has to deliver; chan: the delivery channel; sent and handed: everything put into the
  // channel and everything passed to the handler, in order; recorded: how many of sent
  // went through onDeliver; inflight: batches whose XACK has not returned; issued: every
  // id of an XACK ever sent; doomed: names the pruner is about to delete.
  datatype Term = Term(owner: Name, phase: Phase, claimed: set<Id>, toSend: seq<Id>, chan: seq<Id>,
                       sent: seq<Id>, handed: seq<Id>, recorded: nat, ack: Ack,
                       inflight: seq<seq<Id>>, issued: set<Id>, trim: Trim, doomed: set<Name>)

  // The one goroutine that loops on Subscribe.
  datatype Sub = Idle | Holding(term: Option<TermId>, wake: Wake) | Got(t: TermId, id: Id)

  datatype Proc = Proc(cell: Cell, sub: Sub, alive: bool)

  // done: entries whose processing has finished; bounds: the MINID of every XTRIM sent.
  datatype State = State(server: Server, procs: map<Name, Proc>, terms: map<TermId, Term>,
                         done: set<Id>, bounds: set<Id>)

  datatype Step =
    | Produce(id: Id)
    | Join(c: Name)
    | Crash(c: Name)
    | BeginTerm(c: Name, t: TermId)
    | EndTerm(t: TermId)
    | Claim(t: TermId, ids: set<Id>)
    | LostClaim(c: Name, ids: set<Id>)
    | Reclaimed(t: TermId, order: seq<Id>)
    | Read(t: TermId, batch: seq<Id>)
    | LostRead(c: Name, batch: seq<Id>)
    | Send(t: TermId)
    | Record(t: TermId)
    | Look(c: Name)
    | Wakeup(c: Name)
    | Receive(c: Name)
    | Hand(c: Name)
    | Drop(c: Name)
    | Finish(id: Id)
    | MarkId(t: TermId, id: Id)
    | FlushTake(t: TermId)
    | FlushOk(t: TermId, k: nat)
    | FlushFail(t: TermId, k: nat)
    | LateAck(t: TermId, ids: set<Id>)
    | TrimInfo(t: TermId)
    | TrimPending(t: TermId, lower: Id)
    | TrimGiveUp(t: TermId)
    | TrimExec(m: Id)
    | PruneScan(t: TermId, names: set<Name>)
    | PruneDel(t: TermId, name: Name)
    | PruneGiveUp(t: TermId)

  function Init(history: set<Id>, top: Id): State {
    State(Created(history, top), map[], map[], {}, {})
  }

  predicate Live(s: State, c: Name) {
    c in s.procs && s.procs[c].alive
  }

  predicate LiveTerm(s: State, t: TermId) {
    t in s.terms && Live(s, s.terms[t].owner)
  }

  // The one assumption on pruning: between the scan that lists a name and its removal,
  // that name neither reads nor claims.
  ghost predicate NotDoomed(s: State, c: Name) {
    forall t :: t in s.terms ==> c !in s.terms[t].doomed
  }

  ghost predicate WasHanded(s: State, id: Id) {
    exists t :: t in s.terms && id in s.terms[t].handed
  }

  // The contract of Mark: every id handed out in the term up to the marked one is done.
  ghost predicate MayMark(s: State, t: TermId, id: Id) {
    && t in s.terms
    && id in s.terms[t].handed
    && forall x :: x in s.terms[t].handed && x <= id ==> x in s.done
  }

  ghost predicate Enabled(s: State, step: Step) {
    match step
    case Produce(id) => id > s.server.top
    case Join(c) => c !in s.procs
    case Crash(c) => Live(s, c)
    case BeginTerm(c, t) => Live(s, c) && t !in s.terms
    case EndTerm(t) => LiveTerm(s, t) && s.terms[t].phase != Stopped
    case Claim(t, ids) =>
      && LiveTerm(s, t) && s.terms[t].phase == Collecting
      && ids <= s.server.pel.Keys && NotDoomed(s, s.terms[t].owner)
    case LostClaim(c, ids) => ids <= s.server.pel.Keys && NotDoomed(s, c)
    case Reclaimed(t, order) =>
      && LiveTerm(s, t) && s.terms[t].phase == Collecting
      && (forall e :: e in s.server.pel ==> s.server.pel[e] == s.terms[t].owner)
      && Ascending(order) && Elems(order) == s.terms[t].claimed
    case Read(t, batch) =>
      && LiveTerm(s, t) && s.terms[t].phase == Serving && s.terms[t].toSend == []
      && IsNextBatch(s.server, batch) && NotDoomed(s, s.terms[t].owner)
    case LostRead(c, batch) => IsNextBatch(s.server, batch) && NotDoomed(s, c)
    case Send(t) =>
      && LiveTerm(s, t) && s.terms[t].phase == Serving
      && s.terms[t].toSend != [] && s.terms[t].recorded == |s.terms[t].sent|
    case Record(t) => LiveTerm(s, t) && s.terms[t].recorded < |s.terms[t].sent|
    case Look(c) => Live(s, c) && s.procs[c].sub == Idle
    case Wakeup(c) =>
      Live(s, c) && s.procs[c].sub.Holding? && s.procs[c].sub.wake in s.procs[c].cell.closed
    case Receive(c) =>
      && Live(s, c) && s.procs[c].sub.Holding? && s.procs[c].sub.term.Some?
      && var t := s.procs[c].sub.term.value; t in s.terms && s.terms[t].chan != []
    case Hand(c) =>
      Live(s, c) && s.procs[c].sub.Got? && s.procs[c].cell.term == Some(s.procs[c].sub.t)
      && s.procs[c].sub.t in s.terms
    case Drop(c) =>
      Live(s, c) && s.procs[c].sub.Got? && s.procs[c].cell.term != Some(s.procs[c].sub.t)
    case Finish(id) => WasHanded(s, id)
    case MarkId(t, id) => LiveTerm(s, t) && MayMark(s, t, id)
    case FlushTake(t) => LiveTerm(s, t) && Batch(s.terms[t].ack) != []
    case FlushOk(t, k) => LiveTerm(s, t) && k < |s.terms[t].inflight|
    case FlushFail(t, k) => LiveTerm(s, t) && k < |s.terms[t].inflight|
    case LateAck(t, ids) => t in s.terms && ids <= s.terms[t].issued
    case TrimInfo(t) => LiveTerm(s, t) && s.terms[t].trim == NoTrim
    case TrimPending(t, lower) =>
      && LiveTerm(s, t) && s.terms[t].trim.SawGroup?
      && (s.server.pel == map[] || IsMin(lower, s.server.pel.Keys))
    case TrimGiveUp(t) => t in s.terms
    case TrimExec(m) => m in s.bounds
    case PruneScan(t, names) =>
      && LiveTerm(s, t) && s.terms[t].owner !in names
      && forall n :: n in names ==> OwnedBy(s.server, n) == {}
    case PruneDel(t, name) => t in s.terms && name in s.terms[t].doomed
    case PruneGiveUp(t) => t in s.terms
  }

  function SetTerm(s: State, t: TermId, tm: Term): State {
    s.(terms := s.terms[t := tm])
  }

  function SetProc(s: State, c: Name, p: Proc): State {
    s.(procs := s.procs[c := p])
  }

  // "0-0" is the id of an empty stream; trimming at it is skipped.
  function AddBound(s: State, m: Id): State {
    if m == 0 then s else s.(bounds := s.bounds + {m})
  }

  // The command a step makes the server execute, if any.
  ghost function Serve(s: State, step: Step): Server
    requires Enabled(s, step)
  {
    match step
    case Produce(id) => XAdd(s.server, id)
    case Claim(t, ids) => XAutoClaim(s.server, s.terms[t].owner, ids)
    case LostClaim(c, ids) => XAutoClaim(s.server, c, ids)
    case Read(t, batch) => XReadGroup(s.server, s.terms[t].owner, batch)
    case LostRead(c, batch) => XReadGroup(s.server, c, batch)
    case FlushOk(t, k) => XAck(s.server, Elems(s.terms[t].inflight[k]))
    case LateAck(t, ids) => XAck(s.server, ids)
    case TrimExec(m) => XTrimMinId(s.server, m)
    case PruneDel(t, name) => XGroupDelConsumer(s.server, name)
    case _ => s.server
  }

  // What a step changes outside the server.
  ghost function Local(s: State, step: Step): State
    requires Enabled(s, step)
  {
    match step
    case Join(c) => SetProc(s, c, Proc(START, Idle, true))
    case Crash(c) => SetProc(s, c, s.procs[c].(alive := false))
    case BeginTerm(c, t) =>
      var started := Term(c, Collecting, {}, [], [], [], [], 0, FRESH, [], {}, NoTrim, {});
      SetProc(SetTerm(s, t, started), c, s.procs[c].(cell := Begin(s.procs[c].cell, t)))
    case EndTerm(t) =>
      var tm := s.terms[t];
      var p := s.procs[tm.owner];
      SetProc(SetTerm(s, t, tm.(phase := Stopped)), tm.owner, p.(cell := End(p.cell, t)))
    case Claim(t, ids) => SetTerm(s, t, s.terms[t].(claimed := s.terms[t].claimed + ids))
    case Reclaimed(t, order) => SetTerm(s, t, s.terms[t].(phase := Serving, toSend := order))
    case Read(t, batch) => SetTerm(s, t, s.terms[t].(toSend := batch))
    case Send(t) =>
      var tm := s.terms[t];
      SetTerm(s, t, tm.(toSend := tm.toSend[1..], sent := tm.sent + [tm.toSend[0]], chan := tm.chan + [tm.toSend[0]]))
    case Record(t) =>
      var tm := s.terms[t];
      SetTerm(s, t, tm.(recorded := tm.recorded + 1, ack := OnDeliver(tm.ack, tm.sent[tm.recorded])))
    case Look(c) => var p := s.procs[c]; SetProc(s, c, p.(sub := Holding(p.cell.term, p.cell.wake)))
    case Wakeup(c) => SetProc(s, c, s.procs[c].(sub := Idle))
    case Receive(c) =>
      var t := s.procs[c].sub.term.value;
      var tm := s.terms[t];
      SetProc(SetTerm(s, t, tm.(chan := tm.chan[1..])), c, s.procs[c].(sub := Got(t, tm.chan[0])))
    case Hand(c) =>
      var Got(t, id) := s.procs[c].sub;
      SetProc(SetTerm(s, t, s.terms[t].(handed := s.terms[t].handed + [id])), c, s.procs[c].(sub := Idle))
    case Drop(c) => SetProc(s, c, s.procs[c].(sub := Idle))
    case Finish(id) => s.(done := s.done + {id})
    case MarkId(t, id) => SetTerm(s, t, s.terms[t].(ack := Mark(s.terms[t].ack, id)))
    case FlushTake(t) =>
      var tm := s.terms[t];
      var batch := Batch(tm.ack);
      SetTerm(s, t, tm.(ack := AfterTake(tm.ack), inflight := tm.inflight + [batch], issued := tm.issued + Elems(batch)))
    case FlushOk(t, k) => SetTerm(s, t, s.terms[t].(inflight := Without(s.terms[t].inflight, k)))
    case FlushFail(t, k) =>
      var tm := s.terms[t];
      SetTerm(s, t, tm.(ack := Requeue(tm.ack, tm.inflight[k]), inflight := Without(tm.inflight, k)))
    case TrimInfo(t) =>
      if s.server.pel == map[] then AddBound(s, s.server.delivered)
      else SetTerm(s, t, s.terms[t].(trim := SawGroup(s.server.delivered)))
    case TrimPending(t, lower) =>
      var m := if s.server.pel == map[] then s.terms[t].trim.delivered else lower;
      AddBound(SetTerm(s, t, s.terms[t].(trim := NoTrim)), m)
    case TrimGiveUp(t) => SetTerm(s, t, s.terms[t].(trim := NoTrim))
    case PruneScan(t, names) => SetTerm(s, t, s.terms[t].(doomed := names))
    case PruneDel(t, name) => SetTerm(s, t, s.terms[t].(doomed := s.terms[t].doomed - {name}))
    case PruneGiveUp(t) => SetTerm(s, t, s.terms[t].(doomed := {}))
    case _ => s
  }

  ghost function Apply(s: State, step: Step): State
    requires Enabled(s, step)
  {
    Local(s, step).(server := Serve(s, step))
  }

  ghost predicate IsRun(s: State, steps: seq<Step>)
    decreases |steps|
  {
    steps == [] || (Enabled(s, steps[0]) && IsRun(Apply(s, steps[0]), steps[1..]))
  }

  ghost function After(s: State, steps: seq<Step>): State
    requires IsRun(s, steps)
    decreases |steps|
  {
    if steps == [] then s else After(Apply(s, steps[0]), steps[1..])
  }
}
