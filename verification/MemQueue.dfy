/** The stop protocol of the in-memory queue (mq/memamq/queue.go). */
module MemQueueSpec {
  type CallId = nat

  // The index-th task of push call p; single pushes have one task.
  datatype Job = Job(call: CallId, index: nat)

  // The fields of MemoryQueue; buffer and closed are the channel.
  datatype Queue = Queue(capacity: nat, buffer: seq<Job>, closed: bool, isStopped: bool, count: int)

  datatype Result = Accepted | ErrStop | GaveUp

  // A push call of size tasks, of which sent are in the channel. Counted: count was
  // raised; Sending: the stopped check was passed; Leaving: count is about to be lowered.
  datatype Push =
    | Counted(size: nat, sent: nat)
    | Sending(size: nat, sent: nat)
    | Leaving(size: nat, sent: nat, result: Result)
    | Left(size: nat, sent: nat, result: Result)

  // A Stop call: Lost the compare-and-swap, or polls count, then closes, then waits for
  // the workers.
  datatype Stop = Lost | Polling | SawZero | Closed | Returned

  datatype Worker = Ready | Running(job: Job) | Exited

  // finished: jobs whose function has returned, in that order.
  datatype State = State(q: Queue, pushes: map<CallId, Push>, stops: map<CallId, Stop>, workers: seq<Worker>, finished: seq<Job>)

  datatype Step =
    | Enter(p: CallId, size: nat)
    | Check(p: CallId)
    | Send(p: CallId)
    | AllSent(p: CallId)
    | GiveUp(p: CallId)
    | Leave(p: CallId)
    | Swap(c: CallId)
    | SeeZero(c: CallId)
    | Close(c: CallId)
    | Return(c: CallId)
    | Take(w: nat)
    | Finish(w: nat)
    | Exit(w: nat)

  function Init(workerCount: nat, bufferSize: nat): State {
    State(Queue(bufferSize, [], false, false, 0), map[], map[], seq(workerCount, _ => Ready), [])
  }

  predicate Enabled(s: State, step: Step) {
    match step
    case Enter(p, size) => p !in s.pushes
    case Check(p) => p in s.pushes && s.pushes[p].Counted?
    // the send case of the select; on a closed channel it would panic, see NoSendAfterClose
    case Send(p) =>
      && p in s.pushes && s.pushes[p].Sending? && s.pushes[p].sent < s.pushes[p].size
      && (|s.q.buffer| < s.q.capacity || s.q.closed)
    case AllSent(p) => p in s.pushes && s.pushes[p].Sending? && s.pushes[p].sent == s.pushes[p].size
    case GiveUp(p) => p in s.pushes && s.pushes[p].Sending? && s.pushes[p].sent < s.pushes[p].size
    case Leave(p) => p in s.pushes && s.pushes[p].Leaving?
    case Swap(c) => c !in s.stops
    case SeeZero(c) => c in s.stops && s.stops[c].Polling? && s.q.count == 0
    case Close(c) => c in s.stops && s.stops[c].SawZero?
    case Return(c) => c in s.stops && s.stops[c].Closed? && forall w :: w in s.workers ==> w.Exited?
    case Take(w) => w < |s.workers| && s.workers[w].Ready? && s.q.buffer != []
    case Finish(w) => w < |s.workers| && s.workers[w].Running?
    case Exit(w) => w < |s.workers| && s.workers[w].Ready? && s.q.closed && s.q.buffer == []
  }

  function Apply(s: State, step: Step): State
    requires Enabled(s, step)
  {
    var q := s.q;
    match step
    case Enter(p, size) => s.(q := q.(count := q.count + 1), pushes := s.pushes[p := Counted(size, 0)])
    case Check(p) =>
      var size := s.pushes[p].size;
      s.(pushes := s.pushes[p := if q.isStopped then Leaving(size, 0, ErrStop) else Sending(size, 0)])
    case Send(p) =>
      var c := s.pushes[p];
      s.(q := q.(buffer := q.buffer + [Job(p, c.sent)]), pushes := s.pushes[p := Sending(c.size, c.sent + 1)])
    case AllSent(p) => s.(pushes := s.pushes[p := Leaving(s.pushes[p].size, s.pushes[p].sent, Accepted)])
    case GiveUp(p) => s.(pushes := s.pushes[p := Leaving(s.pushes[p].size, s.pushes[p].sent, GaveUp)])
    case Leave(p) =>
      var c := s.pushes[p];
      s.(q := q.(count := q.count - 1), pushes := s.pushes[p := Left(c.size, c.sent, c.result)])
    case Swap(c) => s.(q := q.(isStopped := true), stops := s.stops[c := if q.isStopped then Lost else Polling])
    case SeeZero(c) => s.(stops := s.stops[c := SawZero])
    case Close(c) => s.(q := q.(closed := true), stops := s.stops[c := Closed])
    case Return(c) => s.(stops := s.stops[c := Returned])
    case Take(w) => s.(q := q.(buffer := q.buffer[1..]), workers := s.workers[w := Running(q.buffer[0])])
    case Finish(w) => s.(workers := s.workers[w := Ready], finished := s.finished + [s.workers[w].job])
    case Exit(w) => s.(workers := s.workers[w := Exited])
  }

  predicate IsRun(s: State, steps: seq<Step>)
    decreases |steps|
  {
    steps == [] || (Enabled(s, steps[0]) && IsRun(Apply(s, steps[0]), steps[1..]))
  }

  function After(s: State, steps: seq<Step>): State
    requires IsRun(s, steps)
    decreases |steps|
  {
    if steps == [] then s else After(Apply(s, steps[0]), steps[1..])
  }

  // The push calls between their two updates of count.
  function Inside(pushes: map<CallId, Push>): set<CallId> {
    set p | p in pushes && !pushes[p].Left?
  }

  function RunningJobs(workers: seq<Worker>): multiset<Job> {
    RunningFirst(workers, |workers|)
  }

  function RunningFirst(workers: seq<Worker>, n: nat): multiset<Job>
    requires n <= |workers|
  {
    if n == 0 then multiset{} else RunningFirst(workers, n - 1) + JobOf(workers[n - 1])
  }

  function JobOf(w: Worker): multiset<Job> {
    if w.Running? then multiset{w.job} else multiset{}
  }

  // How often j is running.
  function RunningIn(workers: seq<Worker>, n: nat, j: Job): nat
    requires n <= |workers|
  {
    if n == 0 then 0 else RunningIn(workers, n - 1, j) + JobOf(workers[n - 1])[j]
  }

  lemma {:induction false} RunningCounts(workers: seq<Worker>, n: nat, j: Job)
    requires n <= |workers|
    ensures RunningFirst(workers, n)[j] == RunningIn(workers, n, j)
  {
    if n > 0 {
      RunningCounts(workers, n - 1, j);
    }
  }

  lemma {:induction false} RunningBefore(workers: seq<Worker>, w: nat, v: Worker, n: nat, j: Job)
    requires n <= w < |workers|
    ensures RunningIn(workers[w := v], n, j) == RunningIn(workers, n, j)
  {
    if n > 0 {
      RunningBefore(workers, w, v, n - 1, j);
    }
  }

  lemma {:induction false} RunningAround(workers: seq<Worker>, w: nat, v: Worker, n: nat, j: Job)
    requires w < n <= |workers|
    ensures RunningIn(workers[w := v], n, j) + JobOf(workers[w])[j] == RunningIn(workers, n, j) + JobOf(v)[j]
  {
    if w == n - 1 {
      RunningBefore(workers, w, v, w, j);
    } else {
      RunningAround(workers, w, v, n - 1, j);
    }
  }

  lemma RunningUpdate(workers: seq<Worker>, w: nat, v: Worker, j: Job)
    requires w < |workers|
    ensures RunningJobs(workers[w := v])[j] + JobOf(workers[w])[j] == RunningJobs(workers)[j] + JobOf(v)[j]
  {
    RunningCounts(workers[w := v], |workers|, j);
    RunningCounts(workers, |workers|, j);
    RunningAround(workers, w, v, |workers|, j);
  }

  lemma {:induction false} NothingRunsFirst(workers: seq<Worker>, n: nat)
    requires n <= |workers| && forall w :: w in workers ==> !w.Running?
    ensures RunningFirst(workers, n) == multiset{}
  {
    if n > 0 {
      NothingRunsFirst(workers, n - 1);
      assert workers[n - 1] in workers;
    }
  }

  lemma NothingRuns(workers: seq<Worker>)
    requires forall w :: w in workers ==> !w.Running?
    ensures RunningJobs(workers) == multiset{}
  {
    NothingRunsFirst(workers, |workers|);
  }

  ghost function Jobs(s: State): multiset<Job> {
    multiset(s.q.buffer) + RunningJobs(s.workers) + multiset(s.finished)
  }

  predicate WasSent(pushes: map<CallId, Push>, j: Job) {
    j.call in pushes && j.index < pushes[j.call].sent
  }

  // Every job a push call put into the channel is, exactly once, buffered, running or
  // finished, and there is no other job anywhere.
  ghost predicate Conserved(s: State) {
    forall j: Job :: Jobs(s)[j] == if WasSent(s.pushes, j) then 1 else 0
  }

  // The stopper whose compare-and-swap succeeded.
  predicate Won(stops: map<CallId, Stop>, c: CallId) {
    c in stops && !stops[c].Lost?
  }

  predicate PastZero(stops: map<CallId, Stop>, c: CallId) {
    c in stops && (stops[c].SawZero? || stops[c].Closed? || stops[c].Returned?)
  }

  predicate HasClosed(stops: map<CallId, Stop>, c: CallId) {
    c in stops && (stops[c].Closed? || stops[c].Returned?)
  }

  ghost predicate StopsOk(q: Queue, stops: map<CallId, Stop>) {
    && (q.isStopped <==> exists c :: Won(stops, c))
    && (forall c, d :: Won(stops, c) && Won(stops, d) ==> c == d)
    && (q.closed <==> exists c :: HasClosed(stops, c))
  }

  // Once somebody has seen the count at zero after stopping, nobody is past the check.
  ghost predicate NoSenders(stops: map<CallId, Stop>, pushes: map<CallId, Push>) {
    forall c, p :: PastZero(stops, c) && p in pushes ==> !pushes[p].Sending?
  }

  ghost predicate WorkersOk(s: State) {
    && (forall w :: w in s.workers && w.Exited? ==> s.q.closed && s.q.buffer == [])
    && (forall c :: c in s.stops && s.stops[c].Returned? ==> forall w :: w in s.workers ==> w.Exited?)
  }

  ghost predicate Inv(s: State) {
    && s.q.count == |Inside(s.pushes)|
    && StopsOk(s.q, s.stops)
    && NoSenders(s.stops, s.pushes)
    && WorkersOk(s)
    && (forall p :: p in s.pushes && s.pushes[p].Counted? ==> s.pushes[p].sent == 0)
    && Conserved(s)
  }

  lemma SendIsOpen(s: State, p: CallId)
    requires StopsOk(s.q, s.stops) && NoSenders(s.stops, s.pushes) && p in s.pushes && s.pushes[p].Sending?
    ensures !s.q.closed
  {
    if s.q.closed {
      var c :| HasClosed(s.stops, c);
      assert PastZero(s.stops, c);
    }
  }

  // A swap wins exactly when no other call has.
  lemma OneWinner(s: State, c: CallId)
    requires StopsOk(s.q, s.stops) && Enabled(s, Swap(c))
    ensures !s.q.isStopped <==> forall d :: d != c ==> !Won(Apply(s, Swap(c)).stops, d)
  {
    forall d | d != c ensures Won(Apply(s, Swap(c)).stops, d) <==> Won(s.stops, d) {}
    if s.q.isStopped {
      var d :| Won(s.stops, d);
      assert d != c && Won(Apply(s, Swap(c)).stops, d);
    }
  }

  lemma CloseIsOnce(s: State, c: CallId)
    requires StopsOk(s.q, s.stops) && c in s.stops && s.stops[c].SawZero?
    ensures !s.q.closed
  {
    if s.q.closed {
      var d :| HasClosed(s.stops, d);
      assert Won(s.stops, d) && Won(s.stops, c);
    }
  }

  lemma SendKeepsJobs(s: State, p: CallId)
    requires Conserved(s) && Enabled(s, Send(p))
    ensures Conserved(Apply(s, Send(p)))
  {
    var s' := Apply(s, Send(p));
    var sent := Job(p, s.pushes[p].sent);
    forall j: Job ensures Jobs(s')[j] == if WasSent(s'.pushes, j) then 1 else 0 {
      SentJob(s, p, j);
    }
  }

  lemma SentJob(s: State, p: CallId, j: Job)
    requires Enabled(s, Send(p))
    ensures var s', sent := Apply(s, Send(p)), Job(p, s.pushes[p].sent);
            && Jobs(s')[j] == Jobs(s)[j] + (if j == sent then 1 else 0)
            && (WasSent(s'.pushes, j) <==> WasSent(s.pushes, j) || j == sent)
            && !WasSent(s.pushes, sent)
  {
    assert Apply(s, Send(p)).q.buffer == s.q.buffer + [Job(p, s.pushes[p].sent)];
  }

  lemma TakeKeepsJob(s: State, w: nat, j: Job)
    requires Enabled(s, Take(w))
    ensures Jobs(Apply(s, Take(w)))[j] == Jobs(s)[j]
  {
    var first, rest := s.q.buffer[0], s.q.buffer[1..];
    assert s.q.buffer == [first] + rest;
    assert multiset(s.q.buffer)[j] == multiset{first}[j] + multiset(rest)[j];
    RunningUpdate(s.workers, w, Running(first), j);
  }

  lemma FinishKeepsJob(s: State, w: nat, j: Job)
    requires Enabled(s, Finish(w))
    ensures Jobs(Apply(s, Finish(w)))[j] == Jobs(s)[j]
  {
    RunningUpdate(s.workers, w, Ready, j);
  }

  lemma WorkKeepsJobs(s: State, step: Step)
    requires Enabled(s, step) && (step.Take? || step.Finish? || step.Exit?)
    ensures forall j: Job :: Jobs(Apply(s, step))[j] == Jobs(s)[j]
  {
    forall j: Job
      ensures Jobs(Apply(s, step))[j] == Jobs(s)[j]
    {
      match step
      case Take(w) => TakeKeepsJob(s, w, j);
      case Finish(w) => FinishKeepsJob(s, w, j);
      case Exit(w) => RunningUpdate(s.workers, w, Exited, j);
    }
  }

  lemma OthersKeepJobs(s: State, step: Step)
    requires Enabled(s, step) && !step.Send? && !step.Take? && !step.Finish? && !step.Exit?
    ensures Jobs(Apply(s, step)) == Jobs(s)
  {
    var s' := Apply(s, step);
    assert s'.q.buffer == s.q.buffer && s'.workers == s.workers && s'.finished == s.finished;
  }

  lemma OthersKeepSent(s: State, step: Step, j: Job)
    requires Enabled(s, step) && !step.Send? && !step.Take? && !step.Finish? && !step.Exit?
    requires forall p :: p in s.pushes && s.pushes[p].Counted? ==> s.pushes[p].sent == 0
    ensures WasSent(Apply(s, step).pushes, j) <==> WasSent(s.pushes, j)
  {
  }

  lemma StepKeepsJobs(s: State, step: Step)
    requires Conserved(s) && Enabled(s, step)
    requires forall p :: p in s.pushes && s.pushes[p].Counted? ==> s.pushes[p].sent == 0
    ensures Conserved(Apply(s, step))
  {
    if step.Send? {
      SendKeepsJobs(s, step.p);
    } else if step.Take? || step.Finish? || step.Exit? {
      WorkKeepsJobs(s, step);
      assert Apply(s, step).pushes == s.pushes;
    } else {
      OthersKeepJobs(s, step);
      forall j: Job
        ensures WasSent(Apply(s, step).pushes, j) <==> WasSent(s.pushes, j)
      {
        OthersKeepSent(s, step, j);
      }
    }
  }

  lemma InsideAfter(pushes: map<CallId, Push>, p: CallId, v: Push)
    ensures Inside(pushes[p := v]) == if v.Left? then Inside(pushes) - {p} else Inside(pushes) + {p}
  {
  }

  lemma StepKeepsCount(s: State, step: Step)
    requires s.q.count == |Inside(s.pushes)| && Enabled(s, step)
    ensures Apply(s, step).q.count == |Inside(Apply(s, step).pushes)|
  {
    var s' := Apply(s, step);
    if step.Enter? || step.Check? || step.Send? || step.AllSent? || step.GiveUp? || step.Leave? {
      InsideAfter(s.pushes, step.p, s'.pushes[step.p]);
      if !step.Enter? {
        assert step.p in Inside(s.pushes);
        assert Inside(s.pushes) + {step.p} == Inside(s.pushes);
      }
    }
  }

  lemma StepKeepsStops(s: State, step: Step)
    requires StopsOk(s.q, s.stops) && Enabled(s, step)
    ensures StopsOk(Apply(s, step).q, Apply(s, step).stops)
  {
    var s' := Apply(s, step);
    if step.Swap? || step.SeeZero? || step.Close? || step.Return? {
      assert forall d :: d != step.c ==> (Won(s'.stops, d) <==> Won(s.stops, d)) && (HasClosed(s'.stops, d) <==> HasClosed(s.stops, d));
      if step.Swap? {
        assert Won(s'.stops, step.c) <==> !s.q.isStopped;
        if d :| Won(s.stops, d) {
          assert Won(s'.stops, d);
        }
      } else {
        assert Won(s'.stops, step.c) && Won(s.stops, step.c);
      }
      if d :| HasClosed(s.stops, d) {
        assert HasClosed(s'.stops, d);
      }
      assert HasClosed(s'.stops, step.c) <==> step.Close? || step.Return?;
      assert HasClosed(s.stops, step.c) <==> step.Return?;
    }
  }

  // The heart of the protocol: a push that passed the check before the stop is counted
  // until it leaves, and one that comes later fails the check.
  lemma StepKeepsSenders(s: State, step: Step)
    requires Inv(s) && Enabled(s, step)
    ensures NoSenders(Apply(s, step).stops, Apply(s, step).pushes)
  {
    var s' := Apply(s, step);
    forall c, p | PastZero(s'.stops, c) && p in s'.pushes
      ensures !s'.pushes[p].Sending?
    {
      if step == SeeZero(c) {
        assert p in Inside(s.pushes) ==> |Inside(s.pushes)| > 0;
      } else if PastZero(s.stops, c) {
        assert Won(s.stops, c);
      }
    }
  }

  lemma StepKeepsWorkers(s: State, step: Step)
    requires Inv(s) && Enabled(s, step)
    ensures WorkersOk(Apply(s, step))
  {
    var s' := Apply(s, step);
    if step.Send? {
      SendIsOpen(s, step.p);
    }
    forall w | w in s'.workers && w.Exited?
      ensures s'.q.closed && s'.q.buffer == []
    {
      assert w in s.workers || step.Exit?;
    }
    if step.Take? || step.Finish? || step.Exit? {
      assert s.workers[step.w] in s.workers;
    }
  }

  lemma StepKeepsInv(s: State, step: Step)
    requires Inv(s) && Enabled(s, step)
    ensures Inv(Apply(s, step))
  {
    StepKeepsCount(s, step);
    StepKeepsStops(s, step);
    StepKeepsSenders(s, step);
    StepKeepsWorkers(s, step);
    StepKeepsJobs(s, step);
  }

  lemma InitOk(workerCount: nat, bufferSize: nat)
    ensures Inv(Init(workerCount, bufferSize))
  {
    var s := Init(workerCount, bufferSize);
    NothingRuns(s.workers);
    assert Inside(s.pushes) == {};
  }

  lemma {:induction false} RunKeepsInv(s: State, steps: seq<Step>)
    requires Inv(s) && IsRun(s, steps)
    ensures Inv(After(s, steps))
    decreases |steps|
  {
    if steps != [] {
      StepKeepsInv(s, steps[0]);
      RunKeepsInv(Apply(s, steps[0]), steps[1..]);
    }
  }

  // In no run is anything sent on the closed channel, the channel is closed only once,
  // and count is the number of push calls inside.
  lemma NoSendAfterClose(workerCount: nat, bufferSize: nat, steps: seq<Step>)
    requires IsRun(Init(workerCount, bufferSize), steps)
    ensures var s := After(Init(workerCount, bufferSize), steps);
            && s.q.count == |Inside(s.pushes)|
            && (forall p :: Enabled(s, Send(p)) ==> !s.q.closed)
            && (forall c :: Enabled(s, Close(c)) ==> !s.q.closed)
  {
    InitOk(workerCount, bufferSize);
    RunKeepsInv(Init(workerCount, bufferSize), steps);
    var s := After(Init(workerCount, bufferSize), steps);
    forall p | Enabled(s, Send(p))
      ensures !s.q.closed
    {
      SendIsOpen(s, p);
    }
    forall c | Enabled(s, Close(c))
      ensures !s.q.closed
    {
      CloseIsOnce(s, c);
    }
  }

  // When the Stop that won returns, every job accepted by any push call has finished,
  // exactly once, and none is left anywhere.
  lemma StopDrains(workerCount: nat, bufferSize: nat, steps: seq<Step>, c: CallId)
    requires workerCount > 0
    requires IsRun(Init(workerCount, bufferSize), steps)
    requires var s := After(Init(workerCount, bufferSize), steps); c in s.stops && s.stops[c].Returned?
    ensures var s := After(Init(workerCount, bufferSize), steps);
            && s.q.buffer == []
            && (forall j: Job :: multiset(s.finished)[j] == if WasSent(s.pushes, j) then 1 else 0)
            && (forall p :: p in s.pushes ==> !s.pushes[p].Sending?)
  {
    InitOk(workerCount, bufferSize);
    RunKeepsInv(Init(workerCount, bufferSize), steps);
    WorkerCountStays(Init(workerCount, bufferSize), steps);
    var s := After(Init(workerCount, bufferSize), steps);
    assert s.workers[0] in s.workers;
    NothingRuns(s.workers);
    assert PastZero(s.stops, c);
    assert Jobs(s) == multiset(s.finished);
  }

  lemma {:induction false} WorkerCountStays(s: State, steps: seq<Step>)
    requires IsRun(s, steps)
    ensures |After(s, steps).workers| == |s.workers|
    decreases |steps|
  {
    if steps != [] {
      WorkerCountStays(Apply(s, steps[0]), steps[1..]);
    }
  }

  // Whose step it is.
  datatype Who = Pusher(p: CallId) | Stopper(c: CallId) | WorkerNo(w: nat)

  function By(step: Step): Who {
    match step
    case Enter(p, _) => Pusher(p)
    case Check(p) => Pusher(p)
    case Send(p) => Pusher(p)
    case AllSent(p) => Pusher(p)
    case GiveUp(p) => Pusher(p)
    case Leave(p) => Pusher(p)
    case Swap(c) => Stopper(c)
    case SeeZero(c) => Stopper(c)
    case Close(c) => Stopper(c)
    case Return(c) => Stopper(c)
    case Take(w) => WorkerNo(w)
    case Finish(w) => WorkerNo(w)
    case Exit(w) => WorkerNo(w)
  }

  // The steps that who took, in order.
  function Own(steps: seq<Step>, who: Who): seq<Step> {
    if steps == [] then []
    else
      var n := |steps| - 1;
      Own(steps[..n], who) + if By(steps[n]) == who then [steps[n]] else []
  }

  lemma {:induction false} RunSnoc(s: State, steps: seq<Step>, step: Step)
    requires IsRun(s, steps) && Enabled(After(s, steps), step)
    ensures IsRun(s, steps + [step]) && After(s, steps + [step]) == Apply(After(s, steps), step)
    decreases |steps|
  {
    if steps == [] {
      assert (steps + [step])[1..] == [];
    } else {
      assert (steps + [step])[1..] == steps[1..] + [step];
      RunSnoc(Apply(s, steps[0]), steps[1..], step);
    }
  }

  function Sends(call: CallId, n: nat): seq<Step> {
    if n == 0 then [] else Sends(call, n - 1) + [Send(call)]
  }

  // The steps a push call has taken when this is its record.
  function PushSteps(p: CallId, c: Push): seq<Step> {
    match c
    case Counted(size, _) => [Enter(p, size)]
    case Sending(size, sent) => [Enter(p, size), Check(p)] + Sends(p, sent)
    case Leaving(size, sent, r) => [Enter(p, size), Check(p)] + Sends(p, sent) + Verdict(p, r)
    case Left(size, sent, r) => [Enter(p, size), Check(p)] + Sends(p, sent) + Verdict(p, r) + [Leave(p)]
  }

  function Verdict(p: CallId, r: Result): seq<Step> {
    match r
    case Accepted => [AllSent(p)]
    case GaveUp => [GiveUp(p)]
    case ErrStop => []
  }

  function StopSteps(c: CallId, stop: Stop): seq<Step> {
    match stop
    case Lost => [Swap(c)]
    case Polling => [Swap(c)]
    case SawZero => [Swap(c), SeeZero(c)]
    case Closed => [Swap(c), SeeZero(c), Close(c)]
    case Returned => [Swap(c), SeeZero(c), Close(c), Return(c)]
  }

  // In every run, whatever the others do in between, the steps of a push call and of a Stop call are
  // in the order of the code: the record tells them all.
  lemma {:induction false} OwnSteps(s: State, steps: seq<Step>, call: CallId)
    requires Inv(s) && s.pushes == map[] && s.stops == map[] && IsRun(s, steps)
    ensures var e := After(s, steps);
            && Own(steps, Pusher(call)) == (if call in e.pushes then PushSteps(call, e.pushes[call]) else [])
            && Own(steps, Stopper(call)) == (if call in e.stops then StopSteps(call, e.stops[call]) else [])
    decreases |steps|
  {
    if steps != [] {
      var n := |steps| - 1;
      var step := steps[n];
      RunFront(s, steps);
      OwnSteps(s, steps[..n], call);
      RunKeepsInv(s, steps[..n]);
      StepOfPush(After(s, steps[..n]), step, call);
      StepOfStop(After(s, steps[..n]), step, call);
    }
  }

  lemma {:induction false} RunFront(s: State, steps: seq<Step>)
    requires IsRun(s, steps) && steps != []
    ensures var n := |steps| - 1;
            IsRun(s, steps[..n]) && Enabled(After(s, steps[..n]), steps[n]) && After(s, steps) == Apply(After(s, steps[..n]), steps[n])
    decreases |steps|
  {
    if |steps| > 1 {
      RunFront(Apply(s, steps[0]), steps[1..]);
      assert steps[1..][..|steps| - 2] == steps[..|steps| - 1][1..];
    }
  }

  lemma StepOfPush(s: State, step: Step, call: CallId)
    requires Enabled(s, step)
    requires call in s.pushes && s.pushes[call].Counted? ==> s.pushes[call].sent == 0
    ensures var s' := Apply(s, step);
            (if call in s'.pushes then PushSteps(call, s'.pushes[call]) else [])
            == (if call in s.pushes then PushSteps(call, s.pushes[call]) else []) + (if By(step) == Pusher(call) then [step] else [])
  {
  }

  lemma StepOfStop(s: State, step: Step, call: CallId)
    requires Enabled(s, step)
    ensures var s' := Apply(s, step);
            (if call in s'.stops then StopSteps(call, s'.stops[call]) else [])
            == (if call in s.stops then StopSteps(call, s.stops[call]) else []) + (if By(step) == Stopper(call) then [step] else [])
  {
  }

  predicate SamePush(s: State, s': State, p: CallId) {
    (p in s'.pushes <==> p in s.pushes) && (p in s.pushes ==> s'.pushes[p] == s.pushes[p])
  }

  predicate SameStop(s: State, s': State, c: CallId) {
    (c in s'.stops <==> c in s.stops) && (c in s.stops ==> s'.stops[c] == s.stops[c])
  }

  // What a call relies on between two of its steps: the steps of all others, in any number, keep the
  // invariant and leave its own record alone.
  lemma {:induction false} OthersLeaveAlone(s: State, steps: seq<Step>, who: Who)
    requires Inv(s) && IsRun(s, steps) && forall i :: 0 <= i < |steps| ==> By(steps[i]) != who
    ensures Inv(After(s, steps))
    ensures who.Pusher? ==> SamePush(s, After(s, steps), who.p)
    ensures who.Stopper? ==> SameStop(s, After(s, steps), who.c)
    decreases |steps|
  {
    if steps != [] {
      StepKeepsInv(s, steps[0]);
      OthersLeaveAlone(Apply(s, steps[0]), steps[1..], who);
    }
  }
}

/** The queue object. Each access of a field is atomic; between two of them anybody else may act. */
module MemQueue {
  import opened MemQueueSpec

  class MemoryQueue {
    const capacity: nat
    ghost const start: State
    var buffer: seq<Job>
    var closed: bool
    var isStopped: bool
    var count: int
    // The protocol state, and every step since the queue was made.
    ghost var view: State
    ghost var log: seq<Step>

    ghost predicate Valid()
      reads this
    {
      && start == Init(|start.workers|, capacity)
      && IsRun(start, log) && view == After(start, log) && Inv(view)
      && view.q == Queue(capacity, buffer, closed, isStopped, count)
    }

    constructor (workerCount: nat, bufferSize: nat)
      requires workerCount > 0 && bufferSize > 0
      ensures Valid() && view == Init(workerCount, bufferSize) && log == []
    {
      capacity := bufferSize;
      buffer, closed, isStopped, count := [], false, false, 0;
      start, view, log := Init(workerCount, bufferSize), Init(workerCount, bufferSize), [];
      new;
      InitOk(workerCount, bufferSize);
    }

    // Whatever everybody but who does. Callers know of it only what the contract says, which is what
    // OthersLeaveAlone shows of any run.
    method Others(who: Who)
      requires Valid()
      modifies this
      ensures Valid() && old(log) <= log
      ensures who.Pusher? ==> SamePush(old(view), view, who.p)
      ensures who.Stopper? ==> SameStop(old(view), view, who.c)
    {
    }

    ghost method Record(step: Step)
      requires IsRun(start, log) && view == After(start, log) && Inv(view) && Enabled(view, step)
      modifies this`view, this`log
      ensures IsRun(start, log) && view == After(start, log) && Inv(view)
      ensures view == Apply(old(view), step) && log == old(log) + [step]
    {
      RunSnoc(start, log, step);
      StepKeepsInv(view, step);
      view, log := Apply(view, step), log + [step];
    }

    // count.Add(1), whatever the others do first. So with every access below.
    method AddOne(call: CallId, size: nat)
      requires Valid() && call !in view.pushes
      modifies this
      ensures Valid() && old(log) <= log && call in view.pushes && view.pushes[call] == Counted(size, 0)
    {
      Others(Pusher(call));
      Record(Enter(call, size));
      count := count + 1;
    }

    // isStopped.Load()
    method LoadStopped(call: CallId) returns (stopped: bool)
      requires Valid() && call in view.pushes && view.pushes[call].Counted?
      modifies this
      ensures Valid() && old(log) <= log && call in view.pushes && stopped == isStopped
      ensures var size := old(view).pushes[call].size;
              view.pushes[call] == if stopped then Leaving(size, 0, ErrStop) else Sending(size, 0)
    {
      Others(Pusher(call));
      Record(Check(call));
      stopped := isStopped;
    }

    // Sending on a closed channel panics.
    method ChannelSend(job: Job)
      requires !closed && |buffer| < capacity
      modifies this`buffer
      ensures buffer == old(buffer) + [job]
    {
      buffer := buffer + [job];
    }

    // A select between the send and what else may end the wait: a default case, the timer or the
    // context. With a default case it is sure to send when there is room; else it may give up first.
    method Select(call: CallId, index: nat, hasDefault: bool) returns (ok: bool)
      requires Valid() && call in view.pushes && view.pushes[call].Sending? && view.pushes[call].sent == index < view.pushes[call].size
      modifies this
      ensures Valid() && old(log) <= log && call in view.pushes
      ensures var size := old(view).pushes[call].size;
              view.pushes[call] == if ok then Sending(size, index + 1) else Leaving(size, index, GaveUp)
      ensures hasDefault && !ok ==> |buffer| >= capacity
    {
      Others(Pusher(call));
      var patience: bool := *;
      ok := |buffer| < capacity && (hasDefault || patience);
      if ok {
        SendIsOpen(view, call);
        Record(Send(call));
        ChannelSend(Job(call, index));
      } else {
        Record(GiveUp(call));
      }
    }

    method Finish(call: CallId)
      requires Valid() && call in view.pushes && view.pushes[call].Leaving?
      modifies this
      ensures Valid() && old(log) <= log && call in view.pushes
      ensures var c := old(view).pushes[call]; view.pushes[call] == Left(c.size, c.sent, c.result)
    {
      Others(Pusher(call));
      Record(Leave(call));
      count := count - 1;
    }

    // Push, PushCtx and NotWaitPush among any number of other calls and workers: whatever those do, the
    // call takes the steps that OwnSteps reads off its record, and never sends on a closed channel.
    method PushOne(call: CallId, hasDefault: bool) returns (r: Result)
      requires Valid() && call !in view.pushes
      modifies this
      ensures Valid() && old(log) <= log && call in view.pushes && view.pushes[call] == Left(1, if r == Accepted then 1 else 0, r)
    {
      AddOne(call, 1);
      var stopped := LoadStopped(call);
      if stopped {
        r := ErrStop;
      } else {
        var ok := Select(call, 0, hasDefault);
        r := if ok then Accepted else GaveUp;
        if ok {
          Record(AllSent(call));
        }
      }
      Finish(call);
    }

    // BatchPushCtx likewise: n tasks, the first of the batch, were sent before it returned.
    method BatchPush(call: CallId, size: nat) returns (n: nat, r: Result)
      requires Valid() && call !in view.pushes
      modifies this
      ensures Valid() && old(log) <= log && call in view.pushes && view.pushes[call] == Left(size, n, r)
      ensures n <= size && (r == Accepted ==> n == size) && (r == ErrStop ==> n == 0) && (r == GaveUp ==> n < size)
    {
      n := 0;
      AddOne(call, size);
      var stopped := LoadStopped(call);
      if stopped {
        r := ErrStop;
      } else {
        r := Accepted;
        while n < size && r == Accepted
          invariant Valid() && old(log) <= log && n <= size && call in view.pushes && (r == Accepted || (r == GaveUp && n < size))
          invariant view.pushes[call] == if r == Accepted then Sending(size, n) else Leaving(size, n, GaveUp)
          decreases size - n, r == Accepted
        {
          var ok := Select(call, n, false);
          if ok {
            n := n + 1;
          } else {
            r := GaveUp;
          }
        }
        if r == Accepted {
          Record(AllSent(call));
        }
      }
      Finish(call);
    }

    // isStopped.CompareAndSwap(false, true)
    method CompareAndSwapStopped(call: CallId) returns (won: bool)
      requires Valid() && call !in view.stops
      modifies this
      ensures Valid() && old(log) <= log && isStopped && call in view.stops && view.stops[call] == if won then Polling else Lost
      ensures won <==> forall c :: c != call ==> !Won(view.stops, c)
    {
      Others(Stopper(call));
      won := !isStopped;
      OneWinner(view, call);
      Record(Swap(call));
      isStopped := true;
    }

    // Stop up to wg.Wait, among any number of other calls and workers; life bounds how often count is
    // polled. The call that won the swap closes the channel, which is still open, once it has seen no
    // push call inside.
    method Stop(call: CallId, life: nat) returns (won: bool, closes: bool)
      requires Valid() && call !in view.stops
      modifies this
      ensures Valid() && old(log) <= log && call in view.stops
      ensures view.stops[call] == if !won then Lost else if closes then Closed else Polling
    {
      closes := false;
      won := CompareAndSwapStopped(call);
      if !won {
        return;
      }
      var left := life;
      while left > 0
        invariant Valid() && old(log) <= log && call in view.stops && view.stops[call] == Polling
      {
        closes := PollAndClose(call);
        if closes {
          return;
        }
        left := left - 1;
      }
    }

    method PollAndClose(call: CallId) returns (closes: bool)
      requires Valid() && call in view.stops && view.stops[call] == Polling
      modifies this
      ensures Valid() && old(log) <= log && call in view.stops && view.stops[call] == if closes then Closed else Polling
    {
      Others(Stopper(call));
      closes := count == 0;
      if closes {
        Record(SeeZero(call));
        Others(Stopper(call));
        CloseIsOnce(view, call);
        Record(Close(call));
        CloseChannel();
      }
    }

    // Closing a closed channel panics.
    method CloseChannel()
      requires !closed
      modifies this`closed
      ensures closed
    {
      closed := true;
    }
  }
}
