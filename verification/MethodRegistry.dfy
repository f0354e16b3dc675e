/** Methods and the callers waiting for them (discovery/inprocess/method_registry.go). */
module MethodRegistrySpec {
  import opened Basics

  type Method = string
  type Handler = nat
  type WaiterId = nat
  type CallerId = nat
  type CloserId = nat

  // closes counts the close(ready) calls; registered says that RegisterService made it.
  datatype Waiter = Waiter(name: Method, refs: int, closes: nat, registered: bool)

  datatype Result = Found(h: Handler) | TimedOut | InternalError

  // A getUnaryHandler call that found no handler: blocked in select, woken by its ready
  // channel, or about to run the deferred release.
  datatype Caller =
    | Waiting(name: Method, w: WaiterId)
    | Woken(name: Method, w: WaiterId)
    | Releasing(name: Method, w: WaiterId, result: Result)
    | Done(result: Result)

  // closers: close calls that have taken the waiters and still have to close these.
  datatype State = State(methods: map<Method, Handler>, waiters: map<Method, WaiterId>, info: map<WaiterId, Waiter>,
                         callers: map<CallerId, Caller>, closers: map<CloserId, set<WaiterId>>)

  const START := State(map[], map[], map[], map[], map[])

  datatype Step =
    | Register(name: Method, h: Handler)
    | Call(c: CallerId, name: Method, spare: WaiterId)
    | GiveUp(c: CallerId)
    | Wake(c: CallerId)
    | Look(c: CallerId)
    | Release(c: CallerId)
    | TakeAll(k: CloserId)
    | CloseOne(k: CloserId, w: WaiterId)

  predicate Enabled(s: State, step: Step) {
    match step
    // registering a method twice panics
    case Register(name, _) => name !in s.methods
    case Call(c, _, spare) => c !in s.callers && spare !in s.info
    case GiveUp(c) => c in s.callers && s.callers[c].Waiting?
    case Wake(c) => c in s.callers && s.callers[c].Waiting? && s.callers[c].w in s.info && s.info[s.callers[c].w].closes > 0
    case Look(c) => c in s.callers && s.callers[c].Woken?
    case Release(c) => c in s.callers && s.callers[c].Releasing? && s.callers[c].w in s.info
    case TakeAll(k) => k !in s.closers
    case CloseOne(k, w) => k in s.closers && w in s.closers[k] && w in s.info
  }

  function Closed(w: Waiter, registered: bool): Waiter {
    w.(closes := w.closes + 1, registered := registered)
  }

  // releaseWaiter
  function Released(s: State, c: CallerId): State
    requires Enabled(s, Release(c))
  {
    var Releasing(name, w, result) := s.callers[c];
    var s' := s.(callers := s.callers[c := Done(result)]);
    if name !in s.waiters || s.waiters[name] != w then s'
    else
      var refs := s.info[w].refs - 1;
      s'.(info := s.info[w := s.info[w].(refs := refs)], waiters := if refs <= 0 then s.waiters - {name} else s.waiters)
  }

  function Apply(s: State, step: Step): State
    requires Enabled(s, step)
  {
    match step
    case Register(name, h) =>
      var s' := s.(methods := s.methods[name := h]);
      if name in s.waiters && s.waiters[name] in s.info then
        var w := s.waiters[name];
        s'.(waiters := s.waiters - {name}, info := s.info[w := Closed(s.info[w], true)])
      else s'
    case Call(c, name, spare) =>
      if name in s.methods then s.(callers := s.callers[c := Done(Found(s.methods[name]))])
      else if name in s.waiters && s.waiters[name] in s.info then
        var w := s.waiters[name];
        s.(info := s.info[w := s.info[w].(refs := s.info[w].refs + 1)], callers := s.callers[c := Waiting(name, w)])
      else
        s.(waiters := s.waiters[name := spare], info := s.info[spare := Waiter(name, 1, 0, false)], callers := s.callers[c := Waiting(name, spare)])
    case GiveUp(c) => s.(callers := s.callers[c := Releasing(s.callers[c].name, s.callers[c].w, TimedOut)])
    case Wake(c) => s.(callers := s.callers[c := Woken(s.callers[c].name, s.callers[c].w)])
    case Look(c) =>
      var name := s.callers[c].name;
      s.(callers := s.callers[c := Releasing(name, s.callers[c].w, if name in s.methods then Found(s.methods[name]) else InternalError)])
    case Release(c) => Released(s, c)
    case TakeAll(k) => s.(waiters := map[], closers := s.closers[k := s.waiters.Values])
    case CloseOne(k, w) => s.(closers := s.closers[k := s.closers[k] - {w}], info := s.info[w := Closed(s.info[w], false)])
  }

  predicate IsRun(s: State, steps: seq<Step>)
    decreases |steps|
  {
    steps == [] || (Enabled(s, steps[0]) && IsRun(Apply(s, steps[0]), steps[1..]))
  }

  function After(s: State, steps: seq<Step>): State
    requires IsRun(s, steps)
    decreases |steps|
  {
    if steps == [] then s else After(Apply(s, steps[0]), steps[1..])
  }

  // The callers that still hold a reference to waiter w.
  function Holders(callers: map<CallerId, Caller>, w: WaiterId): set<CallerId> {
    set c | c in callers && !callers[c].Done? && callers[c].w == w
  }

  type Methods = map<Method, Handler>
  type Waiters = map<Method, WaiterId>
  type Info = map<WaiterId, Waiter>
  type Callers = map<CallerId, Caller>
  type Closers = map<CloserId, set<WaiterId>>

  ghost predicate BeingClosed(closers: Closers, w: WaiterId) {
    exists k :: k in closers && w in closers[k]
  }

  // A method is registered or waited for, never both; each waiter sits under its own name.
  predicate Links(methods: Methods, waiters: Waiters, info: Info) {
    && waiters.Keys !! methods.Keys
    && (forall name :: name in waiters ==> waiters[name] in info && info[waiters[name]].name == name)
  }

  ghost predicate OpenMapped(waiters: Waiters, info: Info, closers: Closers) {
    forall name :: name in waiters && waiters[name] in info ==>
      info[waiters[name]].closes == 0 && !BeingClosed(closers, waiters[name])
  }

  ghost predicate Counted(waiters: Waiters, info: Info, callers: Callers) {
    forall name :: name in waiters && waiters[name] in info ==>
      info[waiters[name]].refs == |Holders(callers, waiters[name])| > 0
  }

  predicate ClosersOk(info: Info, closers: Closers) {
    && (forall k, w :: k in closers && w in closers[k] ==> w in info && info[w].closes == 0)
    && (forall k, l, w :: k in closers && l in closers && w in closers[k] && w in closers[l] ==> k == l)
  }

  predicate ClosedOnce(methods: Methods, info: Info) {
    forall w :: w in info ==>
      && info[w].closes <= 1
      && (info[w].registered ==> info[w].closes == 1 && info[w].name in methods)
  }

  ghost predicate Reachable(waiters: Waiters, info: Info, closers: Closers, name: Method, w: WaiterId) {
    && w in info && info[w].name == name
    && ((name in waiters && waiters[name] == w) || info[w].closes == 1 || BeingClosed(closers, w))
  }

  ghost predicate CallersOk(waiters: Waiters, info: Info, callers: Callers, closers: Closers) {
    forall c :: c in callers && !callers[c].Done? ==>
      && Reachable(waiters, info, closers, callers[c].name, callers[c].w)
      && (callers[c].Woken? ==> info[callers[c].w].closes == 1)
  }

  ghost predicate Inv(s: State) {
    && Links(s.methods, s.waiters, s.info) && OpenMapped(s.waiters, s.info, s.closers) && Counted(s.waiters, s.info, s.callers)
    && ClosersOk(s.info, s.closers) && ClosedOnce(s.methods, s.info) && CallersOk(s.waiters, s.info, s.callers, s.closers)
  }

  lemma HoldersAfter(callers: Callers, c: CallerId, now: Caller, w: WaiterId)
    ensures Holders(callers[c := now], w) ==
            if !now.Done? && now.w == w then Holders(callers, w) + {c} else Holders(callers, w) - {c}
  {
  }

  lemma RegisterKeeps(s: State, name: Method, h: Handler)
    requires Inv(s) && Enabled(s, Register(name, h))
    ensures Inv(Apply(s, Register(name, h)))
  {
    if name in s.waiters {
      RemovedKeeps(s.waiters, s.info, s.callers, s.closers, name);
    }
  }

  // The waiter under name leaves the map and is closed.
  lemma RemovedKeeps(waiters: Waiters, info: Info, callers: Callers, closers: Closers, name: Method)
    requires name in waiters && waiters[name] in info
    requires CallersOk(waiters, info, callers, closers) && Counted(waiters, info, callers) && OpenMapped(waiters, info, closers) && ClosersOk(info, closers)
    requires Links(map[], waiters, info)
    ensures var w := waiters[name]; var rest, info' := waiters - {name}, info[w := Closed(info[w], true)];
            && CallersOk(rest, info', callers, closers) && Counted(rest, info', callers) && OpenMapped(rest, info', closers)
            && ClosersOk(info', closers)
  {
    var w := waiters[name];
    forall k | k in closers ensures w !in closers[k] {
      assert !BeingClosed(closers, w);
    }
  }

  // One more caller waits on the waiter under name.
  lemma JoinCounts(waiters: Waiters, info: Info, callers: Callers, c: CallerId, name: Method)
    requires Links(map[], waiters, info) && Counted(waiters, info, callers) && name in waiters && c !in callers
    ensures var w := waiters[name];
            Counted(waiters, info[w := info[w].(refs := info[w].refs + 1)], callers[c := Waiting(name, w)])
  {
    var w := waiters[name];
    forall v ensures Holders(callers[c := Waiting(name, w)], v) == if v == w then Holders(callers, v) + {c} else Holders(callers, v) {
      HoldersAfter(callers, c, Waiting(name, w), v);
    }
  }

  lemma JoinKeeps(s: State, c: CallerId, name: Method)
    requires Inv(s) && c !in s.callers && name in s.waiters
    ensures var w := s.waiters[name];
            Inv(s.(info := s.info[w := s.info[w].(refs := s.info[w].refs + 1)], callers := s.callers[c := Waiting(name, w)]))
  {
    JoinCounts(s.waiters, s.info, s.callers, c, name);
  }

  // The first caller of a method makes its waiter.
  lemma NewCounts(waiters: Waiters, info: Info, callers: Callers, c: CallerId, name: Method, spare: WaiterId)
    requires Links(map[], waiters, info) && Counted(waiters, info, callers) && name !in waiters && c !in callers && spare !in info
    requires forall d :: d in callers && !callers[d].Done? ==> callers[d].w in info
    ensures Counted(waiters[name := spare], info[spare := Waiter(name, 1, 0, false)], callers[c := Waiting(name, spare)])
  {
    var waiters', callers' := waiters[name := spare], callers[c := Waiting(name, spare)];
    forall n | n in waiters'
      ensures |Holders(callers', waiters'[n])| == if n == name then 1 else |Holders(callers, waiters[n])|
    {
      HoldersAfter(callers, c, Waiting(name, spare), waiters'[n]);
      if n == name {
        assert Holders(callers', spare) == {c};
      }
    }
  }

  lemma NewKeeps(s: State, c: CallerId, name: Method, spare: WaiterId)
    requires Inv(s) && c !in s.callers && name !in s.waiters && name !in s.methods && spare !in s.info
    ensures Inv(s.(waiters := s.waiters[name := spare], info := s.info[spare := Waiter(name, 1, 0, false)], callers := s.callers[c := Waiting(name, spare)]))
  {
    NewCounts(s.waiters, s.info, s.callers, c, name, spare);
  }

  lemma FoundKeeps(s: State, c: CallerId, h: Handler)
    requires Inv(s) && c !in s.callers
    ensures Inv(s.(callers := s.callers[c := Done(Found(h))]))
  {
    forall w ensures Holders(s.callers[c := Done(Found(h))], w) == Holders(s.callers, w) {
      HoldersAfter(s.callers, c, Done(Found(h)), w);
    }
  }

  // GiveUp, Wake and Look keep the caller's reference.
  lemma MoveKeeps(s: State, c: CallerId, now: Caller)
    requires Inv(s) && c in s.callers && !s.callers[c].Done? && !now.Done?
    requires now.name == s.callers[c].name && now.w == s.callers[c].w
    requires now.Woken? ==> now.w in s.info && s.info[now.w].closes > 0
    ensures Inv(s.(callers := s.callers[c := now]))
  {
    var s' := s.(callers := s.callers[c := now]);
    forall w ensures Holders(s'.callers, w) == Holders(s.callers, w) {
      HoldersAfter(s.callers, c, now, w);
    }
  }

  lemma LeaveCounts(waiters: Waiters, info: Info, callers: Callers, c: CallerId, now: Caller)
    requires Links(map[], waiters, info) && Counted(waiters, info, callers) && now.Done?
    requires c in callers && callers[c].Releasing? && callers[c].w in info && info[callers[c].w].name == callers[c].name
    ensures var name, w, callers' := callers[c].name, callers[c].w, callers[c := now];
            if name !in waiters || waiters[name] != w then Counted(waiters, info, callers')
            else
              var refs := info[w].refs - 1;
              && refs == |Holders(callers', w)|
              && Counted(if refs <= 0 then waiters - {name} else waiters, info[w := info[w].(refs := refs)], callers')
  {
    var w := callers[c].w;
    assert c in Holders(callers, w);
    forall v ensures Holders(callers[c := now], v) == if v == w then Holders(callers, v) - {c} else Holders(callers, v) {
      HoldersAfter(callers, c, now, v);
    }
  }

  lemma LeaveReachable(waiters: Waiters, info: Info, callers: Callers, closers: Closers, c: CallerId, now: Caller, refs: int)
    requires CallersOk(waiters, info, callers, closers) && c in callers && !callers[c].Done? && now.Done?
    requires callers[c].name in waiters && waiters[callers[c].name] == callers[c].w
    requires refs == |Holders(callers[c := now], callers[c].w)|
    ensures var name, w, callers' := callers[c].name, callers[c].w, callers[c := now];
            CallersOk(if refs <= 0 then waiters - {name} else waiters, info[w := info[w].(refs := refs)], callers', closers)
  {
    var callers' := callers[c := now];
    forall d | d in callers' && !callers'[d].Done? ensures d in Holders(callers', callers'[d].w) {}
  }

  lemma RefsOnly(methods: Methods, waiters: Waiters, info: Info, closers: Closers, w: WaiterId, refs: int, name: Method)
    requires Links(methods, waiters, info) && OpenMapped(waiters, info, closers) && ClosersOk(info, closers) && ClosedOnce(methods, info)
    requires w in info
    ensures var rest, info' := if refs <= 0 then waiters - {name} else waiters, info[w := info[w].(refs := refs)];
            Links(methods, rest, info') && OpenMapped(rest, info', closers) && ClosersOk(info', closers) && ClosedOnce(methods, info')
  {
  }

  lemma ReleaseKeeps(s: State, c: CallerId)
    requires Inv(s) && Enabled(s, Release(c))
    ensures Inv(Apply(s, Release(c)))
  {
    var name, w := s.callers[c].name, s.callers[c].w;
    if name in s.waiters && s.waiters[name] == w {
      ReleaseMapped(s, c);
    } else {
      ReleaseUnmapped(s, c);
    }
  }

  lemma ReleaseChanges(s: State, c: CallerId)
    requires Enabled(s, Release(c))
    ensures var s', name, w := Released(s, c), s.callers[c].name, s.callers[c].w;
            && s'.methods == s.methods
            && (if name !in s.waiters || s.waiters[name] != w then s'.waiters == s.waiters && s'.info == s.info
                else
                  var refs := s.info[w].refs - 1;
                  && s'.waiters == (if refs <= 0 then s.waiters - {name} else s.waiters)
                  && s'.info == s.info[w := s.info[w].(refs := refs)])
  {
  }

  lemma CallChanges(s: State, c: CallerId, name: Method, spare: WaiterId)
    requires Enabled(s, Call(c, name, spare)) && name !in s.methods && (name in s.waiters ==> s.waiters[name] in s.info)
    ensures var s' := Apply(s, Call(c, name, spare));
            && s'.methods == s.methods
            && (if name in s.waiters then
                  var w := s.waiters[name];
                  s'.waiters == s.waiters && s'.info == s.info[w := s.info[w].(refs := s.info[w].refs + 1)]
                else
                  s'.waiters == s.waiters[name := spare] && s'.info == s.info[spare := Waiter(name, 1, 0, false)])
  {
  }

  lemma ReleaseMapped(s: State, c: CallerId)
    requires Inv(s) && Enabled(s, Release(c))
    requires s.callers[c].name in s.waiters && s.waiters[s.callers[c].name] == s.callers[c].w
    ensures Inv(Released(s, c))
  {
    var name, w, now := s.callers[c].name, s.callers[c].w, Done(s.callers[c].result);
    var refs := s.info[w].refs - 1;
    LeaveCounts(s.waiters, s.info, s.callers, c, now);
    LeaveReachable(s.waiters, s.info, s.callers, s.closers, c, now, refs);
    RefsOnly(s.methods, s.waiters, s.info, s.closers, w, refs, name);
    var s' := Released(s, c);
    assert s'.waiters == if refs <= 0 then s.waiters - {name} else s.waiters;
    assert s'.info == s.info[w := s.info[w].(refs := refs)] && s'.callers == s.callers[c := now];
    assert s'.methods == s.methods && s'.closers == s.closers;
  }

  lemma ReleaseUnmapped(s: State, c: CallerId)
    requires Inv(s) && Enabled(s, Release(c))
    requires s.callers[c].name !in s.waiters || s.waiters[s.callers[c].name] != s.callers[c].w
    ensures Inv(Released(s, c))
  {
    LeaveCounts(s.waiters, s.info, s.callers, c, Done(s.callers[c].result));
  }

  lemma TakenBeingClosed(closers: Closers, k: CloserId, taken: set<WaiterId>, w: WaiterId)
    requires k !in closers
    ensures BeingClosed(closers[k := taken], w) <==> BeingClosed(closers, w) || w in taken
  {
    var closers' := closers[k := taken];
    if BeingClosed(closers, w) {
      var l :| l in closers && w in closers[l];
      assert l in closers' && w in closers'[l];
    }
    if w in taken {
      assert k in closers' && w in closers'[k];
    }
  }

  lemma TakeAllClosers(waiters: Waiters, info: Info, closers: Closers, k: CloserId)
    requires ClosersOk(info, closers) && OpenMapped(waiters, info, closers) && Links(map[], waiters, info) && k !in closers
    ensures ClosersOk(info, closers[k := waiters.Values])
  {
    forall l, w | l in closers && w in closers[l] ensures w !in waiters.Values {
      assert BeingClosed(closers, w);
    }
  }

  lemma TakeAllCallers(waiters: Waiters, info: Info, callers: Callers, closers: Closers, k: CloserId)
    requires CallersOk(waiters, info, callers, closers) && k !in closers
    ensures CallersOk(map[], info, callers, closers[k := waiters.Values])
  {
    forall c | c in callers && !callers[c].Done?
      ensures Reachable(map[], info, closers[k := waiters.Values], callers[c].name, callers[c].w)
    {
      assert Reachable(waiters, info, closers, callers[c].name, callers[c].w);
      TakenBeingClosed(closers, k, waiters.Values, callers[c].w);
    }
  }

  lemma TakeAllKeeps(s: State, k: CloserId)
    requires Inv(s) && Enabled(s, TakeAll(k))
    ensures Inv(Apply(s, TakeAll(k)))
  {
    TakeAllClosers(s.waiters, s.info, s.closers, k);
    TakeAllCallers(s.waiters, s.info, s.callers, s.closers, k);
  }

  lemma CloseOneKeeps(s: State, k: CloserId, w: WaiterId)
    requires Inv(s) && Enabled(s, CloseOne(k, w))
    ensures Inv(Apply(s, CloseOne(k, w)))
  {
    var s' := Apply(s, CloseOne(k, w));
    assert BeingClosed(s.closers, w);
    forall v | v != w ensures BeingClosed(s'.closers, v) == BeingClosed(s.closers, v) {
      if BeingClosed(s.closers, v) {
        var l :| l in s.closers && v in s.closers[l];
        assert l in s'.closers && v in s'.closers[l];
      }
    }
    assert OpenMapped(s'.waiters, s'.info, s'.closers);
    assert ClosersOk(s'.info, s'.closers);
    assert CallersOk(s'.waiters, s'.info, s'.callers, s'.closers);
  }

  lemma StepKeepsInv(s: State, step: Step)
    requires Inv(s) && Enabled(s, step)
    ensures Inv(Apply(s, step))
  {
    match step
    case Register(name, h) => RegisterKeeps(s, name, h);
    case Call(c, name, spare) =>
      if name in s.methods { FoundKeeps(s, c, s.methods[name]); }
      else if name in s.waiters { JoinKeeps(s, c, name); }
      else { NewKeeps(s, c, name, spare); }
    case Release(c) => ReleaseKeeps(s, c);
    case TakeAll(k) => TakeAllKeeps(s, k);
    case CloseOne(k, w) => CloseOneKeeps(s, k, w);
    case GiveUp(c) => MoveKeeps(s, c, Apply(s, step).callers[c]);
    case Wake(c) => MoveKeeps(s, c, Apply(s, step).callers[c]);
    case Look(c) => MoveKeeps(s, c, Apply(s, step).callers[c]);
  }

  lemma {:induction false} RunKeepsInv(s: State, steps: seq<Step>)
    requires Inv(s) && IsRun(s, steps)
    ensures Inv(After(s, steps))
    decreases |steps|
  {
    if steps != [] {
      StepKeepsInv(s, steps[0]);
      RunKeepsInv(Apply(s, steps[0]), steps[1..]);
    }
  }

  // The waiter whose ready channel a step closes.
  function Closes(s: State, step: Step): Option<WaiterId> {
    match step
    case Register(name, _) => if name in s.waiters then Some(s.waiters[name]) else None
    case CloseOne(_, w) => Some(w)
    case _ => None
  }

  // A registered name has no waiter; a mapped waiter counts exactly the callers that have yet
  // to release it; no step of any run closes a ready channel for the second time.
  lemma WaiterLifecycle(steps: seq<Step>, name: Method)
    requires IsRun(START, steps)
    ensures var s := After(START, steps);
            && !(name in s.methods && name in s.waiters)
            && (name in s.waiters ==> s.waiters[name] in s.info && s.info[s.waiters[name]].refs == |Holders(s.callers, s.waiters[name])| > 0)
            && (forall step :: Enabled(s, step) && Closes(s, step).Some? ==>
                  Closes(s, step).value in s.info && s.info[Closes(s, step).value].closes == 0)
            && (forall w :: w in s.info ==> s.info[w].closes <= 1)
  {
    RunKeepsInv(START, steps);
  }

  // Until close is called every closed waiter was closed by a registration.
  predicate NotClosing(s: State) {
    && s.closers == map[]
    && (forall w :: w in s.info && s.info[w].closes > 0 ==> s.info[w].registered)
    && (forall c :: c in s.callers && (s.callers[c].Done? || s.callers[c].Releasing?) ==> s.callers[c].result != InternalError)
  }

  lemma StepKeepsNotClosing(s: State, step: Step)
    requires NotClosing(s) && Enabled(s, step) && !step.TakeAll?
    requires step.Look? ==> s.callers[step.c].name in s.methods
    ensures NotClosing(Apply(s, step))
  {
    var s' := Apply(s, step);
    assert s'.closers == map[];
    forall c | c in s'.callers && (s'.callers[c].Done? || s'.callers[c].Releasing?) ensures s'.callers[c].result != InternalError {
      if c !in s.callers || s'.callers[c] != s.callers[c] {
        assert step.Call? || step.GiveUp? || step.Look? || step.Release?;
      }
    }
  }

  // Woken by a registration, a caller finds the handler.
  lemma LookFinds(s: State, c: CallerId)
    requires Inv(s) && NotClosing(s) && Enabled(s, Look(c))
    ensures s.callers[c].name in s.methods
  {
    assert Reachable(s.waiters, s.info, s.closers, s.callers[c].name, s.callers[c].w);
  }

  lemma {:induction false} RunKeepsNotClosing(s: State, steps: seq<Step>)
    requires Inv(s) && NotClosing(s) && IsRun(s, steps) && forall i :: 0 <= i < |steps| ==> !steps[i].TakeAll?
    ensures Inv(After(s, steps)) && NotClosing(After(s, steps))
    decreases |steps|
  {
    if steps != [] {
      StepKeepsInv(s, steps[0]);
      if steps[0].Look? {
        LookFinds(s, steps[0].c);
      }
      StepKeepsNotClosing(s, steps[0]);
      RunKeepsNotClosing(Apply(s, steps[0]), steps[1..]);
    }
  }

  predicate Closing(steps: seq<Step>) {
    exists i :: 0 <= i < |steps| && steps[i].TakeAll?
  }

  // Whatever register, release and close calls do, and in whatever order: a caller whose waiter a
  // registration closed can wake, and then finds the handler of its method; one that wakes without
  // finding it was woken by a close call, and only that gives the internal error.
  lemma RegistrationReachesWaiters(steps: seq<Step>, c: CallerId)
    requires IsRun(START, steps) && c in After(START, steps).callers
    ensures var s := After(START, steps); var caller := s.callers[c];
            && ((caller.Waiting? || caller.Woken?) ==> caller.w in s.info)
            && (caller.Waiting? && s.info[caller.w].registered ==>
                  && Enabled(s, Wake(c))
                  && LooksUp(Apply(s, Wake(c)), c) == Found(HandlerOf(s, caller.name)))
            && (caller.Woken? && s.info[caller.w].registered ==> LooksUp(s, c) == Found(HandlerOf(s, caller.name)))
            && (caller.Woken? ==> (LooksUp(s, c) == InternalError <==> caller.name !in s.methods))
            && (caller.Woken? && LooksUp(s, c) == InternalError ==> !s.info[caller.w].registered && Closing(steps))
            && ((caller.Done? || caller.Releasing?) && caller.result == InternalError ==> Closing(steps))
  {
    RunKeepsInv(START, steps);
    CallersFind(After(START, steps), c);
    if !Closing(steps) {
      RunKeepsNotClosing(START, steps);
    }
  }

  lemma CallersFind(s: State, c: CallerId)
    requires Inv(s) && c in s.callers
    ensures var caller := s.callers[c];
            && (!caller.Done? ==> caller.w in s.info && (s.info[caller.w].registered ==> caller.name in s.methods && s.info[caller.w].closes == 1))
            && (caller.Woken? ==> s.info[caller.w].closes == 1)
  {
    if !s.callers[c].Done? {
      assert Reachable(s.waiters, s.info, s.closers, s.callers[c].name, s.callers[c].w);
    }
  }

  // What the second look-up of a woken caller gives.
  function LooksUp(s: State, c: CallerId): Result
    requires c in s.callers && s.callers[c].Woken?
  {
    Apply(s, Look(c)).callers[c].result
  }

  function HandlerOf(s: State, name: Method): Handler {
    if name in s.methods then s.methods[name] else 0
  }

  // Until close is called, having the method registered is enough to wake.
  lemma RegisteredIsReached(steps: seq<Step>, c: CallerId)
    requires IsRun(START, steps) && !Closing(steps) && c in After(START, steps).callers
    ensures var s := After(START, steps); var caller := s.callers[c];
            caller.Waiting? && caller.name in s.methods ==> caller.w in s.info && s.info[caller.w].registered && Enabled(s, Wake(c))
  {
    RunKeepsNotClosing(START, steps);
    var s := After(START, steps);
    var caller := s.callers[c];
    if caller.Waiting? && caller.name in s.methods {
      assert !BeingClosed(s.closers, caller.w);
      assert Reachable(s.waiters, s.info, s.closers, caller.name, caller.w);
    }
  }

  // With close calls at any moment a caller is never stranded: the ready channel of its waiter
  // is closed, or about to be, or still in the map for a later registration or close.
  lemma NobodyIsStranded(steps: seq<Step>, c: CallerId)
    requires IsRun(START, steps)
    requires c in After(START, steps).callers && After(START, steps).callers[c].Waiting?
    ensures var s := After(START, steps); var w, name := s.callers[c].w, s.callers[c].name;
            || Enabled(s, Wake(c))
            || (exists k :: Enabled(s, CloseOne(k, w)) && Enabled(Apply(s, CloseOne(k, w)), Wake(c)))
            || (forall h :: Enabled(s, Register(name, h)) && Enabled(Apply(s, Register(name, h)), Wake(c)))
  {
    RunKeepsInv(START, steps);
    var s := After(START, steps);
    var w := s.callers[c].w;
    assert Reachable(s.waiters, s.info, s.closers, s.callers[c].name, w);
    if BeingClosed(s.closers, w) {
      var k :| k in s.closers && w in s.closers[k];
      assert Enabled(s, CloseOne(k, w)) && Enabled(Apply(s, CloseOne(k, w)), Wake(c));
    }
  }

  // A handler, once registered, stays; so whoever found it found the one registered.
  lemma {:induction false} HandlersStay(s: State, steps: seq<Step>, name: Method)
    requires IsRun(s, steps) && name in s.methods
    ensures name in After(s, steps).methods && After(s, steps).methods[name] == s.methods[name]
    decreases |steps|
  {
    if steps != [] {
      HandlersStay(Apply(s, steps[0]), steps[1..], name);
    }
  }

  // What makes every close(ready) the first: all it takes of the invariant.
  lemma MappedIsOpen(s: State, name: Method)
    requires Inv(s) && name in s.waiters
    ensures s.waiters[name] in s.info && s.info[s.waiters[name]].closes == 0
  {
  }

  lemma TakenIsOpen(s: State, k: CloserId, w: WaiterId)
    requires Inv(s) && k in s.closers && w in s.closers[k]
    ensures w in s.info && s.info[w].closes == 0
  {
  }

  // What a service registers, one locked step a method.
  datatype Desc = Desc(fullMethod: Method, handler: Handler)

  function Steps(descs: seq<Desc>): (r: seq<Step>)
    ensures |r| == |descs|
  {
    seq(|descs|, i requires 0 <= i < |descs| => Register(descs[i].fullMethod, descs[i].handler))
  }

  lemma {:induction false} RunThen(s: State, steps: seq<Step>, step: Step)
    requires IsRun(s, steps) && Enabled(After(s, steps), step)
    ensures IsRun(s, steps + [step]) && After(s, steps + [step]) == Apply(After(s, steps), step)
    decreases |steps|
  {
    if steps == [] {
      assert steps + [step] == [step];
      assert [step][1..] == [];
    } else {
      assert (steps + [step])[1..] == steps[1..] + [step];
      RunThen(Apply(s, steps[0]), steps[1..], step);
    }
  }
}

module MethodRegistry {
  import opened Basics
  import opened MethodRegistrySpec

  class MethodWaiter {
    var refs: int
    var closed: bool
    ghost const id: WaiterId

    constructor (ghost id: WaiterId)
      ensures refs == 0 && !closed && this.id == id
    {
      refs, closed := 0, false;
      this.id := id;
    }

    // close(ready): closing a closed channel panics.
    method CloseReady()
      requires !closed
      modifies this`closed
      ensures closed
    {
      closed := true;
    }
  }

  class Registry {
    var methods: map<Method, Handler>
    var waiters: map<Method, MethodWaiter>
    // The protocol state this registry stands for, and every waiter it has made. The invariant
    // Inv(view) is not part of Valid: each method's view is one step on, so StepKeepsInv gives it.
    ghost var view: State
    ghost var made: set<MethodWaiter>

    ghost predicate Shows(ws: Waiters, info: Info)
      reads this`waiters, this`made, made
    {
      && (forall m :: m in made ==> m.id in info && m.refs == info[m.id].refs && m.closed == (info[m.id].closes > 0))
      && (forall m, n :: m in made && n in made && m.id == n.id ==> m == n)
      && waiters.Keys == ws.Keys
      && (forall name :: name in waiters ==> waiters[name] in made && waiters[name].id == ws[name])
    }

    ghost predicate Valid()
      reads this, made
    {
      methods == view.methods && Shows(view.waiters, view.info)
    }

    constructor ()
      ensures Valid() && view == START && fresh(made)
    {
      methods, waiters, view, made := map[], map[], START, {};
    }

    // Registers the methods in order, waking their waiters, up to the first name already taken.
    method RegisterService(descs: seq<Desc>) returns (panicked: bool, done: nat)
      requires Valid() && Inv(view)
      modifies this, made
      ensures Valid() && made == old(made) && Inv(view)
      ensures done <= |descs| && panicked == (done < |descs|)
      ensures IsRun(old(view), Steps(descs[..done])) && view == After(old(view), Steps(descs[..done]))
      ensures panicked ==> descs[done].fullMethod in methods
    {
      done := 0;
      while done < |descs|
        invariant Valid() && Inv(view) && made == old(made) && done <= |descs|
        invariant IsRun(old(view), Steps(descs[..done])) && view == After(old(view), Steps(descs[..done]))
      {
        var desc := descs[done];
        if desc.fullMethod in methods {
          return true, done;
        }
        RegisterNext(desc, old(view), Steps(descs[..done]));
        assert Steps(descs[..done + 1]) == Steps(descs[..done]) + [Register(desc.fullMethod, desc.handler)];
        done := done + 1;
      }
      return false, done;
    }

    method RegisterNext(desc: Desc, ghost start: State, ghost before: seq<Step>)
      requires Valid() && Inv(view) && desc.fullMethod !in methods
      requires IsRun(start, before) && view == After(start, before)
      modifies this, made
      ensures Valid() && Inv(view) && made == old(made)
      ensures var steps := before + [Register(desc.fullMethod, desc.handler)];
              IsRun(start, steps) && view == After(start, steps)
    {
      var step := Register(desc.fullMethod, desc.handler);
      RunThen(start, before, step);
      RegisterKeeps(view, desc.fullMethod, desc.handler);
      if desc.fullMethod in waiters {
        MappedIsOpen(view, desc.fullMethod);
      }
      RegisterOne(desc);
    }

    method RegisterOne(desc: Desc)
      requires Valid() && desc.fullMethod !in methods && (desc.fullMethod in waiters ==> !waiters[desc.fullMethod].closed)
      modifies this, made
      ensures Valid() && made == old(made)
      ensures view == Apply(old(view), Register(desc.fullMethod, desc.handler))
    {
      methods := methods[desc.fullMethod := desc.handler];
      if desc.fullMethod in waiters {
        var wait := waiters[desc.fullMethod];
        CloseWaiter(view.waiters, view.info, view.waiters[desc.fullMethod], wait, true);
        waiters := waiters - {desc.fullMethod};
      }
      view := Apply(view, Register(desc.fullMethod, desc.handler));
    }

    method CloseWaiter(ghost ws: Waiters, ghost info: Info, ghost w: WaiterId, wait: MethodWaiter, ghost registered: bool)
      requires Shows(ws, info) && wait in made && wait.id == w && info[w].closes == 0
      modifies wait
      ensures Shows(ws, info[w := Closed(info[w], registered)])
    {
      wait.CloseReady();
    }

    method ChangeRefs(ghost ws: Waiters, ghost info: Info, ghost w: WaiterId, wait: MethodWaiter, d: int)
      requires Shows(ws, info) && wait in made && wait.id == w
      modifies wait
      ensures Shows(ws, info[w := info[w].(refs := info[w].refs + d)]) && wait.refs == old(wait.refs) + d
    {
      wait.refs := wait.refs + d;
    }

    method NewWaiter(ghost spare: WaiterId, fullMethod: Method) returns (wait: MethodWaiter)
      requires Shows(view.waiters, view.info) && spare !in view.info && fullMethod !in waiters
      modifies this`waiters, this`made
      ensures fresh(wait) && wait.id == spare && made == old(made) + {wait}
      ensures Shows(view.waiters[fullMethod := spare], view.info[spare := Waiter(fullMethod, 1, 0, false)])
    {
      wait := new MethodWaiter(spare);
      waiters := waiters[fullMethod := wait];
      made := made + {wait};
      wait.refs := wait.refs + 1;
    }

    // getUnaryHandler up to the select: the handler, or the waiter to wait on.
    method Enter(ghost c: CallerId, ghost spare: WaiterId, fullMethod: Method) returns (handler: Option<Handler>, wait: MethodWaiter?)
      requires Valid() && c !in view.callers && spare !in view.info
      modifies this, made
      ensures Valid() && view == Apply(old(view), Call(c, fullMethod, spare))
      ensures handler.Some? ==> view.callers[c] == Done(Found(handler.value))
      ensures handler.None? ==> view.callers[c].Waiting? && wait != null && wait in made && wait.id == view.callers[c].w
      ensures made == old(made) || (wait != null && fresh(wait) && made == old(made) + {wait})
    {
      if fullMethod in methods {
        handler, wait := Some(methods[fullMethod]), null;
        view := Apply(view, Call(c, fullMethod, spare));
      } else {
        handler := None;
        wait := Join(c, spare, fullMethod);
      }
    }

    method Join(ghost c: CallerId, ghost spare: WaiterId, fullMethod: Method) returns (wait: MethodWaiter)
      requires Valid() && c !in view.callers && spare !in view.info && fullMethod !in methods
      modifies this, made
      ensures Valid() && view == Apply(old(view), Call(c, fullMethod, spare))
      ensures wait in made && wait.id == (if fullMethod in old(view).waiters then old(view).waiters[fullMethod] else spare)
      ensures made == old(made) || (fresh(wait) && made == old(made) + {wait})
    {
      if fullMethod in waiters {
        wait := waiters[fullMethod];
        ChangeRefs(view.waiters, view.info, view.waiters[fullMethod], wait, 1);
      } else {
        wait := NewWaiter(spare, fullMethod);
      }
      ghost var next := Apply(view, Call(c, fullMethod, spare));
      CallChanges(view, c, fullMethod, spare);
      assert Shows(next.waiters, next.info);
      view := next;
    }

    // The lookup after ready was closed; no handler is the internal error.
    method LookAgain(ghost c: CallerId, fullMethod: Method) returns (handler: Option<Handler>)
      requires Valid() && c in view.callers && view.callers[c].Woken? && view.callers[c].name == fullMethod
      modifies this
      ensures Valid() && made == old(made) && view == Apply(old(view), Look(c))
      ensures view.callers[c].result == if handler.Some? then Found(handler.value) else InternalError
    {
      handler := if fullMethod in methods then Some(methods[fullMethod]) else None;
      view := Apply(view, Look(c));
    }

    method Drop(ghost w: WaiterId, fullMethod: Method, wait: MethodWaiter)
      requires Shows(view.waiters, view.info) && wait in made && wait.id == w && fullMethod in waiters && waiters[fullMethod] == wait
      modifies this`waiters, wait
      ensures var refs := view.info[w].refs - 1;
              Shows(if refs <= 0 then view.waiters - {fullMethod} else view.waiters, view.info[w := view.info[w].(refs := refs)])
    {
      ChangeRefs(view.waiters, view.info, w, wait, -1);
      if wait.refs <= 0 {
        waiters := waiters - {fullMethod};
      }
    }

    method ReleaseWaiter(ghost c: CallerId, fullMethod: Method, wait: MethodWaiter)
      requires Valid() && c in view.callers && view.callers[c].Releasing?
      requires fullMethod == view.callers[c].name && wait in made && wait.id == view.callers[c].w
      modifies this, made
      ensures Valid() && made == old(made) && view == Apply(old(view), Release(c))
    {
      ReleaseChanges(view, c);
      if fullMethod in waiters && waiters[fullMethod] == wait {
        Drop(wait.id, fullMethod, wait);
      }
      RecordRelease(c);
    }

    ghost method RecordRelease(c: CallerId)
      requires methods == view.methods && Enabled(view, Release(c))
      requires Shows(Released(view, c).waiters, Released(view, c).info)
      modifies this`view
      ensures Valid() && view == Apply(old(view), Release(c))
    {
      view := Apply(view, Release(c));
    }

    // The locked part of close: the waiters become the closer's own.
    method TakeWaiters(ghost k: CloserId) returns (taken: set<MethodWaiter>)
      requires Valid() && k !in view.closers
      modifies this
      ensures Valid() && made == old(made) && view == Apply(old(view), TakeAll(k))
      ensures taken <= made && (forall w :: w in view.closers[k] <==> exists m :: m in taken && m.id == w)
    {
      taken := waiters.Values;
      waiters := map[];
      view := Apply(view, TakeAll(k));
    }

    // One round of close's unlocked loop.
    method CloseTaken(ghost k: CloserId, ghost w: WaiterId, wait: MethodWaiter)
      requires Valid() && Inv(view) && k in view.closers && w in view.closers[k] && wait in made && wait.id == w
      modifies this, made
      ensures Valid() && made == old(made) && view == Apply(old(view), CloseOne(k, w))
    {
      TakenIsOpen(view, k, w);
      CloseWaiter(view.waiters, view.info, w, wait, false);
      view := Apply(view, CloseOne(k, w));
    }
  }
}
