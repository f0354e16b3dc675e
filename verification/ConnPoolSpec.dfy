/** Who owns which connection (discovery/etcd/etcd_conn.go). Every critical section of the pool's mutex is one
    step; connections are closed outside it, by whoever took them. */
module ConnPoolSpec {
  import opened Basics

  type Service = string
  type Target = string
  type DialOption = nat
  type CloserId = nat

  // A gRPC client connection: which dial made it, to where and with what pool-wide options.
  datatype Conn = Conn(id: nat, target: Target, opts: seq<DialOption>)

  datatype Place = Pool(service: Service) | Serving(target: Target) | Closer(k: CloserId) | Gone

  // ledger is bookkeeping that no step reads: where each connection ever made is now.
  // closers holds what a syncEndpointConnMap, AddOption or close call took and has yet to close.
  datatype State = State(pool: map<Service, seq<Conn>>, serving: map<Target, Conn>, options: seq<DialOption>, closed: bool,
                         closers: map<CloserId, set<Conn>>, closes: map<Conn, nat>, ledger: map<Conn, Place>)

  const START := State(map[], map[], [], false, map[], map[], map[])

  datatype Step =
    | Sync(k: CloserId, service: Service, addrs: seq<Target>, dials: seq<Option<Conn>>)
    | GetConn(target: Target, dial: Option<Conn>)
    | AddOption(k: CloserId, opts: seq<DialOption>)
    | Close(k: CloserId)
    | CloseOne(k: CloserId, conn: Conn)

  function PoolOf(s: State, service: Service): seq<Conn> {
    if service in s.pool then s.pool[service] else []
  }

  // The old connections by target; of two with one target the later wins.
  function ByTarget(conns: seq<Conn>): map<Target, Conn> {
    if conns == [] then map[]
    else ByTarget(conns[..|conns| - 1])[conns[|conns| - 1].target := conns[|conns| - 1]]
  }

  datatype Progress = Progress(current: seq<Conn>, left: map<Target, Conn>, seen: set<Target>, made: set<Conn>)

  function NextAddress(p: Progress, addr: Target, dial: Option<Conn>): Progress {
    if addr == "" || addr in p.seen then p
    else
      var p' := p.(seen := p.seen + {addr});
      if addr in p.left then p'.(current := p.current + [p.left[addr]], left := p.left - {addr})
      else if dial.None? then p'
      else p'.(current := p.current + [dial.value], made := p.made + {dial.value})
  }

  // The loop of syncEndpointConnMap; dials holds what dialling each address would give.
  function Addresses(stale: map<Target, Conn>, addrs: seq<Target>, dials: seq<Option<Conn>>): Progress
    requires |addrs| == |dials|
  {
    if addrs == [] then Progress([], stale, {}, {})
    else
      var n := |addrs| - 1;
      NextAddress(Addresses(stale, addrs[..n], dials[..n]), addrs[n], dials[n])
  }

  predicate NewDials(s: State, addrs: seq<Target>, dials: seq<Option<Conn>>) {
    && |addrs| == |dials|
    && (forall i :: 0 <= i < |dials| && dials[i].Some? ==>
          dials[i].value !in s.closes && dials[i].value.target == addrs[i] && dials[i].value.opts == s.options)
    && (forall i, j :: 0 <= i < j < |dials| && dials[i].Some? ==> dials[i] != dials[j])
  }

  predicate Enabled(s: State, step: Step) {
    match step
    case Sync(k, _, addrs, dials) => k !in s.closers && NewDials(s, addrs, dials)
    case GetConn(target, dial) => dial.Some? ==> dial.value !in s.closes && dial.value.target == target
    case AddOption(k, _) => k !in s.closers
    case Close(k) => k !in s.closers
    case CloseOne(k, conn) => k in s.closers && conn in s.closers[k] && conn in s.closes
  }

  function InPools(pool: map<Service, seq<Conn>>): set<Conn> {
    set service, conn | service in pool && conn in pool[service] :: conn
  }

  predicate At(ledger: map<Conn, Place>, c: Conn, place: Place) {
    c in ledger && ledger[c] == place
  }

  // The taken connections change hands.
  function Hand(ledger: map<Conn, Place>, taken: set<Conn>, to: Place): (r: map<Conn, Place>)
    ensures r.Keys == ledger.Keys + taken
    ensures forall c, place :: At(r, c, place) <==> if c in taken then place == to else At(ledger, c, place)
  {
    map conn | conn in ledger.Keys + taken :: if conn in taken then to else ledger[conn]
  }

  function Opened(closes: map<Conn, nat>, made: set<Conn>): map<Conn, nat> {
    map conn | conn in closes.Keys + made :: if conn in closes then closes[conn] else 0
  }

  function Apply(s: State, step: Step): State
    requires Enabled(s, step)
  {
    match step
    case Sync(k, service, addrs, dials) =>
      if s.closed then s
      else
        var p := Addresses(ByTarget(PoolOf(s, service)), addrs, dials);
        s.(pool := s.pool[service := p.current],
           closers := s.closers[k := p.left.Values],
           closes := Opened(s.closes, p.made),
           ledger := Hand(Hand(s.ledger, p.made, Pool(service)), p.left.Values, Closer(k)))
    case GetConn(target, dial) =>
      if s.closed || target in s.serving || dial.None? then s
      else
        s.(serving := s.serving[target := dial.value],
           closes := Opened(s.closes, {dial.value}),
           ledger := Hand(s.ledger, {dial.value}, Serving(target)))
    case AddOption(k, opts) =>
      s.(pool := map[], options := s.options + opts,
         closers := s.closers[k := InPools(s.pool)], ledger := Hand(s.ledger, InPools(s.pool), Closer(k)))
    case Close(k) =>
      var all := InPools(s.pool) + s.serving.Values;
      s.(pool := map[], serving := map[], closed := true,
         closers := s.closers[k := all], ledger := Hand(s.ledger, all, Closer(k)))
    case CloseOne(k, conn) =>
      s.(closers := s.closers[k := s.closers[k] - {conn}], closes := s.closes[conn := s.closes[conn] + 1],
         ledger := Hand(s.ledger, {conn}, Gone))
  }

  predicate IsRun(s: State, steps: seq<Step>)
    decreases |steps|
  {
    steps == [] || (Enabled(s, steps[0]) && IsRun(Apply(s, steps[0]), steps[1..]))
  }

  function After(s: State, steps: seq<Step>): State
    requires IsRun(s, steps)
    decreases |steps|
  {
    if steps == [] then s else After(Apply(s, steps[0]), steps[1..])
  }

  // ----- the address loop -----

  predicate DistinctTargets(conns: seq<Conn>) {
    forall i, j :: 0 <= i < j < |conns| ==> conns[i].target != conns[j].target
  }

  predicate Keyed(stale: map<Target, Conn>) {
    forall t :: t in stale ==> stale[t].target == t
  }

  // No two old connections share a target, so none is overwritten and forgotten.
  lemma {:induction false} ByTargetKeepsAll(conns: seq<Conn>)
    requires DistinctTargets(conns)
    ensures Keyed(ByTarget(conns)) && ByTarget(conns).Values == set c | c in conns
    ensures forall c :: c in conns ==> c.target in ByTarget(conns) && ByTarget(conns)[c.target] == c
  {
    if conns != [] {
      var n := |conns| - 1;
      var front, last := conns[..n], conns[n];
      ByTargetKeepsAll(front);
      forall c | c in conns ensures c.target in ByTarget(conns) && ByTarget(conns)[c.target] == c {
        if c != last {
          var i :| 0 <= i < n && conns[i] == c;
          assert front[i] == c;
          assert c.target != last.target;
        }
      }
      forall t | t in ByTarget(conns) ensures ByTarget(conns)[t].target == t && ByTarget(conns)[t] in conns {
        if t != last.target {
          assert ByTarget(front)[t] in ByTarget(front).Values;
        }
      }
    }
  }

  // What the loop has done with the addresses so far: each target of current was seen, appears
  // once, and is either a reused old connection, now out of old, or a newly dialled one.
  predicate Sorted(start: map<Target, Conn>, p: Progress) {
    && DistinctTargets(p.current)
    && (forall c :: c in p.current ==> c.target in p.seen)
    && (forall c :: c in p.current ==> c in p.made || (c.target in start && start[c.target] == c && c.target !in p.left))
    && (forall c :: c in p.made ==> c in p.current && c.target !in start)
    && (forall t :: t in p.left ==> t in start && p.left[t] == start[t] && t !in p.seen)
    && (forall t :: t in start && t !in p.left ==> start[t] in p.current)
  }

  lemma NextKeepsSorted(start: map<Target, Conn>, p: Progress, addr: Target, dial: Option<Conn>)
    requires Keyed(start) && Sorted(start, p) && (dial.Some? ==> dial.value.target == addr)
    ensures Sorted(start, NextAddress(p, addr, dial))
  {
    var p' := NextAddress(p, addr, dial);
    if addr != "" && addr !in p.seen && addr in start {
      assert start[addr].target == addr;
    }
  }

  lemma {:induction false} LoopSorts(start: map<Target, Conn>, addrs: seq<Target>, dials: seq<Option<Conn>>)
    requires Keyed(start) && |addrs| == |dials| && forall i :: 0 <= i < |dials| && dials[i].Some? ==> dials[i].value.target == addrs[i]
    ensures Sorted(start, Addresses(start, addrs, dials))
    ensures forall c :: c in Addresses(start, addrs, dials).made ==> Some(c) in dials
    ensures forall t :: t in Addresses(start, addrs, dials).seen <==> t in addrs && t != ""
  {
    if addrs != [] {
      var n := |addrs| - 1;
      LoopSorts(start, addrs[..n], dials[..n]);
      NextKeepsSorted(start, Addresses(start, addrs[..n], dials[..n]), addrs[n], dials[n]);
      assert addrs == addrs[..n] + [addrs[n]];
      assert dials == dials[..n] + [dials[n]];
    }
  }

  // ----- the ledger -----

  predicate InPool(pool: map<Service, seq<Conn>>, service: Service, c: Conn) {
    service in pool && c in pool[service]
  }

  predicate Serves(serving: map<Target, Conn>, t: Target, c: Conn) {
    t in serving && serving[t] == c
  }

  predicate HeldBy(closers: map<CloserId, set<Conn>>, k: CloserId, c: Conn) {
    k in closers && c in closers[k]
  }

  ghost predicate PoolsOk(pool: map<Service, seq<Conn>>, ledger: map<Conn, Place>) {
    forall service, c :: InPool(pool, service, c) <==> At(ledger, c, Pool(service))
  }

  predicate PoolsDistinct(pool: map<Service, seq<Conn>>, options: seq<DialOption>) {
    && (forall service :: service in pool ==> DistinctTargets(pool[service]))
    && (forall service, c :: service in pool && c in pool[service] ==> c.opts == options)
  }

  ghost predicate ServingOk(serving: map<Target, Conn>, ledger: map<Conn, Place>) {
    forall t, c :: Serves(serving, t, c) <==> At(ledger, c, Serving(t))
  }

  ghost predicate ClosersOk(closers: map<CloserId, set<Conn>>, ledger: map<Conn, Place>) {
    forall k, c :: HeldBy(closers, k, c) <==> At(ledger, c, Closer(k))
  }

  ghost predicate Counted(closes: map<Conn, nat>, ledger: map<Conn, Place>) {
    && closes.Keys == ledger.Keys
    && forall c :: c in closes ==> closes[c] == if At(ledger, c, Gone) then 1 else 0
  }

  ghost predicate Inv(s: State) {
    && PoolsOk(s.pool, s.ledger) && ServingOk(s.serving, s.ledger) && ClosersOk(s.closers, s.ledger)
    && PoolsDistinct(s.pool, s.options) && Keyed(s.serving) && Counted(s.closes, s.ledger)
    && (s.closed ==> s.pool == map[] && s.serving == map[])
  }

  // A service's pool is replaced: some of it is taken for closing, the rest stays, some is new.
  ghost predicate Swap(s: State, service: Service, current: seq<Conn>, taken: set<Conn>, made: set<Conn>) {
    && DistinctTargets(current)
    && (forall c :: c in taken ==> c in PoolOf(s, service)) && made !! s.ledger.Keys
    && (forall c :: c in current <==> c in made || (c in PoolOf(s, service) && c !in taken))
    && (forall c :: c in made ==> c.opts == s.options)
  }

  lemma SyncSwaps(s: State, service: Service, addrs: seq<Target>, dials: seq<Option<Conn>>)
    requires Inv(s) && NewDials(s, addrs, dials)
    ensures var p := Addresses(ByTarget(PoolOf(s, service)), addrs, dials);
            Swap(s, service, p.current, p.left.Values, p.made)
  {
    var start := ByTarget(PoolOf(s, service));
    var p := Addresses(start, addrs, dials);
    ByTargetKeepsAll(PoolOf(s, service));
    LoopSorts(start, addrs, dials);
    forall c | c in p.made ensures c !in s.ledger && c.opts == s.options {
      var i :| 0 <= i < |dials| && dials[i] == Some(c);
    }
    forall c | c in p.left.Values ensures c in PoolOf(s, service) && c !in p.current {
      var t :| t in p.left && p.left[t] == c;
      assert c in start.Values;
    }
    forall c | c in PoolOf(s, service) && c !in p.left.Values ensures c in p.current {
      assert c.target !in p.left;
    }
    forall c | c in p.current ensures c in p.made || c in PoolOf(s, service) {
      if c !in p.made {
        assert c in start.Values;
      }
    }
  }

  lemma SwapKeeps(s: State, k: CloserId, service: Service, current: seq<Conn>, taken: set<Conn>, made: set<Conn>)
    requires Inv(s) && !s.closed && k !in s.closers && Swap(s, service, current, taken, made)
    ensures Inv(s.(pool := s.pool[service := current], closers := s.closers[k := taken], closes := Opened(s.closes, made),
                   ledger := Hand(Hand(s.ledger, made, Pool(service)), taken, Closer(k))))
  {
    var pool := s.pool[service := current];
    var ledger := Hand(Hand(s.ledger, made, Pool(service)), taken, Closer(k));
    forall sv, c ensures InPool(pool, sv, c) <==> At(ledger, c, Pool(sv)) {
      assert InPool(s.pool, sv, c) <==> At(s.ledger, c, Pool(sv));
      assert InPool(s.pool, service, c) <==> At(s.ledger, c, Pool(service));
    }
    SwapLeaves(s, k, service, taken, made);
  }

  lemma SwapLeaves(s: State, k: CloserId, service: Service, taken: set<Conn>, made: set<Conn>)
    requires Inv(s) && k !in s.closers && made !! s.ledger.Keys && forall c :: c in taken ==> InPool(s.pool, service, c)
    ensures var ledger := Hand(Hand(s.ledger, made, Pool(service)), taken, Closer(k));
            ServingOk(s.serving, ledger) && ClosersOk(s.closers[k := taken], ledger) && Counted(Opened(s.closes, made), ledger)
  {
    var ledger := Hand(Hand(s.ledger, made, Pool(service)), taken, Closer(k));
    forall c | c in taken ensures At(s.ledger, c, Pool(service)) {}
    forall t, c ensures Serves(s.serving, t, c) <==> At(ledger, c, Serving(t)) {
      assert Serves(s.serving, t, c) <==> At(s.ledger, c, Serving(t));
    }
    forall l, c ensures HeldBy(s.closers[k := taken], l, c) <==> At(ledger, c, Closer(l)) {
      assert HeldBy(s.closers, l, c) <==> At(s.ledger, c, Closer(l));
    }
  }

  // AddOption takes all pools, close the serving connections too.
  lemma TakeKeeps(s: State, k: CloserId, taken: set<Conn>, serving: map<Target, Conn>)
    requires Inv(s) && k !in s.closers
    requires (serving == s.serving && taken == InPools(s.pool)) || (serving == map[] && taken == InPools(s.pool) + s.serving.Values)
    ensures var ledger := Hand(s.ledger, taken, Closer(k));
            PoolsOk(map[], ledger) && ServingOk(serving, ledger) && ClosersOk(s.closers[k := taken], ledger) && Counted(s.closes, ledger)
  {
    var ledger := Hand(s.ledger, taken, Closer(k));
    forall sv, c ensures InPool(map[], sv, c) <==> At(ledger, c, Pool(sv)) {
      assert InPool(s.pool, sv, c) <==> At(s.ledger, c, Pool(sv));
      assert InPool(s.pool, sv, c) ==> c in taken;
    }
    forall c | c in taken ensures c in s.ledger && !At(s.ledger, c, Gone) && forall l :: !At(s.ledger, c, Closer(l)) {
      TakenWhere(s, c);
    }
    forall t, c ensures Serves(serving, t, c) <==> At(ledger, c, Serving(t)) {
      assert Serves(s.serving, t, c) <==> At(s.ledger, c, Serving(t));
      TakenOrServing(s, t, c, taken, serving);
    }
    forall l, c ensures HeldBy(s.closers[k := taken], l, c) <==> At(ledger, c, Closer(l)) {
      assert HeldBy(s.closers, l, c) <==> At(s.ledger, c, Closer(l));
    }
  }

  lemma TakenWhere(s: State, c: Conn)
    requires Inv(s) && c in InPools(s.pool) + s.serving.Values
    ensures c in s.ledger && !At(s.ledger, c, Gone) && forall l :: !At(s.ledger, c, Closer(l))
  {
    if c in InPools(s.pool) {
      var sv :| sv in s.pool && c in s.pool[sv];
      assert InPool(s.pool, sv, c);
    } else {
      var t :| t in s.serving && s.serving[t] == c;
      assert Serves(s.serving, t, c);
    }
  }

  lemma PoolNotServing(s: State, c: Conn, t: Target)
    requires Inv(s) && c in InPools(s.pool)
    ensures !At(s.ledger, c, Serving(t))
  {
    var sv :| sv in s.pool && c in s.pool[sv];
    assert InPool(s.pool, sv, c);
  }

  lemma TakenOrServing(s: State, t: Target, c: Conn, taken: set<Conn>, serving: map<Target, Conn>)
    requires Inv(s)
    requires (serving == s.serving && taken == InPools(s.pool)) || (serving == map[] && taken == InPools(s.pool) + s.serving.Values)
    ensures At(s.ledger, c, Serving(t)) ==> if serving == map[] then c in taken else c !in taken
  {
    if At(s.ledger, c, Serving(t)) {
      assert Serves(s.serving, t, c);
      assert c in s.serving.Values;
    }
    if c in InPools(s.pool) {
      PoolNotServing(s, c, t);
    }
  }

  lemma GetConnKeeps(s: State, target: Target, dial: Option<Conn>)
    requires Inv(s) && Enabled(s, GetConn(target, dial))
    ensures Inv(Apply(s, GetConn(target, dial)))
  {
    if !s.closed && target !in s.serving && dial.Some? {
      var conn := dial.value;
      var serving, ledger := s.serving[target := conn], Hand(s.ledger, {conn}, Serving(target));
      forall place ensures !At(s.ledger, conn, place) {}
      forall t, c ensures Serves(serving, t, c) <==> At(ledger, c, Serving(t)) {
        assert Serves(s.serving, t, c) <==> At(s.ledger, c, Serving(t));
      }
      forall sv, c ensures InPool(s.pool, sv, c) <==> At(ledger, c, Pool(sv)) {
        assert InPool(s.pool, sv, c) <==> At(s.ledger, c, Pool(sv));
      }
      forall l, c ensures HeldBy(s.closers, l, c) <==> At(ledger, c, Closer(l)) {
        assert HeldBy(s.closers, l, c) <==> At(s.ledger, c, Closer(l));
      }
    }
  }

  lemma CloseOneKeeps(s: State, k: CloserId, conn: Conn)
    requires Inv(s) && Enabled(s, CloseOne(k, conn))
    ensures Inv(Apply(s, CloseOne(k, conn)))
  {
    var closers, ledger := s.closers[k := s.closers[k] - {conn}], Hand(s.ledger, {conn}, Gone);
    assert HeldBy(s.closers, k, conn);
    forall l, c ensures HeldBy(closers, l, c) <==> At(ledger, c, Closer(l)) {
      assert HeldBy(s.closers, l, c) <==> At(s.ledger, c, Closer(l));
    }
    forall sv, c ensures InPool(s.pool, sv, c) <==> At(ledger, c, Pool(sv)) {
      assert InPool(s.pool, sv, c) <==> At(s.ledger, c, Pool(sv));
    }
    forall t, c ensures Serves(s.serving, t, c) <==> At(ledger, c, Serving(t)) {
      assert Serves(s.serving, t, c) <==> At(s.ledger, c, Serving(t));
    }
  }

  lemma StepKeepsInv(s: State, step: Step)
    requires Inv(s) && Enabled(s, step)
    ensures Inv(Apply(s, step))
  {
    match step
    case Sync(k, service, addrs, dials) =>
      if !s.closed {
        var p := Addresses(ByTarget(PoolOf(s, service)), addrs, dials);
        SyncSwaps(s, service, addrs, dials);
        SwapKeeps(s, k, service, p.current, p.left.Values, p.made);
      }
    case GetConn(target, dial) => GetConnKeeps(s, target, dial);
    case AddOption(k, opts) => TakeKeeps(s, k, InPools(s.pool), s.serving);
    case Close(k) => TakeKeeps(s, k, InPools(s.pool) + s.serving.Values, map[]);
    case CloseOne(k, conn) => CloseOneKeeps(s, k, conn);
  }

  lemma {:induction false} RunKeepsInv(s: State, steps: seq<Step>)
    requires Inv(s) && IsRun(s, steps)
    ensures Inv(After(s, steps))
    decreases |steps|
  {
    if steps != [] {
      StepKeepsInv(s, steps[0]);
      RunKeepsInv(Apply(s, steps[0]), steps[1..]);
    }
  }

  // ----- main results -----

  // Where the pool's own fields show a connection, and how often.
  function Places(s: State, c: Conn): set<Place> {
    (set service | service in s.pool && InPool(s.pool, service, c) :: Pool(service)) +
    (set t | t in s.serving && Serves(s.serving, t, c) :: Serving(t)) +
    (set k | k in s.closers && HeldBy(s.closers, k, c) :: Closer(k))
  }

  // Every connection ever opened is in exactly one place, and there once, until it has been closed
  // exactly once; then it is in none. Nothing else is in any place.
  lemma Ledger(steps: seq<Step>, c: Conn)
    requires IsRun(START, steps)
    ensures var s := After(START, steps);
            && (c !in s.closes ==> Places(s, c) == {})
            && (c in s.closes ==> s.closes[c] <= 1 && (s.closes[c] == 1 <==> Places(s, c) == {}))
            && (c in s.closes && s.closes[c] == 0 ==> exists place :: Places(s, c) == {place})
            && (forall service :: service in s.pool && c in s.pool[service] ==> multiset(s.pool[service])[c] == 1)
  {
    RunKeepsInv(START, steps);
    var s := After(START, steps);
    forall place ensures place in Places(s, c) <==> At(s.ledger, c, place) && place != Gone {
      match place
      case Pool(service) => assert InPool(s.pool, service, c) <==> At(s.ledger, c, place);
      case Serving(t) => assert Serves(s.serving, t, c) <==> At(s.ledger, c, place);
      case Closer(k) => assert HeldBy(s.closers, k, c) <==> At(s.ledger, c, place);
      case Gone =>
    }
    if c in s.ledger && s.ledger[c] != Gone {
      assert Places(s, c) == {s.ledger[c]};
    } else {
      assert Places(s, c) == {};
    }
    forall service | service in s.pool && c in s.pool[service] ensures multiset(s.pool[service])[c] == 1 {
      OccursOnce(s.pool[service], c);
    }
  }

  lemma OccursOnce(conns: seq<Conn>, c: Conn)
    requires DistinctTargets(conns) && c in conns
    ensures multiset(conns)[c] == 1
  {
    var i :| 0 <= i < |conns| && conns[i] == c;
    assert conns == conns[..i] + [c] + conns[i + 1..];
    assert c !in conns[..i] && c !in conns[i + 1..];
  }

  // A pool lists each target once, and only connections dialled with the options now in force.
  lemma PoolsAreCurrent(steps: seq<Step>, service: Service)
    requires IsRun(START, steps) && service in After(START, steps).pool
    ensures var s := After(START, steps);
            DistinctTargets(s.pool[service]) && forall c :: c in s.pool[service] ==> c.opts == s.options
  {
    RunKeepsInv(START, steps);
  }

  lemma OpenIsHeld(s: State, c: Conn)
    requires Inv(s) && c in s.closes && s.closes[c] != 1
    ensures (exists sv :: InPool(s.pool, sv, c)) || (exists t :: Serves(s.serving, t, c)) || (exists k :: HeldBy(s.closers, k, c))
  {
    assert s.ledger[c] == Gone ==> At(s.ledger, c, Gone);
    match s.ledger[c]
    case Pool(service) => assert InPool(s.pool, service, c) <==> At(s.ledger, c, Pool(service));
    case Serving(t) => assert Serves(s.serving, t, c) <==> At(s.ledger, c, Serving(t));
    case Closer(k) => assert HeldBy(s.closers, k, c) <==> At(s.ledger, c, Closer(k));
    case Gone =>
  }

  // After close nothing is opened any more, whatever is called, and once the closers are through
  // everything that was ever opened has been closed.
  lemma {:induction false} NothingOpensAfterClose(s: State, steps: seq<Step>)
    requires Inv(s) && s.closed && IsRun(s, steps)
    ensures var e := After(s, steps);
            && e.closed && e.closes.Keys == s.closes.Keys
            && ((forall k :: k in e.closers ==> e.closers[k] == {}) ==> forall c :: c in e.closes ==> e.closes[c] == 1)
    decreases |steps|
  {
    if steps == [] {
      forall c | c in s.closes && forall k :: k in s.closers ==> s.closers[k] == {} ensures s.closes[c] == 1 {
        if s.closes[c] != 1 {
          OpenIsHeld(s, c);
        }
      }
    } else {
      StepKeepsInv(s, steps[0]);
      NothingOpensAfterClose(Apply(s, steps[0]), steps[1..]);
    }
  }

  predicate Lists(conns: seq<Conn>, t: Target) {
    exists c :: c in conns && c.target == t
  }

  predicate ListsSeen(p: Progress) {
    forall t :: t in p.seen ==> Lists(p.current, t)
  }

  predicate AllDial(dials: seq<Option<Conn>>) {
    forall i :: 0 <= i < |dials| ==> dials[i].Some?
  }

  // A sync reuses every old connection whose address is still there, gives the others to its closer,
  // and lists just the old and dialled addresses; with working dials, all addresses but the empty one.
  lemma SyncFollowsAddresses(s: State, service: Service, addrs: seq<Target>, dials: seq<Option<Conn>>, k: CloserId)
    requires Inv(s) && !s.closed && Enabled(s, Sync(k, service, addrs, dials))
    ensures var s' := Apply(s, Sync(k, service, addrs, dials));
            && (forall c :: c in PoolOf(s, service) ==>
                  if c.target in addrs && c.target != "" then c in s'.pool[service] else c in s'.closers[k])
            && (forall c :: c in s'.pool[service] ==> c.target in addrs && c.target != "" && (c in PoolOf(s, service) || Some(c) in dials))
            && (AllDial(dials) ==>
                  forall t :: t in addrs && t != "" ==> Lists(s'.pool[service], t))
  {
    var start := ByTarget(PoolOf(s, service));
    var p := Addresses(start, addrs, dials);
    ByTargetKeepsAll(PoolOf(s, service));
    LoopSorts(start, addrs, dials);
    SyncSwaps(s, service, addrs, dials);
    LoopSeesAll(start, addrs, dials);
    forall c | c in PoolOf(s, service)
      ensures if c.target in addrs && c.target != "" then c in p.current else c in p.left.Values
    {
      assert c.target in start && start[c.target] == c;
      if c.target in p.left {
        assert p.left[c.target] == c;
      }
    }
  }

  // Every address seen is listed, unless it was neither held before nor could be dialled.
  lemma {:induction false} LoopSeesAll(start: map<Target, Conn>, addrs: seq<Target>, dials: seq<Option<Conn>>)
    requires Keyed(start) && |addrs| == |dials| && forall i :: 0 <= i < |dials| && dials[i].Some? ==> dials[i].value.target == addrs[i]
    ensures AllDial(dials) ==> ListsSeen(Addresses(start, addrs, dials))
  {
    if addrs != [] && AllDial(dials) {
      var n := |addrs| - 1;
      var was, p := Addresses(start, addrs[..n], dials[..n]), Addresses(start, addrs, dials);
      LoopSeesAll(start, addrs[..n], dials[..n]);
      LoopSorts(start, addrs[..n], dials[..n]);
      assert AllDial(dials[..n]);
      forall t | t in p.seen ensures Lists(p.current, t) {
        if t in was.seen {
          var c :| c in was.current && c.target == t;
          assert c in p.current;
        } else {
          var c := if t in was.left then was.left[t] else dials[n].value;
          assert p.current == was.current + [c];
        }
      }
    }
  }
}
