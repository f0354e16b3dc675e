/** The connection pool updated in place (discovery/etcd/etcd_conn.go). */
module ConnPool {
  import opened Basics
  import opened ConnPoolSpec

  // The gRPC library: dialling may fail, closing is counted.
  class Grpc {
    var next: nat
    var closes: multiset<Conn>

    constructor ()
      ensures next == 0 && closes == multiset{}
    {
      next, closes := 0, multiset{};
    }

    method NewClient(target: Target, opts: seq<DialOption>) returns (conn: Option<Conn>)
      modifies this`next
      ensures next == old(next) + 1
      ensures conn.Some? ==> conn.value == Conn(old(next), target, opts)
    {
      var fails: bool := *;
      conn := if fails then None else Some(Conn(next, target, opts));
      next := next + 1;
    }

    method Close(conn: Conn)
      modifies this`closes
      ensures closes == old(closes) + multiset{conn}
    {
      closes := closes + multiset{conn};
    }
  }

  predicate NoRepeats(conns: seq<Conn>) {
    forall i, j :: 0 <= i < j < |conns| ==> conns[i] != conns[j]
  }

  class Connections {
    const grpc: Grpc
    var endpointConnMap: map<Service, seq<Conn>>
    var serviceConns: map<Target, Conn>
    var dialOptions: seq<DialOption>
    var connectionsClosed: bool
    ghost var view: State

    ghost predicate Valid()
      reads this, grpc
    {
      && Inv(view)
      && endpointConnMap == view.pool && serviceConns == view.serving
      && dialOptions == view.options && connectionsClosed == view.closed
      && (forall c :: c in view.closes ==> c.id < grpc.next)
      && (forall c :: grpc.closes[c] == if c in view.closes then view.closes[c] else 0)
    }

    constructor ()
      ensures Valid() && view == START && fresh(grpc)
    {
      grpc := new Grpc();
      endpointConnMap, serviceConns, dialOptions, connectionsClosed := map[], map[], [], false;
      view := START;
    }

    // The locked part of syncEndpointConnMap.
    method SyncLocked(ghost k: CloserId, service: Service, addrs: seq<Target>) returns (toClose: seq<Conn>, ghost dials: seq<Option<Conn>>)
      requires Valid() && k !in view.closers
      modifies this, grpc`next
      ensures Valid() && Enabled(old(view), Sync(k, service, addrs, dials))
      ensures view == Apply(old(view), Sync(k, service, addrs, dials))
      ensures NoRepeats(toClose) && forall c :: c in toClose <==> HeldBy(view.closers, k, c)
    {
      if connectionsClosed {
        dials := seq(|addrs|, i => None);
        return [], dials;
      }
      var byTarget := OldByTarget(service);
      ghost var start := byTarget;
      var current;
      current, byTarget, dials := Dial(byTarget, addrs);
      SyncFacts(view, k, service, addrs, dials, grpc.next);
      toClose := Values(byTarget);
      endpointConnMap := endpointConnMap[service := current];
      view := Apply(view, Sync(k, service, addrs, dials));
    }

    method OldByTarget(service: Service) returns (byTarget: map<Target, Conn>)
      requires endpointConnMap == view.pool
      ensures byTarget == ByTarget(PoolOf(view, service))
    {
      var conns := if service in endpointConnMap then endpointConnMap[service] else [];
      byTarget := map[];
      for i := 0 to |conns|
        invariant byTarget == ByTarget(conns[..i])
      {
        byTarget := byTarget[conns[i].target := conns[i]];
        assert conns[..i + 1][..i] == conns[..i];
      }
      assert conns[..|conns|] == conns;
    }

    method Dial(start: map<Target, Conn>, addrs: seq<Target>) returns (current: seq<Conn>, left: map<Target, Conn>, ghost dials: seq<Option<Conn>>)
      requires dialOptions == view.options && forall c :: c in view.closes ==> c.id < grpc.next
      modifies grpc`next
      ensures grpc.next >= old(grpc.next) && NewDials(view, addrs, dials)
      ensures forall i :: 0 <= i < |dials| && dials[i].Some? ==> dials[i].value.id < grpc.next
      ensures var p := Addresses(start, addrs, dials); current == p.current && left == p.left
    {
      current, left, dials := [], start, [];
      var seen := {};
      ghost var made := {};
      for i := 0 to |addrs|
        invariant grpc.next >= old(grpc.next) && |dials| == i && NewDials(view, addrs[..i], dials)
        invariant forall j :: 0 <= j < i && dials[j].Some? ==> dials[j].value.id < grpc.next
        invariant Progress(current, left, seen, made) == Addresses(start, addrs[..i], dials)
      {
        var addr, conn := addrs[i], None;
        if addr != "" && addr !in seen {
          seen := seen + {addr};
          if addr in left {
            current, left := current + [left[addr]], left - {addr};
          } else {
            conn := grpc.NewClient(addr, dialOptions);
            if conn.Some? {
              current, made := current + [conn.value], made + {conn.value};
            }
          }
        }
        OneMoreDial(view, start, addrs, dials, i, conn);
        dials := dials + [conn];
      }
      assert addrs[..|addrs|] == addrs;
    }

    method Values(left: map<Target, Conn>) returns (conns: seq<Conn>)
      requires Keyed(left)
      ensures NoRepeats(conns) && forall c :: c in conns <==> c in left.Values
    {
      conns := [];
      var keys := left.Keys;
      while keys != {}
        invariant keys <= left.Keys && NoRepeats(conns)
        invariant forall c :: c in conns <==> exists t :: t in left && t !in keys && left[t] == c
      {
        var t :| t in keys;
        assert left[t] !in conns by {
          assert left[t].target == t;
        }
        conns, keys := conns + [left[t]], keys - {t};
      }
    }

    // GetConn under the lock: the service's connection, dialled when there is none yet.
    method GetConnLocked(target: Target) returns (conn: Option<Conn>, ghost dial: Option<Conn>)
      requires Valid()
      modifies this, grpc`next
      ensures Valid() && Enabled(old(view), GetConn(target, dial)) && view == Apply(old(view), GetConn(target, dial))
      ensures conn.Some? ==> !connectionsClosed && Serves(view.serving, target, conn.value) && view.closes[conn.value] == 0
      ensures conn.None? ==> view == old(view)
    {
      dial := None;
      if connectionsClosed {
        return None, None;
      }
      if target in serviceConns {
        ServingIsOpen(view, target);
        return Some(serviceConns[target]), None;
      }
      conn := grpc.NewClient(target, dialOptions);
      dial := conn;
      if conn.None? {
        return;
      }
      serviceConns := serviceConns[target := conn.value];
      GetConnKeeps(view, target, dial);
      view := Apply(view, GetConn(target, dial));
      ServingIsOpen(view, target);
    }

    method AddOptionLocked(ghost k: CloserId, opts: seq<DialOption>) returns (toClose: seq<Conn>)
      requires Valid() && k !in view.closers
      modifies this
      ensures Valid() && view == Apply(old(view), AddOption(k, opts))
      ensures NoRepeats(toClose) && forall c :: c in toClose <==> HeldBy(view.closers, k, c)
    {
      toClose := ResetConnMapLocked();
      dialOptions := dialOptions + opts;
      StepKeepsInv(view, AddOption(k, opts));
      view := Apply(view, AddOption(k, opts));
    }

    method ResetConnMapLocked() returns (toClose: seq<Conn>)
      requires Inv(view) && endpointConnMap == view.pool
      modifies this`endpointConnMap
      ensures endpointConnMap == map[]
      ensures NoRepeats(toClose) && forall c :: c in toClose <==> c in InPools(view.pool)
    {
      toClose := [];
      var services := endpointConnMap.Keys;
      while services != {}
        invariant services <= endpointConnMap.Keys && endpointConnMap == view.pool && NoRepeats(toClose)
        invariant forall c :: c in toClose <==> exists sv :: sv in view.pool && sv !in services && c in view.pool[sv]
      {
        var service :| service in services;
        forall c | c in toClose ensures c !in endpointConnMap[service] {
          PoolsApart(view, service, c);
        }
        TargetsApart(endpointConnMap[service]);
        AppendNoRepeats(toClose, endpointConnMap[service]);
        toClose, services := toClose + endpointConnMap[service], services - {service};
      }
      endpointConnMap := map[];
    }

    // close under the lock.
    method CloseLocked(ghost k: CloserId) returns (toClose: seq<Conn>)
      requires Valid() && k !in view.closers
      modifies this
      ensures Valid() && view == Apply(old(view), Close(k))
      ensures NoRepeats(toClose) && forall c :: c in toClose <==> HeldBy(view.closers, k, c)
    {
      connectionsClosed := true;
      var pooled := ResetConnMapLocked();
      var serving := Values(serviceConns);
      forall c | c in pooled ensures c !in serving {
        PooledNotServing(view, c);
      }
      AppendNoRepeats(pooled, serving);
      toClose := pooled + serving;
      serviceConns := map[];
      StepKeepsInv(view, Close(k));
      view := Apply(view, Close(k));
    }

    // One round of a closing loop, outside the lock.
    method CloseTaken(ghost k: CloserId, conn: Conn)
      requires Valid() && HeldBy(view.closers, k, conn)
      modifies this`view, grpc`closes
      ensures Valid() && Enabled(old(view), CloseOne(k, conn)) && view == Apply(old(view), CloseOne(k, conn))
    {
      assert At(view.ledger, conn, Closer(k));
      StepKeepsInv(view, CloseOne(k, conn));
      grpc.Close(conn);
      view := Apply(view, CloseOne(k, conn));
    }
  }

  lemma TargetsApart(conns: seq<Conn>)
    requires DistinctTargets(conns)
    ensures NoRepeats(conns)
  {
  }

  lemma PoolsApart(s: State, service: Service, c: Conn)
    requires Inv(s) && service in s.pool && exists sv :: sv in s.pool && sv != service && c in s.pool[sv]
    ensures c !in s.pool[service]
  {
    var sv :| sv in s.pool && sv != service && c in s.pool[sv];
    assert InPool(s.pool, sv, c);
    assert InPool(s.pool, service, c) <==> At(s.ledger, c, Pool(service));
  }

  lemma PooledNotServing(s: State, c: Conn)
    requires Inv(s) && c in InPools(s.pool)
    ensures c !in s.serving.Values
  {
    forall t | t in s.serving ensures s.serving[t] != c {
      PoolNotServing(s, c, t);
      assert Serves(s.serving, t, c) <==> At(s.ledger, c, Serving(t));
    }
  }

  lemma ServingIsOpen(s: State, target: Target)
    requires Inv(s) && target in s.serving
    ensures s.serving[target] in s.closes && s.closes[s.serving[target]] == 0
  {
    assert Serves(s.serving, target, s.serving[target]);
  }

  lemma SyncFacts(s: State, k: CloserId, service: Service, addrs: seq<Target>, dials: seq<Option<Conn>>, next: nat)
    requires Inv(s) && !s.closed && k !in s.closers && NewDials(s, addrs, dials)
    requires forall c :: c in s.closes ==> c.id < next
    requires forall i :: 0 <= i < |dials| && dials[i].Some? ==> dials[i].value.id < next
    ensures Keyed(Addresses(ByTarget(PoolOf(s, service)), addrs, dials).left)
    ensures var s' := Apply(s, Sync(k, service, addrs, dials));
            && Inv(s')
            && (forall c :: c in s'.closes ==> c.id < next)
            && (forall c :: c in s'.closes ==> s'.closes[c] == if c in s.closes then s.closes[c] else 0)
            && s.closes.Keys <= s'.closes.Keys
  {
    var start := ByTarget(PoolOf(s, service));
    StepKeepsInv(s, Sync(k, service, addrs, dials));
    ByTargetKeepsAll(PoolOf(s, service));
    LoopSorts(start, addrs, dials);
    forall c | c in Addresses(start, addrs, dials).made ensures c.id < next {
      var i :| 0 <= i < |dials| && dials[i] == Some(c);
    }
  }

  lemma OneMoreDial(s: State, start: map<Target, Conn>, addrs: seq<Target>, dials: seq<Option<Conn>>, i: nat, conn: Option<Conn>)
    requires i == |dials| < |addrs| && NewDials(s, addrs[..i], dials)
    requires conn.Some? ==> conn.value !in s.closes && conn.value.target == addrs[i] && conn.value.opts == s.options && conn !in dials
    ensures NewDials(s, addrs[..i + 1], dials + [conn])
    ensures Addresses(start, addrs[..i + 1], dials + [conn]) == NextAddress(Addresses(start, addrs[..i], dials), addrs[i], conn)
  {
    assert addrs[..i + 1][..i] == addrs[..i];
    assert (dials + [conn])[..i] == dials;
  }

  lemma AppendNoRepeats(a: seq<Conn>, b: seq<Conn>)
    requires NoRepeats(a) && NoRepeats(b) && forall c :: c in a ==> c !in b
    ensures NoRepeats(a + b)
  {
    forall i, j | 0 <= i < j < |a + b| ensures (a + b)[i] != (a + b)[j] {
      if i < |a| <= j {
        assert a[i] in a;
        assert b[j - |a|] in b;
      }
    }
  }
}
