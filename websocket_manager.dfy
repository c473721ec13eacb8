/** The backend's WebSocket registry: per-service connection managers, the
    list of global connections, broadcasts that drop every connection whose
    send failed, the typed events the service pushes and the connection
    counts. A socket is known by its identity; whether a send succeeds is an
    input, one outcome per attempted send. */
module WebSockets {
  import opened Counting
  import LP = LogProcessor

  type Socket = nat

  /** The service name that selects the global connections. */
  const GLOBAL: string := "global"

  // ---------------------------------------------------------------------------
  // Removing connections
  // ---------------------------------------------------------------------------

  /** `if x in xs: xs.remove(x)`: the first occurrence of `x` goes. */
  function RemoveFirst(xs: seq<Socket>, x: Socket): seq<Socket> {
    if xs == [] then []
    else
      var init, last := xs[..|xs| - 1], xs[|xs| - 1];
      if x in init then RemoveFirst(init, x) + [last]
      else if last == x then init
      else xs
  }

  /** Removal takes out one occurrence of a present socket and leaves a list
      without it unchanged. */
  lemma {:induction false} RemoveFirstSpec(xs: seq<Socket>, x: Socket)
    ensures multiset(RemoveFirst(xs, x)) == multiset(xs) - multiset{x}
    ensures x !in xs ==> RemoveFirst(xs, x) == xs
    ensures |RemoveFirst(xs, x)| == if x in xs then |xs| - 1 else |xs|
    decreases |xs|
  {
    if xs != [] {
      var init, last := xs[..|xs| - 1], xs[|xs| - 1];
      assert xs == init + [last];
      if x in init {
        RemoveFirstSpec(init, x);
        assert multiset(xs) == multiset(init) + multiset{last};
      } else if last == x {
        assert multiset(xs) == multiset(init) + multiset{x};
      } else {
        assert x !in xs;
      }
    }
  }

  /** The connections whose send failed, in list order (`dead_connections`). */
  function Failed(conns: seq<Socket>, delivered: seq<bool>): seq<Socket>
    requires |delivered| == |conns|
  {
    if conns == [] then []
    else
      var n := |conns| - 1;
      Failed(conns[..n], delivered[..n]) + (if delivered[n] then [] else [conns[n]])
  }

  /** The connections whose send succeeded, in list order. */
  function Survivors(conns: seq<Socket>, delivered: seq<bool>): seq<Socket>
    requires |delivered| == |conns|
  {
    if conns == [] then []
    else
      var n := |conns| - 1;
      Survivors(conns[..n], delivered[..n]) + (if delivered[n] then [conns[n]] else [])
  }

  /** The clean-up loop: each dead connection is removed in turn. */
  function RemoveEach(xs: seq<Socket>, dead: seq<Socket>): seq<Socket>
    decreases |dead|
  {
    if dead == [] then xs else RemoveEach(RemoveFirst(xs, dead[0]), dead[1..])
  }

  /** The connection list after a broadcast with the given outcomes. */
  function AfterBroadcast(conns: seq<Socket>, delivered: seq<bool>): seq<Socket>
    requires |delivered| == |conns|
  {
    RemoveEach(conns, Failed(conns, delivered))
  }

  lemma {:induction false} FailedSurvivorsSplit(conns: seq<Socket>, delivered: seq<bool>)
    requires |delivered| == |conns|
    ensures multiset(Survivors(conns, delivered)) + multiset(Failed(conns, delivered)) == multiset(conns)
    ensures forall x :: x in Failed(conns, delivered) ==> x in conns
    decreases |conns|
  {
    if conns != [] {
      var n := |conns| - 1;
      FailedSurvivorsSplit(conns[..n], delivered[..n]);
      assert conns == conns[..n] + [conns[n]];
      assert multiset(conns) == multiset(conns[..n]) + multiset{conns[n]};
    }
  }

  lemma {:induction false} RemoveEachMultiset(xs: seq<Socket>, dead: seq<Socket>)
    ensures multiset(RemoveEach(xs, dead)) == multiset(xs) - multiset(dead)
    decreases |dead|
  {
    if dead != [] {
      RemoveFirstSpec(xs, dead[0]);
      RemoveEachMultiset(RemoveFirst(xs, dead[0]), dead[1..]);
      assert dead == [dead[0]] + dead[1..];
      assert multiset(dead) == multiset{dead[0]} + multiset(dead[1..]);
    }
  }

  /** After a broadcast exactly the connections whose send succeeded remain,
      as many times as they were listed, so the list shrinks by the number of
      failed sends. */
  lemma BroadcastRemovesFailed(conns: seq<Socket>, delivered: seq<bool>)
    requires |delivered| == |conns|
    ensures multiset(AfterBroadcast(conns, delivered)) == multiset(Survivors(conns, delivered))
    ensures |AfterBroadcast(conns, delivered)| == |conns| - |Failed(conns, delivered)|
  {
    var f, s := Failed(conns, delivered), Survivors(conns, delivered);
    FailedSurvivorsSplit(conns, delivered);
    RemoveEachMultiset(conns, f);
    assert multiset(conns) - multiset(f) == multiset(s);
    assert |multiset(AfterBroadcast(conns, delivered))| == |multiset(s)|;
    assert |multiset(conns)| == |multiset(s)| + |multiset(f)|;
  }

  // --- Order, for lists without repeated connections -------------------------

  /** The members of `xs` outside `gone`, in order. */
  function Without(xs: seq<Socket>, gone: set<Socket>): seq<Socket> {
    if xs == [] then []
    else
      var n := |xs| - 1;
      Without(xs[..n], gone) + (if xs[n] in gone then [] else [xs[n]])
  }

  function Elems(xs: seq<Socket>): set<Socket> {
    set x | x in xs
  }

  lemma {:induction false} WithoutMembers(xs: seq<Socket>, gone: set<Socket>)
    ensures forall x :: x in Without(xs, gone) <==> x in xs && x !in gone
    ensures Distinct(xs) ==> Distinct(Without(xs, gone))
    decreases |xs|
  {
    if xs != [] {
      var n := |xs| - 1;
      WithoutMembers(xs[..n], gone);
      assert xs == xs[..n] + [xs[n]];
      if Distinct(xs) {
        assert Distinct(xs[..n]);
        var w := Without(xs, gone);
        forall i, j | 0 <= i < j < |w| ensures w[i] != w[j] {
          if j == |w| - 1 && xs[n] !in gone {
            assert w[i] in Without(xs[..n], gone);
          }
        }
      }
    }
  }

  /** Leaving out sockets the list does not hold changes nothing. */
  lemma {:induction false} WithoutIgnores(xs: seq<Socket>, gone: set<Socket>, x: Socket)
    requires x !in xs
    ensures Without(xs, gone + {x}) == Without(xs, gone - {x})
    decreases |xs|
  {
    if xs != [] {
      WithoutIgnores(xs[..|xs| - 1], gone, x);
    }
  }

  lemma {:induction false} WithoutTwice(xs: seq<Socket>, a: set<Socket>, b: set<Socket>)
    ensures Without(Without(xs, a), b) == Without(xs, a + b)
    decreases |xs|
  {
    if xs != [] {
      var n := |xs| - 1;
      var init, c := xs[..n], xs[n];
      WithoutTwice(init, a, b);
      var w := Without(init, a);
      if c in a {
        assert Without(xs, a) == w;
        assert Without(xs, a + b) == Without(init, a + b);
      } else {
        var wc := w + [c];
        assert Without(xs, a) == wc;
        assert wc[..|wc| - 1] == w && wc[|wc| - 1] == c;
        assert Without(wc, b) == Without(w, b) + (if c in b then [] else [c]);
        assert Without(xs, a + b) == Without(init, a + b) + (if c in b then [] else [c]);
      }
    }
  }

  lemma {:induction false} RemoveFirstDistinct(xs: seq<Socket>, x: Socket)
    requires Distinct(xs)
    ensures RemoveFirst(xs, x) == Without(xs, {x})
    decreases |xs|
  {
    if xs != [] {
      var n := |xs| - 1;
      var init, last := xs[..n], xs[n];
      assert Distinct(init);
      assert xs == init + [last];
      if x in init {
        RemoveFirstDistinct(init, x);
        assert last != x;
        assert RemoveFirst(xs, x) == RemoveFirst(init, x) + [last];
        assert Without(xs, {x}) == Without(init, {x}) + [last];
      } else {
        WithoutExcluded(init, x);
        if last == x {
          assert Without(xs, {x}) == Without(init, {x});
        } else {
          assert Without(xs, {x}) == Without(init, {x}) + [last];
        }
      }
    }
  }

  lemma WithoutExcluded(xs: seq<Socket>, x: Socket)
    requires x !in xs
    ensures Without(xs, {x}) == xs
  {
    WithoutIgnores(xs, {}, x);
    WithoutNone(xs);
    assert {} + {x} == {x} && {} - {x} == {};
  }

  lemma {:induction false} WithoutNone(xs: seq<Socket>)
    ensures Without(xs, {}) == xs
    decreases |xs|
  {
    if xs != [] {
      WithoutNone(xs[..|xs| - 1]);
      assert xs == xs[..|xs| - 1] + [xs[|xs| - 1]];
    }
  }

  lemma {:induction false} RemoveEachDistinct(xs: seq<Socket>, dead: seq<Socket>)
    requires Distinct(xs)
    ensures RemoveEach(xs, dead) == Without(xs, Elems(dead))
    decreases |dead|
  {
    if dead == [] {
      WithoutNone(xs);
      assert Elems(dead) == {};
    } else {
      var d := dead[0];
      RemoveFirstDistinct(xs, d);
      WithoutMembers(xs, {d});
      RemoveEachDistinct(Without(xs, {d}), dead[1..]);
      WithoutTwice(xs, {d}, Elems(dead[1..]));
      assert {d} + Elems(dead[1..]) == Elems(dead) by {
        assert dead == [d] + dead[1..];
      }
    }
  }

  lemma {:induction false} SurvivorsWithout(conns: seq<Socket>, delivered: seq<bool>)
    requires |delivered| == |conns| && Distinct(conns)
    ensures Survivors(conns, delivered) == Without(conns, Elems(Failed(conns, delivered)))
    decreases |conns|
  {
    if conns != [] {
      var n := |conns| - 1;
      var init, c := conns[..n], conns[n];
      assert conns == init + [c];
      assert Distinct(init) && c !in init;
      var f0 := Failed(init, delivered[..n]);
      SurvivorsWithout(init, delivered[..n]);
      FailedSurvivorsSplit(init, delivered[..n]);
      assert c !in f0;
      var f := Failed(conns, delivered);
      if delivered[n] {
        assert Elems(f) == Elems(f0);
      } else {
        assert Elems(f) == Elems(f0) + {c};
        WithoutIgnores(init, Elems(f0), c);
        assert Elems(f0) - {c} == Elems(f0);
      }
    }
  }

  /** When no connection is listed twice, a broadcast leaves exactly the
      connections whose send succeeded, in their original order: every
      failed one is gone. */
  lemma BroadcastKeepsOrder(conns: seq<Socket>, delivered: seq<bool>)
    requires |delivered| == |conns| && Distinct(conns)
    ensures AfterBroadcast(conns, delivered) == Survivors(conns, delivered)
    ensures forall i :: 0 <= i < |conns| && !delivered[i] ==> conns[i] !in AfterBroadcast(conns, delivered)
  {
    RemoveEachDistinct(conns, Failed(conns, delivered));
    SurvivorsWithout(conns, delivered);
    WithoutMembers(conns, Elems(Failed(conns, delivered)));
    forall i | 0 <= i < |conns| && !delivered[i] ensures conns[i] in Failed(conns, delivered) {
      FailedIndex(conns, delivered, i);
    }
  }

  lemma {:induction false} FailedIndex(conns: seq<Socket>, delivered: seq<bool>, i: nat)
    requires |delivered| == |conns| && i < |conns| && !delivered[i]
    ensures conns[i] in Failed(conns, delivered)
    decreases |conns|
  {
    var n := |conns| - 1;
    if i < n {
      FailedIndex(conns[..n], delivered[..n], i);
    }
  }

  // --- The two loops of a broadcast -----------------------------------------

  /** The send loop: one attempt per connection, collecting the failures. */
  method SendAll(conns: seq<Socket>, delivered: seq<bool>) returns (dead: seq<Socket>)
    requires |delivered| == |conns|
    ensures dead == Failed(conns, delivered)
  {
    dead := [];
    for i := 0 to |conns|
      invariant dead == Failed(conns[..i], delivered[..i])
    {
      assert conns[..i + 1][..i] == conns[..i] && delivered[..i + 1][..i] == delivered[..i];
      if !delivered[i] {
        dead := dead + [conns[i]];
      }
    }
    assert conns[..|conns|] == conns && delivered[..|conns|] == delivered;
  }

  lemma RemoveEachStep(xs: seq<Socket>, dead: seq<Socket>, i: nat)
    requires i < |dead|
    ensures RemoveEach(xs, dead[i..]) == RemoveEach(RemoveFirst(xs, dead[i]), dead[i + 1..])
  {
    assert dead[i..][1..] == dead[i + 1..];
  }

  // ---------------------------------------------------------------------------
  // One service's connections
  // ---------------------------------------------------------------------------

  class ConnectionManager {
    const serviceName: string
    var activeConnections: seq<Socket>

    constructor(serviceName: string)
      ensures this.serviceName == serviceName && activeConnections == []
    {
      this.serviceName := serviceName;
      activeConnections := [];
    }

    /** `connect`, once the socket is accepted. */
    method Connect(w: Socket)
      modifies this
      ensures activeConnections == old(activeConnections) + [w]
    {
      activeConnections := activeConnections + [w];
    }

    /** `disconnect`: removes one occurrence, or nothing if the socket is not
        listed. */
    method Disconnect(w: Socket)
      modifies this
      ensures activeConnections == RemoveFirst(old(activeConnections), w)
      ensures w !in old(activeConnections) ==> activeConnections == old(activeConnections)
    {
      RemoveFirstSpec(activeConnections, w);
      if w in activeConnections {
        activeConnections := RemoveFirst(activeConnections, w);
      }
    }

    /** `send_personal_message`: a failed send disconnects the socket. */
    method SendPersonalMessage(w: Socket, delivered: bool)
      modifies this
      ensures activeConnections == if delivered then old(activeConnections) else RemoveFirst(old(activeConnections), w)
    {
      if !delivered {
        Disconnect(w);
      }
    }

    /** `broadcast`: one send per connection, in order, then every failed
        connection is disconnected. */
    method Broadcast(delivered: seq<bool>) returns (attempted: seq<Socket>)
      requires |delivered| == |activeConnections|
      modifies this
      ensures attempted == old(activeConnections)
      ensures activeConnections == AfterBroadcast(old(activeConnections), delivered)
    {
      attempted := activeConnections;
      if activeConnections == [] {
        return;
      }
      var dead := SendAll(activeConnections, delivered);
      ghost var target := AfterBroadcast(attempted, delivered);
      for i := 0 to |dead|
        invariant RemoveEach(activeConnections, dead[i..]) == target
      {
        RemoveEachStep(activeConnections, dead, i);
        Disconnect(dead[i]);
      }
    }

    function IsActive(): bool
      reads this
    {
      |activeConnections| > 0
    }

    function ConnectionCount(): nat
      reads this
    {
      |activeConnections|
    }
  }

  // ---------------------------------------------------------------------------
  // Events
  // ---------------------------------------------------------------------------

  /** The messages the manager pushes; `timestamp` is `utcnow()`. */
  datatype Event =
    | HealthUpdate(service: string, health: LP.ServiceHealth, timestamp: int)
    | StatsUpdate(stats: LP.ProcessingStats, timestamp: int)
    | AnomalyAlert(service: string, anomalyData: string, timestamp: int)
    | Heartbeat(timestamp: int, activeServices: nat, totalConnections: nat)
    | Pong(timestamp: int)

  /** An incoming message, once `json.loads` has run on it. */
  datatype Incoming = Ping | Subscribe | GetHealth | OtherType | Malformed

  datatype Delivery = Delivery(socket: Socket, event: Event)

  /** One send of `e` to each of `conns`, in order. */
  function Sends(conns: seq<Socket>, e: Event): (r: seq<Delivery>)
    ensures |r| == |conns| && forall i :: 0 <= i < |conns| ==> r[i] == Delivery(conns[i], e)
  {
    seq(|conns|, i requires 0 <= i < |conns| => Delivery(conns[i], e))
  }

  // ---------------------------------------------------------------------------
  // Sums over the services, in the manager map's key order
  // ---------------------------------------------------------------------------

  function SumSizes(keys: seq<string>, conns: map<string, seq<Socket>>): nat
    requires forall k :: k in keys ==> k in conns
  {
    if keys == [] then 0 else |conns[keys[0]]| + SumSizes(keys[1..], conns)
  }

  lemma {:induction false} SumSizesOutside(keys: seq<string>, conns: map<string, seq<Socket>>,
                                           other: map<string, seq<Socket>>)
    requires forall k :: k in keys ==> k in conns && k in other && conns[k] == other[k]
    ensures SumSizes(keys, conns) == SumSizes(keys, other)
  {
    if keys != [] {
      SumSizesOutside(keys[1..], conns, other);
    }
  }

  lemma {:induction false} SumSizesUpdate(keys: seq<string>, conns: map<string, seq<Socket>>, s: string, v: seq<Socket>)
    requires LP.NoDup(keys) && s in keys && forall k :: k in keys ==> k in conns
    ensures SumSizes(keys, conns[s := v]) + |conns[s]| == SumSizes(keys, conns) + |v|
  {
    if keys[0] == s {
      assert s !in keys[1..] by { LP.NoDupTail(keys); }
      SumSizesOutside(keys[1..], conns[s := v], conns);
    } else {
      LP.NoDupTail(keys);
      SumSizesUpdate(keys[1..], conns, s, v);
    }
  }

  lemma {:induction false} SumSizesSnoc(keys: seq<string>, conns: map<string, seq<Socket>>, s: string)
    requires forall k :: k in keys + [s] ==> k in conns
    ensures SumSizes(keys + [s], conns) == SumSizes(keys, conns) + |conns[s]|
  {
    if keys != [] {
      assert (keys + [s])[1..] == keys[1..] + [s];
      SumSizesSnoc(keys[1..], conns, s);
    }
  }

  lemma {:induction false} SumSizesRemove(keys: seq<string>, conns: map<string, seq<Socket>>, s: string)
    requires LP.NoDup(keys) && s in keys && forall k :: k in keys ==> k in conns
    ensures forall k :: k in LP.RemoveKey(keys, s) ==> k in conns - {s}
    ensures SumSizes(LP.RemoveKey(keys, s), conns - {s}) + |conns[s]| == SumSizes(keys, conns)
  {
    LP.NoDupTail(keys);
    if keys[0] == s {
      assert s !in keys[1..];
      assert LP.RemoveKey(keys[1..], s) == keys[1..] by { RemoveKeyAbsent(keys[1..], s); }
      SumSizesOutside(keys[1..], conns - {s}, conns);
    } else {
      SumSizesRemove(keys[1..], conns, s);
    }
  }

  lemma {:induction false} RemoveKeyAbsent(keys: seq<string>, s: string)
    requires s !in keys
    ensures LP.RemoveKey(keys, s) == keys
  {
    if keys != [] {
      RemoveKeyAbsent(keys[1..], s);
    }
  }

  /** The sockets `cleanup` closes: each service's, in key order, then the
      global ones. */
  function AllSockets(keys: seq<string>, conns: map<string, seq<Socket>>): seq<Socket>
    requires forall k :: k in keys ==> k in conns
  {
    if keys == [] then [] else conns[keys[0]] + AllSockets(keys[1..], conns)
  }

  lemma {:induction false} AllSocketsSnoc(keys: seq<string>, conns: map<string, seq<Socket>>, s: string)
    requires forall k :: k in keys + [s] ==> k in conns
    ensures AllSockets(keys + [s], conns) == AllSockets(keys, conns) + conns[s]
  {
    if keys != [] {
      assert (keys + [s])[1..] == keys[1..] + [s];
      AllSocketsSnoc(keys[1..], conns, s);
    }
  }

  /** Every connection is closed once: as many sockets are closed as there
      are connections. */
  lemma {:induction false} AllSocketsCount(keys: seq<string>, conns: map<string, seq<Socket>>)
    requires forall k :: k in keys ==> k in conns
    ensures |AllSockets(keys, conns)| == SumSizes(keys, conns)
  {
    if keys != [] {
      AllSocketsCount(keys[1..], conns);
    }
  }

  // ---------------------------------------------------------------------------
  // The manager
  // ---------------------------------------------------------------------------

  class WebSocketManager {
    /** `service_managers`; `managerKeys` lists its keys in insertion order. */
    var serviceManagers: map<string, ConnectionManager>
    var managerKeys: seq<string>
    var globalConnections: seq<Socket>
    var isInitialized: bool

    /** Each manager is filed under its own service name (so no two keys
        share a manager), and "global" is never a service key. */
    ghost predicate Valid()
      reads this
    {
      && GLOBAL !in serviceManagers
      && LP.NoDup(managerKeys)
      && (forall s :: s in serviceManagers <==> s in managerKeys)
      && (forall s :: s in serviceManagers ==> serviceManagers[s].serviceName == s)
    }

    /** Each service's connection list. */
    function Connections(): map<string, seq<Socket>>
      reads this, serviceManagers.Values
    {
      ConnectionLists(serviceManagers)
    }

    /** `get_total_connections`. */
    function TotalConnections(): nat
      requires Valid()
      reads this, serviceManagers.Values
    {
      |globalConnections| + SumSizes(managerKeys, Connections())
    }

    /** `get_service_connections`: 0 for a service without a manager. */
    function ServiceConnections(service: string): (n: nat)
      reads this, serviceManagers.Values
      ensures n == if service in Connections() then |Connections()[service]| else 0
    {
      if service in serviceManagers then serviceManagers[service].ConnectionCount() else 0
    }

    function IsActive(): bool
      reads this
    {
      isInitialized
    }

    constructor()
      ensures Valid() && !isInitialized
      ensures serviceManagers == map[] && managerKeys == [] && globalConnections == []
    {
      serviceManagers := map[];
      managerKeys := [];
      globalConnections := [];
      isInitialized := false;
    }

    /** `initialize`; the heartbeat task it starts is `HeartbeatStep`. */
    method Initialize()
      modifies this
      ensures isInitialized
      ensures serviceManagers == old(serviceManagers) && managerKeys == old(managerKeys)
      ensures globalConnections == old(globalConnections)
    {
      isInitialized := true;
    }

    /** `cleanup`: closes every connection but keeps the lists. */
    method Cleanup() returns (closed: seq<Socket>)
      requires Valid()
      modifies this
      ensures Valid() && !isInitialized
      ensures serviceManagers == old(serviceManagers) && managerKeys == old(managerKeys)
      ensures globalConnections == old(globalConnections) && Connections() == old(Connections())
      ensures closed == AllSockets(managerKeys, Connections()) + globalConnections
      ensures |closed| == TotalConnections()
    {
      closed := ClosingOrder();
      AllSocketsCount(managerKeys, Connections());
      isInitialized := false;
    }

    /** The two closing loops of `cleanup`. */
    method ClosingOrder() returns (closed: seq<Socket>)
      requires Valid()
      ensures closed == AllSockets(managerKeys, Connections()) + globalConnections
    {
      var keys := managerKeys;
      ghost var conns := Connections();
      closed := [];
      for k := 0 to |keys|
        invariant closed == AllSockets(keys[..k], conns)
      {
        assert keys[..k + 1] == keys[..k] + [keys[k]];
        AllSocketsSnoc(keys[..k], conns, keys[k]);
        closed := closed + serviceManagers[keys[k]].activeConnections;
      }
      assert keys[..|keys|] == keys;
      closed := closed + globalConnections;
    }

    /** `connect`: a global socket joins the global list; any other joins its
        service's manager, created first if the service has none. */
    method Connect(w: Socket, service: string)
      requires Valid()
      modifies this, serviceManagers.Values
      ensures Valid() && isInitialized == old(isInitialized)
      ensures service == GLOBAL ==>
        && globalConnections == old(globalConnections) + [w]
        && managerKeys == old(managerKeys) && Connections() == old(Connections())
      ensures service != GLOBAL ==>
        && globalConnections == old(globalConnections)
        && managerKeys == (if service in old(serviceManagers) then old(managerKeys) else old(managerKeys) + [service])
        && Connections() == old(Connections())[service :=
             (if service in old(Connections()) then old(Connections())[service] else []) + [w]]
      ensures TotalConnections() == old(TotalConnections()) + 1
    {
      if service == GLOBAL {
        ghost var conns0 := Connections();
        globalConnections := globalConnections + [w];
        assert Connections() == conns0;
      } else {
        ConnectService(w, service);
      }
    }

    /** The service branch of `connect`. */
    method ConnectService(w: Socket, service: string)
      requires Valid() && service != GLOBAL
      modifies this, serviceManagers.Values
      ensures Valid() && isInitialized == old(isInitialized)
      ensures globalConnections == old(globalConnections)
      ensures managerKeys == (if service in old(serviceManagers) then old(managerKeys) else old(managerKeys) + [service])
      ensures Connections() == old(Connections())[service :=
                (if service in old(Connections()) then old(Connections())[service] else []) + [w]]
      ensures SumSizes(managerKeys, Connections()) == SumSizes(old(managerKeys), old(Connections())) + 1
    {
      ghost var conns0 := Connections();
      EnsureManager(service);
      ManagerConnect(w, service);
      ConnectTotal(old(managerKeys), managerKeys, conns0, service, w);
    }

    /** `service_managers[service] = ConnectionManager(service)` for a new
        service. */
    method EnsureManager(service: string)
      requires Valid() && service != GLOBAL
      modifies this
      ensures Valid() && service in serviceManagers
      ensures forall s :: s in old(serviceManagers) ==> s in serviceManagers && serviceManagers[s] == old(serviceManagers)[s]
      ensures service !in old(serviceManagers) ==> fresh(serviceManagers[service])
      ensures isInitialized == old(isInitialized) && globalConnections == old(globalConnections)
      ensures managerKeys == (if service in old(serviceManagers) then old(managerKeys) else old(managerKeys) + [service])
      ensures Connections() == if service in old(serviceManagers) then old(Connections()) else old(Connections())[service := []]
    {
      if service !in serviceManagers {
        ghost var conns0 := Connections();
        var m := new ConnectionManager(service);
        LP.NoDupSnoc(managerKeys, service);
        serviceManagers := serviceManagers[service := m];
        managerKeys := managerKeys + [service];
        assert Connections() == conns0[service := []];
      }
    }

    /** The connection list of one service changes through its own manager
        and no other. */
    method ManagerConnect(w: Socket, service: string)
      requires Valid() && service in serviceManagers
      modifies serviceManagers[service]
      ensures Valid()
      ensures Connections() == old(Connections())[service := old(Connections())[service] + [w]]
    {
      ghost var conns0 := Connections();
      var m := serviceManagers[service];
      m.Connect(w);
      forall s | s in serviceManagers && s != service
        ensures serviceManagers[s].activeConnections == conns0[s] {
        assert serviceManagers[s].serviceName == s;
      }
    }

    method ManagerDisconnect(w: Socket, service: string)
      requires Valid() && service in serviceManagers
      modifies serviceManagers[service]
      ensures Valid()
      ensures Connections() == old(Connections())[service := RemoveFirst(old(Connections())[service], w)]
    {
      ghost var conns0 := Connections();
      var m := serviceManagers[service];
      m.Disconnect(w);
      forall s | s in serviceManagers && s != service
        ensures serviceManagers[s].activeConnections == conns0[s] {
        assert serviceManagers[s].serviceName == s;
      }
    }

    /** `del service_managers[service]`. */
    method DropManager(service: string)
      requires Valid() && service in serviceManagers
      modifies this
      ensures Valid()
      ensures isInitialized == old(isInitialized) && globalConnections == old(globalConnections)
      ensures managerKeys == LP.RemoveKey(old(managerKeys), service)
      ensures Connections() == old(Connections()) - {service}
    {
      ConnectionListsRemove(serviceManagers, service);
      serviceManagers := serviceManagers - {service};
      managerKeys := LP.RemoveKey(managerKeys, service);
    }

    /** `disconnect`: a service's manager is deleted once it has no
        connections left. */
    method Disconnect(w: Socket, service: string)
      requires Valid()
      modifies this, serviceManagers.Values
      ensures Valid() && isInitialized == old(isInitialized)
      ensures service == GLOBAL ==>
        && globalConnections == RemoveFirst(old(globalConnections), w)
        && managerKeys == old(managerKeys) && Connections() == old(Connections())
      ensures service != GLOBAL && service !in old(Connections()) ==>
        && globalConnections == old(globalConnections)
        && managerKeys == old(managerKeys) && Connections() == old(Connections())
      ensures service != GLOBAL && service in old(Connections()) ==>
        var rest := RemoveFirst(old(Connections())[service], w);
        && globalConnections == old(globalConnections)
        && (rest == [] ==> managerKeys == LP.RemoveKey(old(managerKeys), service)
                           && Connections() == old(Connections()) - {service})
        && (rest != [] ==> managerKeys == old(managerKeys)
                           && Connections() == old(Connections())[service := rest])
      ensures TotalConnections() == old(TotalConnections()) - (if w in ConnectionsOf(old(Connections()), old(globalConnections), service) then 1 else 0)
    {
      if service == GLOBAL {
        ghost var conns0 := Connections();
        RemoveFirstSpec(globalConnections, w);
        if w in globalConnections {
          globalConnections := RemoveFirst(globalConnections, w);
        }
        assert Connections() == conns0;
      } else if service in serviceManagers {
        DisconnectService(w, service);
      }
    }

    /** The branch of `disconnect` for a service that has a manager. */
    method DisconnectService(w: Socket, service: string)
      requires Valid() && service != GLOBAL && service in serviceManagers
      modifies this, serviceManagers.Values
      ensures Valid() && isInitialized == old(isInitialized)
      ensures globalConnections == old(globalConnections)
      ensures var rest := RemoveFirst(old(Connections())[service], w);
        && (rest == [] ==> managerKeys == LP.RemoveKey(old(managerKeys), service)
                           && Connections() == old(Connections()) - {service})
        && (rest != [] ==> managerKeys == old(managerKeys)
                           && Connections() == old(Connections())[service := rest])
      ensures SumSizes(managerKeys, Connections())
           == SumSizes(old(managerKeys), old(Connections())) - (if w in old(Connections())[service] then 1 else 0)
    {
      ghost var conns0 := Connections();
      ManagerDisconnect(w, service);
      ghost var rest := RemoveFirst(conns0[service], w);
      RemoveFirstSpec(conns0[service], w);
      SumSizesUpdate(managerKeys, conns0, service, rest);
      if !serviceManagers[service].IsActive() {
        ghost var connsMid := Connections();
        DropManager(service);
        SumSizesRemove(old(managerKeys), connsMid, service);
      }
    }

    /** `send_to_service`: a broadcast to the service's connections, or
        nothing for a service without a manager. The manager stays even when
        the broadcast leaves it empty. */
    method SendToService(service: string, delivered: seq<bool>) returns (attempted: seq<Socket>)
      requires Valid()
      requires service in serviceManagers ==> |delivered| == |serviceManagers[service].activeConnections|
      modifies serviceManagers.Values
      ensures Valid()
      ensures attempted == if service in old(Connections()) then old(Connections())[service] else []
      ensures Connections() == if service in old(Connections())
        then old(Connections())[service := AfterBroadcast(old(Connections())[service], delivered)]
        else old(Connections())
      ensures TotalConnections() == old(TotalConnections())
        - (if service in old(Connections()) then |Failed(old(Connections())[service], delivered)| else 0)
    {
      ghost var conns0 := Connections();
      if service in serviceManagers {
        var m := serviceManagers[service];
        attempted := m.Broadcast(delivered);
        assert Connections() == conns0[service := m.activeConnections] by {
          forall s | s in serviceManagers && s != service
            ensures serviceManagers[s].activeConnections == conns0[s] {
            assert serviceManagers[s].serviceName == s;
          }
        }
        BroadcastRemovesFailed(conns0[service], delivered);
        SumSizesUpdate(managerKeys, conns0, service, m.activeConnections);
      } else {
        attempted := [];
      }
    }

    /** `broadcast_global`: the same protocol over the global list. */
    method BroadcastGlobal(delivered: seq<bool>) returns (attempted: seq<Socket>)
      requires Valid() && |delivered| == |globalConnections|
      modifies this
      ensures Valid() && isInitialized == old(isInitialized)
      ensures serviceManagers == old(serviceManagers) && managerKeys == old(managerKeys)
      ensures attempted == old(globalConnections)
      ensures globalConnections == AfterBroadcast(old(globalConnections), delivered)
      ensures TotalConnections() == old(TotalConnections()) - |Failed(old(globalConnections), delivered)|
    {
      attempted := globalConnections;
      BroadcastRemovesFailed(globalConnections, delivered);
      if globalConnections == [] {
        return;
      }
      var dead := SendAll(globalConnections, delivered);
      ghost var target := AfterBroadcast(attempted, delivered);
      var remaining := globalConnections;
      for i := 0 to |dead|
        modifies {}
        invariant RemoveEach(remaining, dead[i..]) == target
      {
        RemoveEachStep(remaining, dead, i);
        RemoveFirstSpec(remaining, dead[i]);
        if dead[i] in remaining {
          remaining := RemoveFirst(remaining, dead[i]);
        }
      }
      globalConnections := remaining;
    }

    /** `broadcast_health_update`: the event goes to the service's
        connections and then to every global one. */
    method BroadcastHealthUpdate(service: string, health: LP.ServiceHealth, now: int,
                                 serviceDelivered: seq<bool>, globalDelivered: seq<bool>)
      returns (sent: seq<Delivery>)
      requires Valid() && |globalDelivered| == |globalConnections|
      requires service in serviceManagers ==> |serviceDelivered| == |serviceManagers[service].activeConnections|
      modifies this, serviceManagers.Values
      ensures Valid()
      ensures sent == Sends(ConnectionsOf(old(Connections()), [], service), HealthUpdate(service, health, now))
                    + Sends(old(globalConnections), HealthUpdate(service, health, now))
      ensures Connections() == BroadcastTo(old(Connections()), service, serviceDelivered)
      ensures globalConnections == AfterBroadcast(old(globalConnections), globalDelivered)
    {
      var e := HealthUpdate(service, health, now);
      sent := Notify(service, e, serviceDelivered, globalDelivered);
    }

    /** `broadcast_anomaly_alert`: routed like a health update. */
    method BroadcastAnomalyAlert(service: string, anomalyData: string, now: int,
                                 serviceDelivered: seq<bool>, globalDelivered: seq<bool>)
      returns (sent: seq<Delivery>)
      requires Valid() && |globalDelivered| == |globalConnections|
      requires service in serviceManagers ==> |serviceDelivered| == |serviceManagers[service].activeConnections|
      modifies this, serviceManagers.Values
      ensures Valid()
      ensures sent == Sends(ConnectionsOf(old(Connections()), [], service), AnomalyAlert(service, anomalyData, now))
                    + Sends(old(globalConnections), AnomalyAlert(service, anomalyData, now))
      ensures Connections() == BroadcastTo(old(Connections()), service, serviceDelivered)
      ensures globalConnections == AfterBroadcast(old(globalConnections), globalDelivered)
    {
      var e := AnomalyAlert(service, anomalyData, now);
      sent := Notify(service, e, serviceDelivered, globalDelivered);
    }

    /** A service broadcast followed by a global broadcast of the same event. */
    method Notify(service: string, e: Event, serviceDelivered: seq<bool>, globalDelivered: seq<bool>)
      returns (sent: seq<Delivery>)
      requires Valid() && |globalDelivered| == |globalConnections|
      requires service in serviceManagers ==> |serviceDelivered| == |serviceManagers[service].activeConnections|
      modifies this, serviceManagers.Values
      ensures Valid()
      ensures sent == Sends(ConnectionsOf(old(Connections()), [], service), e) + Sends(old(globalConnections), e)
      ensures Connections() == BroadcastTo(old(Connections()), service, serviceDelivered)
      ensures globalConnections == AfterBroadcast(old(globalConnections), globalDelivered)
    {
      var toService := SendToService(service, serviceDelivered);
      ghost var connsMid := Connections();
      var toGlobal := BroadcastGlobal(globalDelivered);
      assert Connections() == connsMid;
      sent := Sends(toService, e) + Sends(toGlobal, e);
    }

    /** `broadcast_stats_update`: global connections only. */
    method BroadcastStatsUpdate(stats: LP.ProcessingStats, now: int, delivered: seq<bool>)
      returns (sent: seq<Delivery>)
      requires Valid() && |delivered| == |globalConnections|
      modifies this
      ensures Valid()
      ensures sent == Sends(old(globalConnections), StatsUpdate(stats, now))
      ensures Connections() == old(Connections()) && managerKeys == old(managerKeys)
      ensures globalConnections == AfterBroadcast(old(globalConnections), delivered)
    {
      var toGlobal := BroadcastGlobal(delivered);
      sent := Sends(toGlobal, StatsUpdate(stats, now));
    }

    /** `handle_message`: a ping is answered with a pong to the service's
        connections; every other message, malformed or not, is ignored. */
    method HandleMessage(service: string, message: Incoming, now: int, delivered: seq<bool>)
      returns (sent: seq<Delivery>)
      requires Valid()
      requires service in serviceManagers ==> |delivered| == |serviceManagers[service].activeConnections|
      modifies serviceManagers.Values
      ensures Valid()
      ensures message == Ping ==>
        && sent == Sends(ConnectionsOf(old(Connections()), [], service), Pong(now))
        && Connections() == BroadcastTo(old(Connections()), service, delivered)
      ensures message != Ping ==> sent == [] && Connections() == old(Connections())
    {
      if message == Ping {
        var toService := SendToService(service, delivered);
        sent := Sends(toService, Pong(now));
      } else {
        sent := [];
      }
    }

    /** One round of `_heartbeat_loop`: while the manager is initialized, a
        heartbeat reporting the service count and the connection total goes
        to the global connections. */
    method HeartbeatStep(now: int, delivered: seq<bool>) returns (sent: seq<Delivery>)
      requires Valid() && |delivered| == |globalConnections|
      modifies this
      ensures Valid()
      ensures old(isInitialized) ==>
        && sent == Sends(old(globalConnections),
                         Heartbeat(now, |old(serviceManagers)|, old(TotalConnections())))
        && globalConnections == AfterBroadcast(old(globalConnections), delivered)
      ensures !old(isInitialized) ==> sent == [] && globalConnections == old(globalConnections)
      ensures Connections() == old(Connections()) && managerKeys == old(managerKeys)
    {
      if isInitialized {
        var e := Heartbeat(now, |serviceManagers|, TotalConnections());
        var toGlobal := BroadcastGlobal(delivered);
        sent := Sends(toGlobal, e);
      } else {
        sent := [];
      }
    }

    /** `get_connection_stats`. */
    method GetConnectionStats() returns (stats: map<string, nat>)
      requires Valid()
      ensures stats == ConnectionStats(|globalConnections|, TotalConnections(), |serviceManagers|,
                                       managerKeys, Connections())
    {
      var keys := managerKeys;
      ghost var conns := Connections();
      stats := map["global_connections" := |globalConnections|,
                   "total_connections" := TotalConnections(),
                   "active_services" := |serviceManagers|];
      for k := 0 to |keys|
        invariant stats == ConnectionStats(|globalConnections|, TotalConnections(), |serviceManagers|, keys[..k], conns)
      {
        var s := keys[k];
        assert keys[..k + 1][..k] == keys[..k] && keys[..k + 1][k] == s;
        stats := stats[ServiceStatKey(s) := serviceManagers[s].ConnectionCount()];
      }
      assert keys[..|keys|] == keys;
    }
  }

  /** The connection list of each manager. */
  function ConnectionLists(managers: map<string, ConnectionManager>): map<string, seq<Socket>>
    reads managers.Values
  {
    map s | s in managers :: managers[s].activeConnections
  }

  lemma ConnectionListsRemove(managers: map<string, ConnectionManager>, s: string)
    ensures ConnectionLists(managers - {s}) == ConnectionLists(managers) - {s}
  {
  }

  /** The connections of a service, or `global` for the global name. */
  function ConnectionsOf(conns: map<string, seq<Socket>>, global: seq<Socket>, service: string): seq<Socket> {
    if service == GLOBAL then global else if service in conns then conns[service] else []
  }

  /** The service lists after `send_to_service(service, ...)`. */
  function BroadcastTo(conns: map<string, seq<Socket>>, service: string, delivered: seq<bool>): map<string, seq<Socket>> {
    if service in conns && |delivered| == |conns[service]|
    then conns[service := AfterBroadcast(conns[service], delivered)]
    else conns
  }

  /** `f"service_{name}"`. */
  function ServiceStatKey(s: string): string {
    "service_" + s
  }

  lemma ServiceStatKeyDistinct(s: string)
    ensures ServiceStatKey(s) != "global_connections" && ServiceStatKey(s) != "total_connections"
    ensures ServiceStatKey(s) != "active_services"
    ensures forall t :: ServiceStatKey(t) == ServiceStatKey(s) ==> t == s
  {
    assert ServiceStatKey(s)[0] == 's';
    assert "global_connections"[0] == 'g' && "total_connections"[0] == 't' && "active_services"[0] == 'a';
    forall t | ServiceStatKey(t) == ServiceStatKey(s) ensures t == s {
      assert t == ServiceStatKey(t)[8..] && s == ServiceStatKey(s)[8..];
    }
  }

  /** The map `get_connection_stats` builds: the three totals, then one
      entry per service in key order. */
  function ConnectionStats(global: nat, total: nat, active: nat, keys: seq<string>,
                           conns: map<string, seq<Socket>>): map<string, nat>
    requires forall k :: k in keys ==> k in conns
  {
    if keys == [] then map["global_connections" := global, "total_connections" := total, "active_services" := active]
    else
      var n := |keys| - 1;
      ConnectionStats(global, total, active, keys[..n], conns)[ServiceStatKey(keys[n]) := |conns[keys[n]]|]
  }

  /** The statistics hold the three totals and each service's connection
      count under its `service_` key, and nothing else. */
  lemma {:induction false} ConnectionStatsSpec(global: nat, total: nat, active: nat, keys: seq<string>,
                                               conns: map<string, seq<Socket>>)
    requires forall k :: k in keys ==> k in conns
    ensures var r := ConnectionStats(global, total, active, keys, conns);
      && "global_connections" in r && r["global_connections"] == global
      && "total_connections" in r && r["total_connections"] == total
      && "active_services" in r && r["active_services"] == active
      && (forall s :: s in keys ==> ServiceStatKey(s) in r && r[ServiceStatKey(s)] == |conns[s]|)
      && (forall t :: t in r ==> t in {"global_connections", "total_connections", "active_services"}
                                 || exists s :: s in keys && t == ServiceStatKey(s))
    decreases |keys|
  {
    if keys != [] {
      var n := |keys| - 1;
      var last := keys[n];
      ConnectionStatsSpec(global, total, active, keys[..n], conns);
      ServiceStatKeyDistinct(last);
      assert keys == keys[..n] + [last];
      var r := ConnectionStats(global, total, active, keys, conns);
      forall t | t in r ensures t in {"global_connections", "total_connections", "active_services"}
                                || exists s :: s in keys && t == ServiceStatKey(s) {
        if t == ServiceStatKey(last) {
          assert last in keys;
        } else {
          var prev := ConnectionStats(global, total, active, keys[..n], conns);
          assert t in prev;
          if exists s :: s in keys[..n] && t == ServiceStatKey(s) {
            var s :| s in keys[..n] && t == ServiceStatKey(s);
            assert s in keys;
          }
        }
      }
    }
  }

  /** Connecting to a service adds one to the total. */
  lemma ConnectTotal(keys0: seq<string>, keys: seq<string>, conns0: map<string, seq<Socket>>, service: string, w: Socket)
    requires LP.NoDup(keys0) && forall k :: k in keys0 <==> k in conns0
    requires keys == if service in conns0 then keys0 else keys0 + [service]
    ensures var prev := if service in conns0 then conns0[service] else [];
      forall k :: k in keys ==> k in conns0[service := prev + [w]]
    ensures var prev := if service in conns0 then conns0[service] else [];
      SumSizes(keys, conns0[service := prev + [w]]) == SumSizes(keys0, conns0) + 1
  {
    var prev := if service in conns0 then conns0[service] else [];
    var conns := conns0[service := prev + [w]];
    if service in conns0 {
      SumSizesUpdate(keys0, conns0, service, prev + [w]);
    } else {
      SumSizesSnoc(keys0, conns, service);
      SumSizesOutside(keys0, conns, conns0);
    }
  }
}
