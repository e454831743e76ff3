/** Runs of the service proxy: what is left in the kernel's table after any sequence of polls. */
module ProxyRuns {
  import opened ProxyTypes
  import opened ProxyServer
  import opened Ipvs
  import opened Proxy

  // ---------------------------------------------------------------------------
  // What a service should have in the table
  // ---------------------------------------------------------------------------

  /** The addresses a service claims, valid or not. */
  function Claimed(host: string, svc: Service): set<Server> {
    (set p | p in svc.ports :: VipServer(svc, p)) +
    (if svc.isNodePort then set p | p in svc.ports :: NodeServer(host, p) else {})
  }

  function ServersOf(host: string, svc: Service): set<Server> {
    if IsAddress(svc.clusterIP) then Claimed(host, svc) else {}
  }

  /** Service port p forwards to every address of m that exposes its target port, from the VIP and from the node. */
  ghost predicate WantsRoute(host: string, svc: Service, m: IpMap, x: Route) {
    && IsAddress(svc.clusterIP) && IsAddress(x.ip) && x.ip in m
    && exists p :: p in svc.ports
         && Target(p) in m[x.ip] && x.port == U16(p.targetPort)
         && (x.server == VipServer(svc, p) || (svc.isNodePort && x.server == NodeServer(host, p)))
  }

  /** Distinct target ports, and a different server for every port and node port. */
  predicate WellFormed(host: string, svc: Service) {
    && (forall i, j :: 0 <= i < j < |svc.ports| ==> ApartPorts(host, svc, svc.ports[i], svc.ports[j]))
    && (svc.isNodePort ==> svc.clusterIP != host)
  }

  predicate ApartPorts(host: string, svc: Service, p: ServicePort, q: ServicePort) {
    && p.targetPort != q.targetPort
    && VipServer(svc, p) != VipServer(svc, q)
    && (svc.isNodePort ==> NodeServer(host, p) != NodeServer(host, q))
  }

  // ---------------------------------------------------------------------------
  // Reverse maps
  // ---------------------------------------------------------------------------

  function Prefix(svc: Service, n: nat): Service
    requires n <= |svc.ports|
  {
    svc.(ports := svc.ports[..n])
  }

  /** The maps hold exactly the first n ports. */
  ghost predicate Reverses(svc: Service, n: nat, svcPorts: map<int, int>, nodePorts: map<int, int>)
    requires n <= |svc.ports|
  {
    && (forall i :: 0 <= i < n ==> ReversesAt(svc, svc.ports[i], svcPorts, nodePorts))
    && (!svc.isNodePort ==> nodePorts == map[])
  }

  predicate ReversesAt(svc: Service, p: ServicePort, svcPorts: map<int, int>, nodePorts: map<int, int>) {
    && p.targetPort in svcPorts && svcPorts[p.targetPort] == p.port
    && (svc.isNodePort ==> p.targetPort in nodePorts && nodePorts[p.targetPort] == p.nodePort)
  }

  lemma ReversesStep(host: string, svc: Service, n: nat, svcPorts: map<int, int>, nodePorts: map<int, int>)
    requires WellFormed(host, svc) && n < |svc.ports| && Reverses(svc, n, svcPorts, nodePorts)
    ensures var p := svc.ports[n];
            Reverses(svc, n + 1, svcPorts[p.targetPort := p.port],
                     if svc.isNodePort then nodePorts[p.targetPort := p.nodePort] else nodePorts)
  {
    var p := svc.ports[n];
    forall i | 0 <= i < n ensures svc.ports[i].targetPort != p.targetPort {
      assert ApartPorts(host, svc, svc.ports[i], p);
    }
  }

  lemma {:induction false} ReverseOfReverses(host: string, svc: Service, n: nat)
    requires WellFormed(host, svc) && n <= |svc.ports|
    ensures var r := ReverseOf(host, svc, n);
            r.vip == svc.clusterIP && r.host == host && Reverses(svc, n, r.svcPorts, r.nodePorts)
  {
    if n > 0 {
      ReverseOfReverses(host, svc, n - 1);
      var r := ReverseOf(host, svc, n - 1);
      ReversesStep(host, svc, n - 1, r.svcPorts, r.nodePorts);
    }
  }

  lemma ClaimedStep(host: string, svc: Service, n: nat)
    requires n < |svc.ports|
    ensures var p := svc.ports[n];
            Claimed(host, Prefix(svc, n + 1)) ==
              Claimed(host, Prefix(svc, n)) + {VipServer(svc, p)} + if svc.isNodePort then {NodeServer(host, p)} else {}
  {
    var before, after := Prefix(svc, n), Prefix(svc, n + 1);
    assert after.ports == before.ports + [svc.ports[n]];
    assert forall p :: p in after.ports <==> p in before.ports || p == svc.ports[n];
    assert forall p :: VipServer(svc, p) == VipServer(before, p) == VipServer(after, p);
  }

  lemma NewServersFree(host: string, svc: Service, n: nat)
    requires WellFormed(host, svc) && n < |svc.ports|
    ensures VipServer(svc, svc.ports[n]) !in Claimed(host, Prefix(svc, n))
    ensures svc.isNodePort ==> NodeServer(host, svc.ports[n]) !in Claimed(host, Prefix(svc, n))
    ensures svc.isNodePort ==> NodeServer(host, svc.ports[n]) != VipServer(svc, svc.ports[n])
  {
    var before := Prefix(svc, n);
    forall p | p in before.ports ensures ApartPorts(host, svc, p, svc.ports[n]) && VipServer(before, p) == VipServer(svc, p) {
      var i :| 0 <= i < n && svc.ports[i] == p;
    }
  }

  lemma ReserveOne(host: string, t: Table, svc: Service, n: nat)
    requires n < |svc.ports|
    requires IsAddress(svc.clusterIP) && IsAddress(host)
    requires VipServer(svc, svc.ports[n]) !in Reserve(host, t, svc, n).table.servers
    requires svc.isNodePort ==>
               && NodeServer(host, svc.ports[n]) !in Reserve(host, t, svc, n).table.servers
               && NodeServer(host, svc.ports[n]) != VipServer(svc, svc.ports[n])
    ensures var r, p := Reserve(host, t, svc, n), svc.ports[n];
            Reserve(host, t, svc, n + 1) == Reserved(
              r.table.(servers := r.table.servers + {VipServer(svc, p)} + if svc.isNodePort then {NodeServer(host, p)} else {}),
              r.svcPorts[p.targetPort := p.port],
              if svc.isNodePort then r.nodePorts[p.targetPort := p.nodePort] else r.nodePorts)
  {
    var r, p := Reserve(host, t, svc, n), svc.ports[n];
    assert r.table.servers + {VipServer(svc, p)} + {} == r.table.servers + {VipServer(svc, p)};
  }

  lemma ClaimedGrows(host: string, svc: Service, n: nat)
    requires n < |svc.ports|
    ensures VipServer(svc, svc.ports[n]) in Claimed(host, svc)
    ensures svc.isNodePort ==> NodeServer(host, svc.ports[n]) in Claimed(host, svc)
  {
    assert svc.ports[n] in svc.ports;
  }

  /** The reservation of a free port, by membership. */
  lemma ReserveNext(host: string, t: Table, svc: Service, n: nat)
    requires WellFormed(host, svc) && n < |svc.ports|
    requires IsAddress(svc.clusterIP) && IsAddress(host)
    requires t.servers !! Claimed(host, svc)
    requires Reserve(host, t, svc, n).table == Table(t.servers + Claimed(host, Prefix(svc, n)), t.routes)
    ensures Reserve(host, t, svc, n + 1).table == Table(t.servers + Claimed(host, Prefix(svc, n + 1)), t.routes)
    ensures var r, p := Reserve(host, t, svc, n), svc.ports[n];
            && Reserve(host, t, svc, n + 1).svcPorts == r.svcPorts[p.targetPort := p.port]
            && Reserve(host, t, svc, n + 1).nodePorts ==
                 if svc.isNodePort then r.nodePorts[p.targetPort := p.nodePort] else r.nodePorts
  {
    NewServersFree(host, svc, n);
    ClaimedGrows(host, svc, n);
    ReserveOne(host, t, svc, n);
    ClaimedStep(host, svc, n);
    Regroup(t.servers, Claimed(host, Prefix(svc, n)), VipServer(svc, svc.ports[n]),
            if svc.isNodePort then {NodeServer(host, svc.ports[n])} else {});
  }

  /** When nothing it claims is taken, a service reserves exactly its servers and its full reverse maps. */
  lemma {:induction false} ReserveAll(host: string, t: Table, svc: Service, n: nat)
    requires WellFormed(host, svc) && n <= |svc.ports|
    requires IsAddress(svc.clusterIP) && IsAddress(host)
    requires t.servers !! Claimed(host, svc)
    ensures var r := Reserve(host, t, svc, n);
            && r.table == Table(t.servers + Claimed(host, Prefix(svc, n)), t.routes)
            && Reverses(svc, n, r.svcPorts, r.nodePorts)
  {
    if n == 0 {
      assert Claimed(host, Prefix(svc, 0)) == {};
    } else {
      ReserveAll(host, t, svc, n - 1);
      var r := Reserve(host, t, svc, n - 1);
      ReserveNext(host, t, svc, n - 1);
      ReversesStep(host, svc, n - 1, r.svcPorts, r.nodePorts);
    }
  }

  lemma Regroup(a: set<Server>, b: set<Server>, s: Server, c: set<Server>)
    ensures a + b + {s} + c == a + (b + {s} + c)
  {
  }

  lemma {:induction false} ReserveNone(host: string, t: Table, svc: Service, n: nat)
    requires !IsAddress(svc.clusterIP) && n <= |svc.ports|
    ensures Reserve(host, t, svc, n) == Reserved(t, map[], map[])
  {
    if n > 0 { ReserveNone(host, t, svc, n - 1); }
  }

  /** The routes asked for through full reverse maps are those the service wants. */
  lemma RequestedIsWanted(host: string, svc: Service, svcPorts: map<int, int>, nodePorts: map<int, int>,
                          eps: seq<Endpoint>, m: IpMap, x: Route)
    requires WellFormed(host, svc) && FromService(svc, m)
    requires IsAddress(svc.clusterIP) && IsAddress(host)
    requires Reverses(svc, |svc.ports|, svcPorts, nodePorts)
    requires forall ep :: ep in eps ==> ep.ip in m && ep.ports == m[ep.ip]
    ensures x in Requested(Reverse(svc.clusterIP, host, svcPorts, nodePorts), eps) && IsAddress(x.ip) <==>
            x.ip in IpsOf(eps) && WantsRoute(host, svc, m, x)
  {
    var r := Reverse(svc.clusterIP, host, svcPorts, nodePorts);
    if x in Requested(r, eps) && IsAddress(x.ip) {
      var ep :| ep in eps && x in RoutesOfPorts(r, ep.ip, ep.ports);
      var e :| e in ep.ports && x in RoutesAt(r, ep.ip, e);
      var p :| p in svc.ports && e == Target(p);
      assert ReversesAt(svc, p, svcPorts, nodePorts);
    }
    if x.ip in IpsOf(eps) && WantsRoute(host, svc, m, x) {
      var ep :| ep in eps && ep.ip == x.ip;
      var p :| p in svc.ports && Target(p) in m[x.ip] && x.port == U16(p.targetPort)
        && (x.server == VipServer(svc, p) || (svc.isNodePort && x.server == NodeServer(host, p)));
      assert ReversesAt(svc, p, svcPorts, nodePorts);
      assert x in RoutesAt(r, ep.ip, Target(p));
      assert x in RoutesOfPorts(r, ep.ip, ep.ports);
    }
  }

  // ---------------------------------------------------------------------------
  // The table that represents a set of services
  // ---------------------------------------------------------------------------

  datatype View = View(svc: Service, m: IpMap)

  type World = map<Uid, View>

  ghost predicate Represents(host: string, t: Table, w: World) {
    && (forall s :: s in t.servers <==> exists uid :: uid in w && s in ServersOf(host, w[uid].svc))
    && (forall x :: x in t.routes <==> exists uid :: uid in w && WantsRoute(host, w[uid].svc, w[uid].m, x))
  }

  /** Services with well-formed ports that claim nothing in common. */
  ghost predicate Compatible(host: string, all: map<Uid, Service>) {
    && IsAddress(host)
    && (forall u :: u in all ==> WellFormed(host, all[u]))
    && (forall u, v :: u in all && v in all && u != v ==> Claimed(host, all[u]) !! Claimed(host, all[v]))
  }

  ghost predicate Sound(w: World) {
    forall u :: u in w ==> FromService(w[u].svc, w[u].m)
  }

  /** No other service of w has a server that the service claims. */
  ghost predicate Separate(host: string, w: World, uid: Uid, svc: Service) {
    forall k :: k in w && k != uid ==> ServersOf(host, w[k].svc) !! Claimed(host, svc)
  }

  /** No other service of w has a server that the service would have. */
  ghost predicate Free(host: string, w: World, uid: Uid, svc: Service) {
    forall k :: k in w && k != uid ==> ServersOf(host, w[k].svc) !! ServersOf(host, svc)
  }

  lemma WantedServer(host: string, svc: Service, m: IpMap, x: Route)
    requires WantsRoute(host, svc, m, x)
    ensures x.server in ServersOf(host, svc)
  {
  }

  // ---------------------------------------------------------------------------
  // What handling one update does to the table
  // ---------------------------------------------------------------------------

  /** Every route belongs to a server of the table, and every server has a valid address. */
  predicate Closed(t: Table) {
    && (forall x :: x in t.routes ==> x.server in t.servers)
    && (forall s :: s in t.servers ==> IsAddress(s.ip))
  }

  lemma RepresentsClosed(host: string, t: Table, w: World)
    requires IsAddress(host) && Represents(host, t, w)
    ensures Closed(t)
  {
    forall x | x in t.routes ensures x.server in t.servers {
      var uid :| uid in w && WantsRoute(host, w[uid].svc, w[uid].m, x);
      WantedServer(host, w[uid].svc, w[uid].m, x);
    }
  }

  lemma RequestedClaimed(host: string, svc: Service, r: Reverse, eps: seq<Endpoint>, m: IpMap, x: Route)
    requires WellFormed(host, svc) && FromService(svc, m)
    requires r.vip == svc.clusterIP && r.host == host
    requires Reverses(svc, |svc.ports|, r.svcPorts, r.nodePorts)
    requires forall ep :: ep in eps ==> ep.ip in m && ep.ports == m[ep.ip]
    requires x in Requested(r, eps)
    ensures x.server in Claimed(host, svc)
  {
    var ep :| ep in eps && x in RoutesOfPorts(r, ep.ip, ep.ports);
    var e :| e in ep.ports && x in RoutesAt(r, ep.ip, e);
    var p :| p in svc.ports && e == Target(p);
    assert ReversesAt(svc, p, r.svcPorts, r.nodePorts);
  }

  /** With its servers in the table, exactly the wanted routes of the listed addresses are effective. */
  lemma EffectiveRoutes(host: string, t: Table, svc: Service, r: Reverse, eps: seq<Endpoint>, m: IpMap, x: Route)
    requires WellFormed(host, svc) && FromService(svc, m) && IsAddress(host)
    requires r.vip == svc.clusterIP && r.host == host
    requires Reverses(svc, |svc.ports|, r.svcPorts, r.nodePorts)
    requires Lists(eps, m, IpsOf(eps))
    requires if IsAddress(svc.clusterIP) then Claimed(host, svc) <= t.servers else Claimed(host, svc) !! t.servers
    ensures x in Requested(r, eps) && Addressable(t, x) <==> x.ip in IpsOf(eps) && WantsRoute(host, svc, m, x)
  {
    if IsAddress(svc.clusterIP) {
      RequestedIsWanted(host, svc, r.svcPorts, r.nodePorts, eps, m, x);
      if WantsRoute(host, svc, m, x) {
        WantedServer(host, svc, m, x);
      }
    }
    if x in Requested(r, eps) {
      RequestedClaimed(host, svc, r, eps, m, x);
    }
  }

  lemma AddOneEffect(host: string, t: Table, u: ServiceUpdateSingle, m: IpMap)
    requires WellFormed(host, u.service) && FromService(u.service, m) && IsAddress(host)
    requires t.servers !! ServersOf(host, u.service)
    requires IsDiff(map[], m, u.endpointDeletions, u.endpointAdditions)
    ensures AddOne(host, t, u).servers == t.servers + ServersOf(host, u.service)
    ensures forall x :: x in AddOne(host, t, u).routes <==> x in t.routes || WantsRoute(host, u.service, m, x)
  {
    var svc, eps := u.service, u.endpointAdditions;
    var r := Reserve(host, t, svc, |svc.ports|);
    var rev := Reverse(svc.clusterIP, host, r.svcPorts, r.nodePorts);
    if IsAddress(svc.clusterIP) {
      ReserveAll(host, t, svc, |svc.ports|);
      assert Prefix(svc, |svc.ports|) == svc;
      forall x ensures x in AddOne(host, t, u).routes <==> x in t.routes || WantsRoute(host, svc, m, x) {
        EffectiveRoutes(host, r.table, svc, rev, eps, m, x);
        assert x.ip in m ==> DiffAt(map[], m, x.ip in IpsOf(u.endpointDeletions), x.ip in IpsOf(eps), x.ip);
      }
    } else {
      ReserveNone(host, t, svc, |svc.ports|);
      assert Requested(rev, eps) == {};
      NoRoutes(t);
    }
  }

  /** What is left of a table without some servers. */
  function Without(t: Table, gone: set<Server>): Table {
    Table(t.servers - gone, set x | x in t.routes && x.server !in gone)
  }

  lemma WithoutTwice(t: Table, a: set<Server>, b: set<Server>)
    ensures Without(Without(t, a), b) == Without(t, a + b)
  {
    assert Without(Without(t, a), b).servers == Without(t, a + b).servers;
    assert Without(Without(t, a), b).routes == Without(t, a + b).routes;
  }

  lemma {:induction false} ReleaseEffect(host: string, t: Table, svc: Service, n: nat)
    requires n <= |svc.ports| && Closed(t)
    ensures Release(host, t, svc, n) == Without(t, Claimed(host, Prefix(svc, n)))
  {
    if n == 0 {
      assert Claimed(host, Prefix(svc, 0)) == {};
      assert Without(t, {}) == t;
    } else {
      ReleaseEffect(host, t, svc, n - 1);
      ClaimedStep(host, svc, n - 1);
      var p, gone := svc.ports[n - 1], Claimed(host, Prefix(svc, n - 1));
      WithoutClosed(t, gone);
      DropEffect(Without(t, gone), VipServer(svc, p));
      WithoutTwice(t, gone, {VipServer(svc, p)});
      WithoutClosed(t, gone + {VipServer(svc, p)});
      DropEffect(Without(t, gone + {VipServer(svc, p)}), NodeServer(host, p));
      WithoutTwice(t, gone + {VipServer(svc, p)}, {NodeServer(host, p)});
    }
  }

  lemma WithoutClosed(t: Table, gone: set<Server>)
    requires Closed(t)
    ensures Closed(Without(t, gone))
  {
  }

  lemma DropEffect(t: Table, s: Server)
    requires Closed(t)
    ensures Drop(t, s) == Without(t, {s})
  {
    assert Drop(t, s).servers == t.servers - {s};
    assert Drop(t, s).routes == Without(t, {s}).routes;
  }

  // ---------------------------------------------------------------------------
  // Every update keeps the table in step with the services handled so far
  // ---------------------------------------------------------------------------

  /** What the world is after one update. */
  function After(w: World, u: ServiceUpdateSingle, op: ServiceOperation, m: IpMap): World {
    if op.ServiceDelete? then w - {u.service.uid} else w[u.service.uid := View(u.service, m)]
  }

  lemma Apart(host: string, w: World, uid: Uid, svc: Service, other: Uid)
    requires Separate(host, w, uid, svc) && other in w && other != uid
    ensures ServersOf(host, w[other].svc) !! Claimed(host, svc)
    ensures forall x :: WantsRoute(host, w[other].svc, w[other].m, x) ==> x.server !in Claimed(host, svc)
  {
    forall x | WantsRoute(host, w[other].svc, w[other].m, x) ensures x.server !in Claimed(host, svc) {
      WantedServer(host, w[other].svc, w[other].m, x);
    }
  }

  lemma Unclaimed(host: string, w: World, t: Table, uid: Uid, svc: Service)
    requires Represents(host, t, w) && uid !in w && Free(host, w, uid, svc)
    ensures t.servers !! ServersOf(host, svc)
  {
    forall s | s in t.servers ensures s !in ServersOf(host, svc) {
      var other :| other in w && s in ServersOf(host, w[other].svc);
    }
  }

  lemma AddKeeps(host: string, w: World, t: Table, u: ServiceUpdateSingle, m: IpMap)
    requires IsAddress(host) && WellFormed(host, u.service) && Represents(host, t, w)
    requires u.service.uid !in w && Free(host, w, u.service.uid, u.service)
    requires FromService(u.service, m) && IsDiff(map[], m, u.endpointDeletions, u.endpointAdditions)
    ensures Represents(host, AddOne(host, t, u), After(w, u, ServiceAdd, m))
  {
    var uid := u.service.uid;
    Unclaimed(host, w, t, uid, u.service);
    AddOneEffect(host, t, u, m);
    WorldWith(host, w, uid, View(u.service, m), t, AddOne(host, t, u));
  }

  lemma WorldWith(host: string, w: World, uid: Uid, v: View, t: Table, t': Table)
    requires uid !in w && Represents(host, t, w)
    requires t'.servers == t.servers + ServersOf(host, v.svc)
    requires forall x :: x in t'.routes <==> x in t.routes || WantsRoute(host, v.svc, v.m, x)
    ensures Represents(host, t', w[uid := v])
  {
    var w' := w[uid := v];
    forall s ensures s in t'.servers <==> exists k :: k in w' && s in ServersOf(host, w'[k].svc) {
      if s in ServersOf(host, v.svc) { assert s in ServersOf(host, w'[uid].svc); }
      if k :| k in w && s in ServersOf(host, w[k].svc) { assert s in ServersOf(host, w'[k].svc); }
    }
    forall x ensures x in t'.routes <==> exists k :: k in w' && WantsRoute(host, w'[k].svc, w'[k].m, x) {
      if WantsRoute(host, v.svc, v.m, x) { assert WantsRoute(host, w'[uid].svc, w'[uid].m, x); }
      if k :| k in w && WantsRoute(host, w[k].svc, w[k].m, x) { assert WantsRoute(host, w'[k].svc, w'[k].m, x); }
    }
  }

  /** A world without one of its services, told from the table by what that service claims. */
  lemma WorldWithout(host: string, w: World, uid: Uid, t: Table)
    requires Represents(host, t, w) && uid in w && Separate(host, w, uid, w[uid].svc)
    ensures Represents(host, Without(t, Claimed(host, w[uid].svc)), w - {uid})
  {
    var w', t' := w - {uid}, Without(t, Claimed(host, w[uid].svc));
    forall s ensures s in t'.servers <==> exists k :: k in w' && s in ServersOf(host, w'[k].svc) {
      ServerWithout(host, w, uid, t, s);
    }
    forall x ensures x in t'.routes <==> exists k :: k in w' && WantsRoute(host, w'[k].svc, w'[k].m, x) {
      RouteWithout(host, w, uid, t, x);
    }
  }

  lemma ServerWithout(host: string, w: World, uid: Uid, t: Table, s: Server)
    requires Represents(host, t, w) && uid in w && Separate(host, w, uid, w[uid].svc)
    ensures var w' := w - {uid};
            s in t.servers && s !in Claimed(host, w[uid].svc) <==> exists k :: k in w' && s in ServersOf(host, w'[k].svc)
  {
    var w' := w - {uid};
    if k :| k in w' && s in ServersOf(host, w'[k].svc) {
      Apart(host, w, uid, w[uid].svc, k);
      assert s in ServersOf(host, w[k].svc);
    }
    if s in t.servers && s !in Claimed(host, w[uid].svc) {
      var k :| k in w && s in ServersOf(host, w[k].svc);
      assert k in w' && s in ServersOf(host, w'[k].svc);
    }
  }

  lemma RouteWithout(host: string, w: World, uid: Uid, t: Table, x: Route)
    requires Represents(host, t, w) && uid in w && Separate(host, w, uid, w[uid].svc)
    ensures var w' := w - {uid};
            x in t.routes && x.server !in Claimed(host, w[uid].svc) <==>
            exists k :: k in w' && WantsRoute(host, w'[k].svc, w'[k].m, x)
  {
    var w' := w - {uid};
    if k :| k in w' && WantsRoute(host, w'[k].svc, w'[k].m, x) {
      Apart(host, w, uid, w[uid].svc, k);
      assert WantsRoute(host, w[k].svc, w[k].m, x);
    }
    if x in t.routes && x.server !in Claimed(host, w[uid].svc) {
      var k :| k in w && WantsRoute(host, w[k].svc, w[k].m, x);
      WantedServer(host, w[k].svc, w[k].m, x);
      assert k in w' && WantsRoute(host, w'[k].svc, w'[k].m, x);
    }
  }

  lemma DeleteKeeps(host: string, w: World, t: Table, u: ServiceUpdateSingle)
    requires IsAddress(host) && Represents(host, t, w)
    requires u.service.uid in w && u.service == w[u.service.uid].svc && Separate(host, w, u.service.uid, u.service)
    ensures Represents(host, DeleteOne(host, t, u), After(w, u, ServiceDelete, map[]))
  {
    RepresentsClosed(host, t, w);
    ReleaseEffect(host, t, u.service, |u.service.ports|);
    assert Prefix(u.service, |u.service.ports|) == u.service;
    WorldWithout(host, w, u.service.uid, t);
  }

  lemma WantsSame(host: string, svc: Service, a: IpMap, b: IpMap, x: Route)
    requires x.ip in a && x.ip in b && SamePorts(a[x.ip], b[x.ip])
    ensures WantsRoute(host, svc, a, x) <==> WantsRoute(host, svc, b, x)
  {
    assert forall e :: e in a[x.ip] <==> e in multiset(a[x.ip]);
    assert forall e :: e in b[x.ip] <==> e in multiset(b[x.ip]);
  }

  /** Deleting and then adding the diff's routes turns the routes wanted before into those wanted now. */
  lemma DiffedRoutes(host: string, svc: Service, a: IpMap, b: IpMap, dels: seq<Endpoint>, adds: seq<Endpoint>, x: Route)
    requires IsDiff(a, b, dels, adds)
    ensures WantsRoute(host, svc, b, x) <==>
              || (WantsRoute(host, svc, a, x) && x.ip !in IpsOf(dels))
              || (WantsRoute(host, svc, b, x) && x.ip in IpsOf(adds))
  {
    if x.ip in a.Keys + b.Keys {
      assert DiffAt(a, b, x.ip in IpsOf(dels), x.ip in IpsOf(adds), x.ip);
      if x.ip in a && x.ip in b && x.ip !in IpsOf(dels) {
        WantsSame(host, svc, a, b, x);
      }
    }
  }

  lemma OwnServers(host: string, w: World, t: Table, uid: Uid)
    requires Represents(host, t, w) && uid in w && Separate(host, w, uid, w[uid].svc)
    ensures var svc := w[uid].svc;
            if IsAddress(svc.clusterIP) then Claimed(host, svc) <= t.servers else Claimed(host, svc) !! t.servers
  {
    var svc := w[uid].svc;
    if IsAddress(svc.clusterIP) {
      forall s | s in Claimed(host, svc) ensures s in t.servers {
        assert s in ServersOf(host, w[uid].svc);
      }
    } else {
      forall s | s in t.servers ensures s !in Claimed(host, svc) {
        var k :| k in w && s in ServersOf(host, w[k].svc);
        assert k != uid;
        Apart(host, w, uid, svc, k);
      }
    }
  }

  lemma UpdateOneEffect(host: string, t: Table, u: ServiceUpdateSingle, a: IpMap, b: IpMap, x: Route)
    requires WellFormed(host, u.service) && IsAddress(host)
    requires FromService(u.service, a) && FromService(u.service, b)
    requires if IsAddress(u.service.clusterIP) then Claimed(host, u.service) <= t.servers else Claimed(host, u.service) !! t.servers
    requires IsDiff(a, b, u.endpointDeletions, u.endpointAdditions)
    ensures UpdateOne(host, t, u).servers == t.servers
    ensures x in UpdateOne(host, t, u).routes <==>
              || (x in t.routes && !(x.ip in IpsOf(u.endpointDeletions) && WantsRoute(host, u.service, a, x)))
              || (x.ip in IpsOf(u.endpointAdditions) && WantsRoute(host, u.service, b, x))
  {
    var r := ReverseOf(host, u.service, |u.service.ports|);
    ReverseOfReverses(host, u.service, |u.service.ports|);
    EffectiveRoutes(host, t, u.service, r, u.endpointDeletions, a, x);
    EffectiveRoutes(host, t, u.service, r, u.endpointAdditions, b, x);
  }

  lemma UpdateKeeps(host: string, w: World, t: Table, u: ServiceUpdateSingle, m: IpMap)
    requires IsAddress(host) && WellFormed(host, u.service) && Represents(host, t, w)
    requires u.service.uid in w && u.service == w[u.service.uid].svc && Separate(host, w, u.service.uid, u.service)
    requires FromService(u.service, w[u.service.uid].m) && FromService(u.service, m)
    requires IsDiff(w[u.service.uid].m, m, u.endpointDeletions, u.endpointAdditions)
    ensures Represents(host, UpdateOne(host, t, u), After(w, u, ServiceEndpointsUpdate, m))
  {
    var uid := u.service.uid;
    var w', t' := After(w, u, ServiceEndpointsUpdate, m), UpdateOne(host, t, u);
    OwnServers(host, w, t, uid);
    forall x ensures t'.servers == t.servers && (x in t'.routes <==> exists k :: k in w' && WantsRoute(host, w'[k].svc, w'[k].m, x)) {
      UpdateOneEffect(host, t, u, w[uid].m, m, x);
      UpdatedRoute(host, w, t, t', u, m, x);
    }
    SameServices(host, w, w', t, t');
  }

  lemma SameServices(host: string, w: World, w': World, t: Table, t': Table)
    requires Represents(host, t, w) && t'.servers == t.servers
    requires w'.Keys == w.Keys && forall k :: k in w ==> w'[k].svc == w[k].svc
    ensures forall s :: s in t'.servers <==> exists k :: k in w' && s in ServersOf(host, w'[k].svc)
  {
    forall s ensures s in t'.servers <==> exists k :: k in w' && s in ServersOf(host, w'[k].svc) {
      if k :| k in w && s in ServersOf(host, w[k].svc) { assert s in ServersOf(host, w'[k].svc); }
      if k :| k in w' && s in ServersOf(host, w'[k].svc) { assert s in ServersOf(host, w[k].svc); }
    }
  }

  lemma UpdatedRoute(host: string, w: World, t: Table, t': Table, u: ServiceUpdateSingle, m: IpMap, x: Route)
    requires Represents(host, t, w)
    requires u.service.uid in w && u.service == w[u.service.uid].svc && Separate(host, w, u.service.uid, u.service)
    requires IsDiff(w[u.service.uid].m, m, u.endpointDeletions, u.endpointAdditions)
    requires x in t'.routes <==>
               || (x in t.routes && !(x.ip in IpsOf(u.endpointDeletions) && WantsRoute(host, u.service, w[u.service.uid].m, x)))
               || (x.ip in IpsOf(u.endpointAdditions) && WantsRoute(host, u.service, m, x))
    ensures var w' := w[u.service.uid := View(u.service, m)];
            x in t'.routes <==> exists k :: k in w' && WantsRoute(host, w'[k].svc, w'[k].m, x)
  {
    var uid := u.service.uid;
    var w' := w[uid := View(u.service, m)];
    DiffedRoutes(host, u.service, w[uid].m, m, u.endpointDeletions, u.endpointAdditions, x);
    if k :| k in w' && WantsRoute(host, w'[k].svc, w'[k].m, x) {
      if k != uid {
        Apart(host, w, uid, u.service, k);
        assert WantsRoute(host, w[k].svc, w[k].m, x);
        if WantsRoute(host, u.service, w[uid].m, x) { WantedServer(host, u.service, w[uid].m, x); }
      } else {
        assert WantsRoute(host, w[uid].svc, w[uid].m, x) ==> x in t.routes;
      }
    }
    if x in t'.routes {
      if WantsRoute(host, u.service, m, x) {
        assert WantsRoute(host, w'[uid].svc, w'[uid].m, x);
      } else {
        var k :| k in w && WantsRoute(host, w[k].svc, w[k].m, x);
        assert k != uid;
        assert WantsRoute(host, w'[k].svc, w'[k].m, x);
      }
    }
  }

  // ---------------------------------------------------------------------------
  // Batches
  // ---------------------------------------------------------------------------

  function ViewOf(item: ServiceAndEndpoints): View {
    View(item.service, EpMap(item.endpoints))
  }

  function WorldOf(snap: Snapshot): World {
    map uid | uid in snap :: ViewOf(snap[uid])
  }

  function ServicesOf(snap: Snapshot): map<Uid, Service> {
    map uid | uid in snap :: snap[uid].service
  }

  /** The world with the views of `snap` for the given services. */
  function Overlay(w: World, snap: Snapshot, uids: set<Uid>): World {
    map uid | uid in w.Keys + (uids * snap.Keys) :: if uid in uids && uid in snap then ViewOf(snap[uid]) else w[uid]
  }

  lemma FirstUid(updates: seq<ServiceUpdateSingle>)
    requires updates != [] && DistinctUids(updates)
    ensures DistinctUids(updates[1..]) && updates[0] in updates
    ensures updates[0].service.uid !in UidsIn(updates[1..])
    ensures UidsIn(updates) == {updates[0].service.uid} + UidsIn(updates[1..])
    ensures forall u :: u in updates[1..] ==> u in updates
  {
    assert updates == [updates[0]] + updates[1..];
  }

  lemma OverlayStep(w: World, snap: Snapshot, uid: Uid, uids: set<Uid>)
    requires uid in snap
    ensures Overlay(w[uid := ViewOf(snap[uid])], snap, uids) == Overlay(w, snap, {uid} + uids)
  {
  }

  lemma NoOverlay(w: World, snap: Snapshot, updates: seq<ServiceUpdateSingle>)
    requires updates == []
    ensures Overlay(w, snap, UidsIn(updates)) == w
  {
    assert UidsIn(updates) == {};
  }

  /** What the additions of a poll promise about themselves. */
  predicate AdditionsFor(w: World, new_: Snapshot, updates: seq<ServiceUpdateSingle>) {
    && DistinctUids(updates)
    && (forall u :: u in updates ==> AdditionFor(new_, u) && u.service.uid !in w)
  }

  lemma RestOfAdditions(w: World, new_: Snapshot, updates: seq<ServiceUpdateSingle>)
    requires updates != [] && AdditionsFor(w, new_, updates)
    ensures var uid := updates[0].service.uid;
            && AdditionFor(new_, updates[0]) && uid !in w
            && AdditionsFor(w[uid := ViewOf(new_[uid])], new_, updates[1..])
            && Overlay(w[uid := ViewOf(new_[uid])], new_, UidsIn(updates[1..])) == Overlay(w, new_, UidsIn(updates))
  {
    FirstUid(updates);
    var uid := updates[0].service.uid;
    OverlayStep(w, new_, uid, UidsIn(updates[1..]));
    forall v | v in updates[1..] ensures AdditionFor(new_, v) && v.service.uid !in w && v.service.uid != uid {
      assert v.service.uid in UidsIn(updates[1..]);
    }
  }

  /** Nobody in w has a server that one of these services would have. */
  ghost predicate AllFree(host: string, w: World, new_: Snapshot, uids: set<Uid>) {
    forall uid :: uid in uids && uid in new_ ==> Free(host, w, uid, new_[uid].service)
  }

  lemma StillFree(host: string, w: World, new_: Snapshot, uid: Uid, rest: set<Uid>)
    requires Compatible(host, ServicesOf(new_)) && uid in new_ && AllFree(host, w, new_, {uid} + rest)
    ensures AllFree(host, w[uid := ViewOf(new_[uid])], new_, rest)
  {
    forall v | v in rest && v in new_ ensures Free(host, w[uid := ViewOf(new_[uid])], v, new_[v].service) {
      assert Free(host, w, v, new_[v].service);
      assert ServicesOf(new_)[v] == new_[v].service && ServicesOf(new_)[uid] == new_[uid].service;
    }
  }

  lemma {:induction false} AdditionsKeep(host: string, w: World, t: Table, new_: Snapshot, updates: seq<ServiceUpdateSingle>)
    requires Compatible(host, ServicesOf(new_)) && Represents(host, t, w)
    requires Grounded(new_) && AdditionsFor(w, new_, updates) && AllFree(host, w, new_, UidsIn(updates))
    ensures Represents(host, HandleAll(host, t, updates, ServiceAdd), Overlay(w, new_, UidsIn(updates)))
    decreases |updates|
  {
    if updates == [] {
      NoOverlay(w, new_, updates);
    } else {
      var w1 := AddsFirst(host, w, t, new_, updates);
      AdditionsKeep(host, w1, AddOne(host, t, updates[0]), new_, updates[1..]);
    }
  }

  lemma AddsFirst(host: string, w: World, t: Table, new_: Snapshot, updates: seq<ServiceUpdateSingle>) returns (w1: World)
    requires Compatible(host, ServicesOf(new_)) && Represents(host, t, w) && updates != []
    requires Grounded(new_) && AdditionsFor(w, new_, updates) && AllFree(host, w, new_, UidsIn(updates))
    ensures Represents(host, AddOne(host, t, updates[0]), w1)
    ensures AdditionsFor(w1, new_, updates[1..]) && AllFree(host, w1, new_, UidsIn(updates[1..]))
    ensures Overlay(w1, new_, UidsIn(updates[1..])) == Overlay(w, new_, UidsIn(updates))
  {
    RestOfAdditions(w, new_, updates);
    FirstUid(updates);
    var u := updates[0];
    AddsOne(host, w, t, new_, u);
    StillFree(host, w, new_, u.service.uid, UidsIn(updates[1..]));
    w1 := w[u.service.uid := ViewOf(new_[u.service.uid])];
  }

  lemma AddsOne(host: string, w: World, t: Table, new_: Snapshot, u: ServiceUpdateSingle)
    requires Compatible(host, ServicesOf(new_)) && Represents(host, t, w) && Grounded(new_)
    requires AdditionFor(new_, u) && u.service.uid !in w && Free(host, w, u.service.uid, u.service)
    ensures Represents(host, AddOne(host, t, u), w[u.service.uid := ViewOf(new_[u.service.uid])])
  {
    var m := EpMap(new_[u.service.uid].endpoints);
    assert ServicesOf(new_)[u.service.uid] == u.service;
    AddKeeps(host, w, t, u, m);
    assert After(w, u, ServiceAdd, m) == w[u.service.uid := ViewOf(new_[u.service.uid])];
  }

  predicate DeletionsFrom(w: World, updates: seq<ServiceUpdateSingle>) {
    DistinctUids(updates) && forall u :: u in updates ==> u.service.uid in w && u.service == w[u.service.uid].svc
  }

  lemma RestOfDeletions(w: World, updates: seq<ServiceUpdateSingle>)
    requires updates != [] && DeletionsFrom(w, updates)
    ensures var uid := updates[0].service.uid;
            && uid in w && updates[0].service == w[uid].svc
            && DeletionsFrom(w - {uid}, updates[1..])
            && w - {uid} - UidsIn(updates[1..]) == w - UidsIn(updates)
  {
    FirstUid(updates);
    forall v | v in updates[1..] ensures v.service.uid != updates[0].service.uid && v in updates {
      assert v.service.uid in UidsIn(updates[1..]);
    }
  }

  ghost predicate AllSeparate(host: string, w: World, uids: set<Uid>) {
    forall uid :: uid in uids && uid in w ==> Separate(host, w, uid, w[uid].svc)
  }

  lemma {:induction false} DeletionsKeep(host: string, w: World, t: Table, updates: seq<ServiceUpdateSingle>)
    requires IsAddress(host) && Represents(host, t, w)
    requires DeletionsFrom(w, updates) && AllSeparate(host, w, UidsIn(updates))
    ensures Represents(host, HandleAll(host, t, updates, ServiceDelete), w - UidsIn(updates))
    decreases |updates|
  {
    if updates == [] {
      assert w - UidsIn(updates) == w;
    } else {
      RestOfDeletions(w, updates);
      FirstUid(updates);
      var u := updates[0];
      assert Separate(host, w, u.service.uid, u.service);
      DeleteKeeps(host, w, t, u);
      var w1 := w - {u.service.uid};
      assert After(w, u, ServiceDelete, map[]) == w1;
      forall v | v in UidsIn(updates[1..]) && v in w1 ensures Separate(host, w1, v, w1[v].svc) {
        assert Separate(host, w, v, w[v].svc);
      }
      DeletionsKeep(host, w1, DeleteOne(host, t, u), updates[1..]);
    }
  }

  /** An endpoint update written for world w. */
  predicate UpdateIn(w: World, new_: Snapshot, u: ServiceUpdateSingle) {
    var uid := u.service.uid;
    && uid in w && uid in new_ && u.service == w[uid].svc && u.service == new_[uid].service
    && IsDiff(w[uid].m, EpMap(new_[uid].endpoints), u.endpointDeletions, u.endpointAdditions)
  }

  predicate UpdatesIn(w: World, new_: Snapshot, updates: seq<ServiceUpdateSingle>) {
    DistinctUids(updates) && forall u :: u in updates ==> UpdateIn(w, new_, u)
  }

  lemma RestOfUpdates(w: World, new_: Snapshot, updates: seq<ServiceUpdateSingle>)
    requires updates != [] && UpdatesIn(w, new_, updates)
    ensures var uid := updates[0].service.uid;
            && UpdateIn(w, new_, updates[0])
            && UpdatesIn(w[uid := ViewOf(new_[uid])], new_, updates[1..])
            && Overlay(w[uid := ViewOf(new_[uid])], new_, UidsIn(updates[1..])) == Overlay(w, new_, UidsIn(updates))
  {
    FirstUid(updates);
    var uid := updates[0].service.uid;
    assert UpdateIn(w, new_, updates[0]);
    OverlayStep(w, new_, uid, UidsIn(updates[1..]));
    forall v | v in updates[1..] ensures UpdateIn(w[uid := ViewOf(new_[uid])], new_, v) {
      assert v.service.uid in UidsIn(updates[1..]);
      assert UpdateIn(w, new_, v);
    }
  }

  /** Every service of w is one of the snapshot's, with endpoints it could have. */
  ghost predicate Reflects(w: World, new_: Snapshot) {
    Sound(w) && forall uid :: uid in w ==> uid in new_ && w[uid].svc == new_[uid].service
  }

  lemma {:induction false} UpdatesKeep(host: string, w: World, t: Table, new_: Snapshot, updates: seq<ServiceUpdateSingle>)
    requires Compatible(host, ServicesOf(new_)) && Reflects(w, new_) && Represents(host, t, w)
    requires Grounded(new_) && UpdatesIn(w, new_, updates)
    ensures Represents(host, HandleAll(host, t, updates, ServiceEndpointsUpdate), Overlay(w, new_, UidsIn(updates)))
    decreases |updates|
  {
    if updates == [] {
      NoOverlay(w, new_, updates);
    } else {
      var w1 := UpdatesFirst(host, w, t, new_, updates);
      UpdatesKeep(host, w1, UpdateOne(host, t, updates[0]), new_, updates[1..]);
    }
  }

  lemma UpdatesFirst(host: string, w: World, t: Table, new_: Snapshot, updates: seq<ServiceUpdateSingle>) returns (w1: World)
    requires Compatible(host, ServicesOf(new_)) && Reflects(w, new_) && Represents(host, t, w)
    requires Grounded(new_) && UpdatesIn(w, new_, updates) && updates != []
    ensures Reflects(w1, new_) && Represents(host, UpdateOne(host, t, updates[0]), w1) && UpdatesIn(w1, new_, updates[1..])
    ensures Overlay(w1, new_, UidsIn(updates[1..])) == Overlay(w, new_, UidsIn(updates))
  {
    RestOfUpdates(w, new_, updates);
    UpdatesOne(host, w, t, new_, updates[0]);
    w1 := w[updates[0].service.uid := ViewOf(new_[updates[0].service.uid])];
  }

  lemma UpdatesOne(host: string, w: World, t: Table, new_: Snapshot, u: ServiceUpdateSingle)
    requires Compatible(host, ServicesOf(new_)) && Reflects(w, new_) && Represents(host, t, w)
    requires Grounded(new_) && UpdateIn(w, new_, u)
    ensures var w1 := w[u.service.uid := ViewOf(new_[u.service.uid])];
            Reflects(w1, new_) && Represents(host, UpdateOne(host, t, u), w1)
  {
    var uid := u.service.uid;
    var m, all := EpMap(new_[uid].endpoints), ServicesOf(new_);
    forall k | k in w && k != uid ensures ServersOf(host, w[k].svc) !! Claimed(host, u.service) {
      assert Claimed(host, all[k]) !! Claimed(host, all[uid]);
    }
    assert all[uid] == u.service;
    UpdateKeeps(host, w, t, u, m);
    assert After(w, u, ServiceEndpointsUpdate, m) == w[uid := ViewOf(new_[uid])];
  }

  // ---------------------------------------------------------------------------
  // Polls and runs
  // ---------------------------------------------------------------------------

  /** A service keeps its spec while it exists. */
  predicate KeepsSpecs(old_: Snapshot, new_: Snapshot) {
    forall uid :: uid in old_ && uid in new_ ==> old_[uid].service == new_[uid].service
  }

  /** A deleted service claims a server that an added one would have. */
  ghost predicate Reused(host: string, old_: Snapshot, new_: Snapshot) {
    exists gone, added, s :: ReusedAt(host, old_, new_, gone, added, s)
  }

  predicate ReusedAt(host: string, old_: Snapshot, new_: Snapshot, gone: Uid, added: Uid, s: Server) {
    && gone in old_ && gone !in new_ && added in new_ && added !in old_
    && s in Claimed(host, old_[gone].service) && s in ServersOf(host, new_[added].service)
  }

  /** Either snapshot makes sense by itself and no service changes its spec. */
  ghost predicate Consistent(host: string, old_: Snapshot, new_: Snapshot) {
    KeepsSpecs(old_, new_) && Compatible(host, ServicesOf(old_)) && Compatible(host, ServicesOf(new_))
  }

  /** Moreover, no server changes hands within one poll. */
  ghost predicate Steady(host: string, old_: Snapshot, new_: Snapshot) {
    Consistent(host, old_, new_) && !Reused(host, old_, new_)
  }

  lemma ConsumeBatches(host: string, t: Table, adds: seq<ServiceUpdateSingle>, dels: seq<ServiceUpdateSingle>, eps: seq<ServiceUpdateSingle>)
    ensures Consume(host, t, Batches(adds, dels, eps)) ==
              HandleAll(host, HandleAll(host, HandleAll(host, t, adds, ServiceAdd), dels, ServiceDelete), eps, ServiceEndpointsUpdate)
  {
    var a := if adds != [] then [ServiceUpdate(adds, ServiceAdd)] else [];
    var d := if dels != [] then [ServiceUpdate(dels, ServiceDelete)] else [];
    var e := if eps != [] then [ServiceUpdate(eps, ServiceEndpointsUpdate)] else [];
    var t1 := HandleAll(host, t, adds, ServiceAdd);
    var t2 := HandleAll(host, t1, dels, ServiceDelete);
    ConsumeAtMostOne(host, t, adds, ServiceAdd);
    ConsumeAtMostOne(host, t1, dels, ServiceDelete);
    ConsumeAtMostOne(host, t2, eps, ServiceEndpointsUpdate);
    ConsumeAppend(host, t, a, d);
    ConsumeAppend(host, t, a + d, e);
  }

  lemma ConsumeAtMostOne(host: string, t: Table, updates: seq<ServiceUpdateSingle>, op: ServiceOperation)
    ensures Consume(host, t, if updates != [] then [ServiceUpdate(updates, op)] else []) == HandleAll(host, t, updates, op)
  {
    var b := ServiceUpdate(updates, op);
    assert [b][1..] == [];
  }

  lemma {:induction false} ConsumeAppend(host: string, t: Table, a: seq<ServiceUpdate>, b: seq<ServiceUpdate>)
    ensures Consume(host, t, a + b) == Consume(host, Consume(host, t, a), b)
    decreases |a|
  {
    if a == [] {
      assert a + b == b;
    } else {
      var t1 := HandleAll(host, t, a[0].updates, a[0].op);
      ConsumeAppend(host, t1, a[1..], b);
      ConsumeFirst(host, t, a);
      ConsumeFirst(host, t, a + b);
      assert (a + b)[1..] == a[1..] + b;
    }
  }

  lemma ConsumeFirst(host: string, t: Table, a: seq<ServiceUpdate>)
    requires a != []
    ensures Consume(host, t, a) == Consume(host, HandleAll(host, t, a[0].updates, a[0].op), a[1..])
  {
  }

  /** Two worlds of the same services whose endpoint maps agree up to port order want the same table. */
  lemma SameWants(host: string, t: Table, a: World, b: World)
    requires a.Keys == b.Keys
    requires forall uid :: uid in a ==> a[uid].svc == b[uid].svc && SameUpToOrder(a[uid].m, b[uid].m)
    requires Represents(host, t, a)
    ensures Represents(host, t, b)
  {
    SameServices(host, a, b, t, t);
    forall x ensures x in t.routes <==> exists uid :: uid in b && WantsRoute(host, b[uid].svc, b[uid].m, x) {
      if uid :| uid in a && WantsRoute(host, a[uid].svc, a[uid].m, x) {
        WantsSame(host, a[uid].svc, a[uid].m, b[uid].m, x);
        assert WantsRoute(host, b[uid].svc, b[uid].m, x);
      }
      if uid :| uid in b && WantsRoute(host, b[uid].svc, b[uid].m, x) {
        WantsSame(host, a[uid].svc, a[uid].m, b[uid].m, x);
        assert WantsRoute(host, a[uid].svc, a[uid].m, x);
      }
    }
  }

  lemma PollKeeps(host: string, old_: Snapshot, new_: Snapshot, t: Table, batches: seq<ServiceUpdate>)
    requires Keyed(old_) && Keyed(new_) && Grounded(old_) && Grounded(new_)
    requires Steady(host, old_, new_) && Announced(old_, new_, batches)
    requires Represents(host, t, WorldOf(old_))
    ensures Represents(host, Consume(host, t, batches), WorldOf(new_))
  {
    var adds, dels, eps :| batches == Batches(adds, dels, eps)
      && IsAdditions(old_, new_, adds) && IsDeletions(old_, new_, dels) && IsUpdates(old_, new_, eps);
    ConsumeBatches(host, t, adds, dels, eps);
    PollSteps(host, old_, new_, t, adds, dels, eps);
  }

  lemma PollSteps(host: string, old_: Snapshot, new_: Snapshot, t: Table,
                  adds: seq<ServiceUpdateSingle>, dels: seq<ServiceUpdateSingle>, eps: seq<ServiceUpdateSingle>)
    requires Keyed(old_) && Keyed(new_) && Grounded(old_) && Grounded(new_)
    requires Steady(host, old_, new_)
    requires IsAdditions(old_, new_, adds) && IsDeletions(old_, new_, dels) && IsUpdates(old_, new_, eps)
    requires Represents(host, t, WorldOf(old_))
    ensures Represents(host,
              HandleAll(host, HandleAll(host, HandleAll(host, t, adds, ServiceAdd), dels, ServiceDelete), eps, ServiceEndpointsUpdate),
              WorldOf(new_))
  {
    var w0 := WorldOf(old_);
    AddsFit(host, old_, new_, adds);
    AdditionsKeep(host, w0, t, new_, adds);
    var w1, t1 := Overlay(w0, new_, UidsIn(adds)), HandleAll(host, t, adds, ServiceAdd);
    DelsFit(host, old_, new_, adds, dels);
    DeletionsKeep(host, w1, t1, dels);
    var w2, t2 := w1 - UidsIn(dels), HandleAll(host, t1, dels, ServiceDelete);
    EpsFit(old_, new_, adds, dels, eps);
    UpdatesKeep(host, w2, t2, new_, eps);
    var w3 := Overlay(w2, new_, UidsIn(eps));
    AfterPoll(old_, new_, adds, dels, eps);
    SameWants(host, HandleAll(host, t2, eps, ServiceEndpointsUpdate), w3, WorldOf(new_));
  }

  /** Added services meet only kept ones, which the new snapshot keeps apart, and deleted ones. */
  lemma AddsFit(host: string, old_: Snapshot, new_: Snapshot, adds: seq<ServiceUpdateSingle>)
    requires Steady(host, old_, new_) && IsAdditions(old_, new_, adds)
    ensures AdditionsFor(WorldOf(old_), new_, adds) && AllFree(host, WorldOf(old_), new_, UidsIn(adds))
  {
    var w0, all := WorldOf(old_), ServicesOf(new_);
    assert forall u :: u in adds ==> u.service.uid in UidsIn(adds);
    forall uid, k | uid in UidsIn(adds) && k in w0 && k != uid
      ensures ServersOf(host, w0[k].svc) !! ServersOf(host, new_[uid].service)
    {
      if k in new_ {
        assert Claimed(host, all[k]) !! Claimed(host, all[uid]);
      } else {
        forall s ensures !(s in ServersOf(host, w0[k].svc) && s in ServersOf(host, new_[uid].service)) {
          assert !ReusedAt(host, old_, new_, k, uid, s);
        }
      }
    }
  }

  /** Deleted services meet the other old ones and the added ones. */
  lemma DelsFit(host: string, old_: Snapshot, new_: Snapshot, adds: seq<ServiceUpdateSingle>, dels: seq<ServiceUpdateSingle>)
    requires Steady(host, old_, new_) && IsAdditions(old_, new_, adds) && IsDeletions(old_, new_, dels)
    ensures var w1 := Overlay(WorldOf(old_), new_, UidsIn(adds));
            DeletionsFrom(w1, dels) && AllSeparate(host, w1, UidsIn(dels))
  {
    var w1, all := Overlay(WorldOf(old_), new_, UidsIn(adds)), ServicesOf(old_);
    forall u | u in dels ensures u.service.uid in w1 && u.service == w1[u.service.uid].svc {
      assert DeletionFor(old_, u) && u.service.uid in UidsIn(dels);
    }
    forall uid, k | uid in UidsIn(dels) && uid in w1 && k in w1 && k != uid
      ensures ServersOf(host, w1[k].svc) !! Claimed(host, w1[uid].svc)
    {
      if k in old_ {
        assert Claimed(host, all[k]) !! Claimed(host, all[uid]);
      } else {
        forall s ensures !(s in ServersOf(host, w1[k].svc) && s in Claimed(host, w1[uid].svc)) {
          assert !ReusedAt(host, old_, new_, uid, k, s);
        }
      }
    }
  }

  lemma EpsFit(old_: Snapshot, new_: Snapshot, adds: seq<ServiceUpdateSingle>, dels: seq<ServiceUpdateSingle>, eps: seq<ServiceUpdateSingle>)
    requires Grounded(old_) && Grounded(new_) && KeepsSpecs(old_, new_)
    requires IsAdditions(old_, new_, adds) && IsDeletions(old_, new_, dels) && IsUpdates(old_, new_, eps)
    ensures var w2 := Overlay(WorldOf(old_), new_, UidsIn(adds)) - UidsIn(dels);
            Reflects(w2, new_) && UpdatesIn(w2, new_, eps)
  {
    var w2 := Overlay(WorldOf(old_), new_, UidsIn(adds)) - UidsIn(dels);
    forall u | u in eps ensures UpdateIn(w2, new_, u) {
      assert UpdateFor(old_, new_, u) && u.service.uid in UidsIn(eps);
    }
  }

  /** The world the three batches lead to agrees with the new snapshot. */
  lemma AfterPoll(old_: Snapshot, new_: Snapshot, adds: seq<ServiceUpdateSingle>, dels: seq<ServiceUpdateSingle>, eps: seq<ServiceUpdateSingle>)
    requires IsAdditions(old_, new_, adds) && IsDeletions(old_, new_, dels) && IsUpdates(old_, new_, eps)
    requires KeepsSpecs(old_, new_)
    ensures var w := Overlay(Overlay(WorldOf(old_), new_, UidsIn(adds)) - UidsIn(dels), new_, UidsIn(eps));
            && w.Keys == WorldOf(new_).Keys
            && forall uid :: uid in w ==> w[uid].svc == WorldOf(new_)[uid].svc && SameUpToOrder(w[uid].m, WorldOf(new_)[uid].m)
  {
    var w := Overlay(Overlay(WorldOf(old_), new_, UidsIn(adds)) - UidsIn(dels), new_, UidsIn(eps));
    forall uid
      ensures uid in w <==> uid in new_
      ensures uid in w ==> w[uid].svc == new_[uid].service && SameUpToOrder(w[uid].m, EpMap(new_[uid].endpoints))
    {
      AfterPollAt(old_, new_, adds, dels, eps, uid);
    }
  }

  lemma AfterPollAt(old_: Snapshot, new_: Snapshot, adds: seq<ServiceUpdateSingle>, dels: seq<ServiceUpdateSingle>, eps: seq<ServiceUpdateSingle>, uid: Uid)
    requires IsAdditions(old_, new_, adds) && IsDeletions(old_, new_, dels) && IsUpdates(old_, new_, eps)
    requires KeepsSpecs(old_, new_)
    ensures var w := Overlay(Overlay(WorldOf(old_), new_, UidsIn(adds)) - UidsIn(dels), new_, UidsIn(eps));
            && (uid in w <==> uid in new_)
            && (uid in w ==> w[uid].svc == new_[uid].service && SameUpToOrder(w[uid].m, EpMap(new_[uid].endpoints)))
  {
    OverlaidAt(old_, new_, UidsIn(adds), UidsIn(dels), UidsIn(eps), uid);
    if uid in old_ && uid in new_ && uid !in UidsIn(eps) {
      KeptAgrees(old_, new_, eps, uid);
    }
  }

  lemma KeptAgrees(old_: Snapshot, new_: Snapshot, eps: seq<ServiceUpdateSingle>, uid: Uid)
    requires IsUpdates(old_, new_, eps) && uid in old_ && uid in new_ && uid !in UidsIn(eps)
    ensures SameUpToOrder(EpMap(old_[uid].endpoints), EpMap(new_[uid].endpoints))
  {
    assert Unchanged(old_, new_, uid);
    EmptyDiffIffSame(EpMap(old_[uid].endpoints), EpMap(new_[uid].endpoints), [], []);
  }

  lemma OverlaidAt(old_: Snapshot, new_: Snapshot, adds: set<Uid>, dels: set<Uid>, eps: set<Uid>, uid: Uid)
    requires adds == new_.Keys - old_.Keys && dels == old_.Keys - new_.Keys && eps <= old_.Keys * new_.Keys
    ensures var w := Overlay(Overlay(WorldOf(old_), new_, adds) - dels, new_, eps);
            && (uid in w <==> uid in new_)
            && (uid in w ==> w[uid] == if uid in old_ && uid !in eps then ViewOf(old_[uid]) else ViewOf(new_[uid]))
  {
    var w1 := Overlay(WorldOf(old_), new_, adds);
    var w2 := w1 - dels;
    assert uid in w2 <==> uid in new_;
  }

  /** A run: the snapshots of successive successful polls and the batches each one sent. */
  ghost predicate IsRun(host: string, snaps: seq<Snapshot>, sent: seq<seq<ServiceUpdate>>) {
    && |snaps| == |sent|
    && forall i :: 0 <= i < |snaps| ==> IsPoll(host, Before(snaps, i), snaps[i], sent[i])
  }

  function Before(snaps: seq<Snapshot>, i: nat): Snapshot
    requires i <= |snaps|
  {
    if i == 0 then map[] else snaps[i - 1]
  }

  ghost predicate IsPoll(host: string, old_: Snapshot, new_: Snapshot, batches: seq<ServiceUpdate>) {
    Keyed(new_) && Grounded(new_) && Steady(host, old_, new_) && Announced(old_, new_, batches)
  }

  function Flatten(sent: seq<seq<ServiceUpdate>>): seq<ServiceUpdate> {
    if sent == [] then [] else Flatten(sent[..|sent| - 1]) + sent[|sent| - 1]
  }

  /** The table after a prefix of a run. */
  function TableAfter(host: string, sent: seq<seq<ServiceUpdate>>): Table {
    Consume(host, Table({}, {}), Flatten(sent))
  }

  /** What one more poll's batches do to the table. */
  lemma OneMorePoll(host: string, sent: seq<seq<ServiceUpdate>>)
    requires sent != []
    ensures var n := |sent| - 1;
            TableAfter(host, sent) == Consume(host, TableAfter(host, sent[..n]), sent[n])
  {
    ConsumeAppend(host, Table({}, {}), Flatten(sent[..|sent| - 1]), sent[|sent| - 1]);
  }

  lemma RunPrefix(host: string, snaps: seq<Snapshot>, sent: seq<seq<ServiceUpdate>>)
    requires IsRun(host, snaps, sent) && snaps != []
    ensures var n := |snaps| - 1;
            && IsRun(host, snaps[..n], sent[..n])
            && IsPoll(host, Before(snaps[..n], n), snaps[n], sent[n])
  {
    var n := |snaps| - 1;
    assert IsPoll(host, Before(snaps, n), snaps[n], sent[n]);
    forall i | 0 <= i < n ensures IsPoll(host, Before(snaps[..n], i), snaps[..n][i], sent[..n][i]) {
      assert IsPoll(host, Before(snaps, i), snaps[i], sent[i]);
    }
  }

  lemma PollKeepsAll(host: string, old_: Snapshot, new_: Snapshot, t: Table, batches: seq<ServiceUpdate>)
    requires Keyed(old_) && Grounded(old_) && IsPoll(host, old_, new_, batches)
    requires Represents(host, t, WorldOf(old_))
    ensures Keyed(new_) && Grounded(new_) && Represents(host, Consume(host, t, batches), WorldOf(new_))
  {
    PollKeeps(host, old_, new_, t, batches);
  }

  lemma EmptyTable(host: string)
    ensures Keyed(map[]) && Grounded(map[]) && Represents(host, Table({}, {}), WorldOf(map[]))
  {
  }

  lemma {:induction false} RunRepresents(host: string, snaps: seq<Snapshot>, sent: seq<seq<ServiceUpdate>>)
    requires IsRun(host, snaps, sent)
    ensures var last := Before(snaps, |snaps|);
            Keyed(last) && Grounded(last) && Represents(host, TableAfter(host, sent), WorldOf(last))
    decreases |snaps|
  {
    if snaps == [] {
      EmptyTable(host);
    } else {
      var n := |snaps| - 1;
      RunPrefix(host, snaps, sent);
      RunRepresents(host, snaps[..n], sent[..n]);
      PollKeepsAll(host, Before(snaps[..n], n), snaps[n], TableAfter(host, sent[..n]), sent[n]);
      OneMorePoll(host, sent);
    }
  }

  lemma RepresentsUnique(host: string, a: Table, b: Table, w: World)
    requires Represents(host, a, w) && Represents(host, b, w)
    ensures a == b
  {
    assert forall s :: s in a.servers <==> s in b.servers;
    assert forall x :: x in a.routes <==> x in b.routes;
    assert a.servers == b.servers && a.routes == b.routes;
  }

  /**
   * After any run of polls, once everything sent is consumed, the table is the one a fresh proxy builds from the
   * last snapshot alone.
   */
  lemma IncrementalIsFromScratch(host: string, snaps: seq<Snapshot>, sent: seq<seq<ServiceUpdate>>, scratch: seq<ServiceUpdate>)
    requires IsRun(host, snaps, sent) && snaps != []
    requires Announced(map[], snaps[|snaps| - 1], scratch)
    ensures TableAfter(host, sent) == Consume(host, Table({}, {}), scratch)
    ensures Represents(host, TableAfter(host, sent), WorldOf(snaps[|snaps| - 1]))
  {
    var n := |snaps| - 1;
    RunRepresents(host, snaps, sent);
    RunPrefix(host, snaps, sent);
    SteadyAlone(host, Before(snaps[..n], n), snaps[n]);
    EmptyTable(host);
    PollKeepsAll(host, map[], snaps[n], Table({}, {}), scratch);
    RepresentsUnique(host, TableAfter(host, sent), Consume(host, Table({}, {}), scratch), WorldOf(snaps[n]));
  }

  lemma SteadyAlone(host: string, old_: Snapshot, new_: Snapshot)
    requires Consistent(host, old_, new_)
    ensures Steady(host, map[], new_)
  {
  }

  // ---------------------------------------------------------------------------
  // A server that changes hands within one poll
  // ---------------------------------------------------------------------------

  lemma DropLoses(t: Table, s: Server)
    ensures Drop(t, s).servers <= t.servers && (IsAddress(s.ip) ==> s !in Drop(t, s).servers)
  {
  }

  lemma {:induction false} ReleaseLoses(host: string, t: Table, svc: Service, n: nat, s: Server)
    requires n <= |svc.ports|
    ensures Release(host, t, svc, n).servers <= t.servers
    ensures s in Claimed(host, Prefix(svc, n)) && IsAddress(s.ip) ==> s !in Release(host, t, svc, n).servers
  {
    if n == 0 {
      assert Claimed(host, Prefix(svc, 0)) == {};
    } else {
      ReleaseLoses(host, t, svc, n - 1, s);
      ClaimedStep(host, svc, n - 1);
      var p, t0 := svc.ports[n - 1], Release(host, t, svc, n - 1);
      DropLoses(t0, VipServer(svc, p));
      DropLoses(Drop(t0, VipServer(svc, p)), NodeServer(host, p));
      assert Release(host, t, svc, n).servers <= Drop(t0, VipServer(svc, p)).servers;
      assert svc.isNodePort ==> Release(host, t, svc, n) == Drop(Drop(t0, VipServer(svc, p)), NodeServer(host, p));
    }
  }

  lemma {:induction false} DeletionsLose(host: string, t: Table, updates: seq<ServiceUpdateSingle>, s: Server)
    ensures HandleAll(host, t, updates, ServiceDelete).servers <= t.servers
    ensures IsAddress(s.ip) && (exists u :: u in updates && s in Claimed(host, u.service)) ==>
              s !in HandleAll(host, t, updates, ServiceDelete).servers
    decreases |updates|
  {
    if updates != [] {
      var svc := updates[0].service;
      assert Prefix(svc, |svc.ports|) == svc;
      assert updates == [updates[0]] + updates[1..];
      ReleaseLoses(host, t, svc, |svc.ports|, s);
      DeletionsLose(host, DeleteOne(host, t, updates[0]), updates[1..], s);
    }
  }

  lemma {:induction false} UpdatesAddNoServer(host: string, t: Table, updates: seq<ServiceUpdateSingle>)
    ensures HandleAll(host, t, updates, ServiceEndpointsUpdate).servers == t.servers
    decreases |updates|
  {
    if updates != [] {
      UpdatesAddNoServer(host, UpdateOne(host, t, updates[0]), updates[1..]);
    }
  }

  /**
   * A server that a deleted service claims and an added one should have is gone after the poll, whatever the
   * table was: the deletions come after the additions, and endpoint updates add no server.
   */
  lemma ReusedAddressIsLost(host: string, old_: Snapshot, new_: Snapshot, t: Table, batches: seq<ServiceUpdate>,
                            gone: Uid, added: Uid, s: Server)
    requires IsAddress(host) && ReusedAt(host, old_, new_, gone, added, s) && Announced(old_, new_, batches)
    ensures s in ServersOf(host, new_[added].service) && s !in Consume(host, t, batches).servers
  {
    var adds, dels, eps :| batches == Batches(adds, dels, eps)
      && IsAdditions(old_, new_, adds) && IsDeletions(old_, new_, dels) && IsUpdates(old_, new_, eps);
    ConsumeBatches(host, t, adds, dels, eps);
    assert gone in UidsIn(dels);
    var u: ServiceUpdateSingle :| u in dels && u.service.uid == gone;
    assert DeletionFor(old_, u) && s in Claimed(host, u.service);
    var t1 := HandleAll(host, t, adds, ServiceAdd);
    DeletionsLose(host, t1, dels, s);
    UpdatesAddNoServer(host, HandleAll(host, t1, dels, ServiceDelete), eps);
  }

  /**
   * One poll between snapshots that make sense by themselves turns the table of the old one into the table of the
   * new one, which is also what a fresh proxy builds, if and only if no server changes hands.
   */
  lemma PollIsExactIff(host: string, old_: Snapshot, new_: Snapshot, t: Table, batches: seq<ServiceUpdate>, scratch: seq<ServiceUpdate>)
    requires Keyed(old_) && Keyed(new_) && Grounded(old_) && Grounded(new_) && Consistent(host, old_, new_)
    requires Represents(host, t, WorldOf(old_))
    requires Announced(old_, new_, batches) && Announced(map[], new_, scratch)
    ensures Represents(host, Consume(host, t, batches), WorldOf(new_)) <==> !Reused(host, old_, new_)
    ensures Consume(host, t, batches) == Consume(host, Table({}, {}), scratch) <==> !Reused(host, old_, new_)
  {
    EmptyTable(host);
    SteadyAlone(host, old_, new_);
    PollKeeps(host, map[], new_, Table({}, {}), scratch);
    if Reused(host, old_, new_) {
      var gone, added, s :| ReusedAt(host, old_, new_, gone, added, s);
      ReusedAddressIsLost(host, old_, new_, t, batches, gone, added, s);
      assert s in ServersOf(host, WorldOf(new_)[added].svc);
    } else {
      PollKeeps(host, old_, new_, t, batches);
      RepresentsUnique(host, Consume(host, t, batches), Consume(host, Table({}, {}), scratch), WorldOf(new_));
    }
  }

  function Web(uid: Uid, vip: string): ServiceAndEndpoints {
    ServiceAndEndpoints(Service(uid, "default", uid, map[], vip, [ServicePort(80, 0, 8080, Tcp)], false), [])
  }

  /** It does happen: two services of one port that follow each other under one address. */
  lemma ReuseHappens(host: string, vip: string, a: Uid, b: Uid)
    requires IsAddress(host) && IsAddress(vip) && a != b
    ensures var old_, new_ := map[a := Web(a, vip)], map[b := Web(b, vip)];
            && Keyed(old_) && Keyed(new_) && Grounded(old_) && Grounded(new_)
            && Consistent(host, old_, new_) && Reused(host, old_, new_)
  {
    var old_: Snapshot, new_: Snapshot := map[a := Web(a, vip)], map[b := Web(b, vip)];
    var s := Server(vip, 80, TcpTransport);
    assert VipServer(old_[a].service, old_[a].service.ports[0]) == s == VipServer(new_[b].service, new_[b].service.ports[0]);
    assert ReusedAt(host, old_, new_, a, b, s);
    assert EpMap(old_[a].endpoints) == map[] == EpMap(new_[b].endpoints);
  }

  // ---------------------------------------------------------------------------
  // Every sequence of snapshots has a run
  // ---------------------------------------------------------------------------

  /** Two address maps always have a diff, without a needless entry. */
  lemma DiffExists(a: IpMap, b: IpMap) returns (dels: seq<Endpoint>, adds: seq<Endpoint>)
    ensures IsDiff(a, b, dels, adds)
  {
    dels, adds := [], [];
    var rest, done: set<string> := a.Keys + b.Keys, {};
    while rest != {}
      invariant rest !! done && rest + done == a.Keys + b.Keys
      invariant DiffOn(a, b, dels, adds, done)
      decreases rest
    {
      var ip :| ip in rest;
      var same := ip in a && ip in b && SamePorts(a[ip], b[ip]);
      DiffExtend(a, b, dels, adds, done, ip, !same && ip in a, !same && ip in b);
      dels := if !same && ip in a then dels + [Endpoint(ip, a[ip])] else dels;
      adds := if !same && ip in b then adds + [Endpoint(ip, b[ip])] else adds;
      rest, done := rest - {ip}, done + {ip};
    }
    assert done == a.Keys + b.Keys;
  }

  lemma AdditionsExist(old_: Snapshot, new_: Snapshot) returns (adds: seq<ServiceUpdateSingle>)
    requires Keyed(new_)
    ensures IsAdditions(old_, new_, adds)
  {
    adds := [];
    var rest, done: set<Uid> := new_.Keys - old_.Keys, {};
    while rest != {}
      invariant rest !! done && rest + done == new_.Keys - old_.Keys
      invariant OneEach(adds, done) && forall u :: u in adds ==> AdditionFor(new_, u)
      decreases rest
    {
      var uid :| uid in rest;
      var d, a := DiffExists(map[], EpMap(new_[uid].endpoints));
      var u := ServiceUpdateSingle(new_[uid].service, a, d);
      AppendUpdate(adds, done, u);
      adds, rest, done := adds + [u], rest - {uid}, done + {uid};
    }
    assert done == new_.Keys - old_.Keys;
  }

  lemma DeletionsExist(old_: Snapshot, new_: Snapshot) returns (dels: seq<ServiceUpdateSingle>)
    requires Keyed(old_)
    ensures IsDeletions(old_, new_, dels)
  {
    dels := [];
    var rest, done: set<Uid> := old_.Keys - new_.Keys, {};
    while rest != {}
      invariant rest !! done && rest + done == old_.Keys - new_.Keys
      invariant OneEach(dels, done) && forall u :: u in dels ==> DeletionFor(old_, u)
      decreases rest
    {
      var uid :| uid in rest;
      var u := ServiceUpdateSingle(old_[uid].service, [], []);
      AppendUpdate(dels, done, u);
      dels, rest, done := dels + [u], rest - {uid}, done + {uid};
    }
    assert done == old_.Keys - new_.Keys;
  }

  lemma UpdatesExist(old_: Snapshot, new_: Snapshot) returns (eps: seq<ServiceUpdateSingle>)
    requires Keyed(new_)
    ensures IsUpdates(old_, new_, eps)
  {
    eps := [];
    var rest, done: set<Uid> := old_.Keys * new_.Keys, {};
    while rest != {}
      invariant rest <= old_.Keys * new_.Keys && done <= old_.Keys * new_.Keys && rest !! done
      invariant OneEach(eps, done) && forall u :: u in eps ==> UpdateFor(old_, new_, u)
      invariant forall uid :: uid in old_ && uid in new_ && uid !in rest && uid !in done ==> Unchanged(old_, new_, uid)
      decreases rest
    {
      var uid :| uid in rest;
      var d, a := DiffExists(EpMap(old_[uid].endpoints), EpMap(new_[uid].endpoints));
      if d == [] && a == [] {
        assert Unchanged(old_, new_, uid);
      } else {
        var u := ServiceUpdateSingle(new_[uid].service, a, d);
        AppendUpdate(eps, done, u);
        eps, done := eps + [u], done + {uid};
      }
      rest := rest - {uid};
    }
  }

  lemma AnnouncementExists(old_: Snapshot, new_: Snapshot) returns (batches: seq<ServiceUpdate>)
    requires Keyed(old_) && Keyed(new_)
    ensures Announced(old_, new_, batches)
  {
    var adds := AdditionsExist(old_, new_);
    var dels := DeletionsExist(old_, new_);
    var eps := UpdatesExist(old_, new_);
    batches := Batches(adds, dels, eps);
  }

  /** Each snapshot could follow the one before it. */
  ghost predicate SteadySnapshots(host: string, snaps: seq<Snapshot>) {
    forall i :: 0 <= i < |snaps| ==> Keyed(snaps[i]) && Grounded(snaps[i]) && Steady(host, Before(snaps, i), snaps[i])
  }

  lemma PollExists(host: string, snaps: seq<Snapshot>, n: nat) returns (batches: seq<ServiceUpdate>)
    requires SteadySnapshots(host, snaps) && n < |snaps|
    ensures PollAt(host, snaps, n, batches)
  {
    assert Keyed(Before(snaps, n));
    batches := AnnouncementExists(Before(snaps, n), snaps[n]);
  }

  /** The batches sent so far. */
  ghost predicate RunSoFar(host: string, snaps: seq<Snapshot>, sent: seq<seq<ServiceUpdate>>) {
    |sent| <= |snaps| && forall i :: 0 <= i < |sent| ==> PollAt(host, snaps, i, sent[i])
  }

  ghost predicate PollAt(host: string, snaps: seq<Snapshot>, i: int, batches: seq<ServiceUpdate>) {
    0 <= i < |snaps| && IsPoll(host, Before(snaps, i), snaps[i], batches)
  }

  lemma RunGrows(host: string, snaps: seq<Snapshot>, sent: seq<seq<ServiceUpdate>>, batches: seq<ServiceUpdate>)
    requires RunSoFar(host, snaps, sent) && |sent| < |snaps|
    requires PollAt(host, snaps, |sent|, batches)
    ensures RunSoFar(host, snaps, sent + [batches])
  {
  }

  /** Every sequence of steady snapshots has a run. */
  lemma RunsExist(host: string, snaps: seq<Snapshot>) returns (sent: seq<seq<ServiceUpdate>>)
    requires SteadySnapshots(host, snaps)
    ensures IsRun(host, snaps, sent)
  {
    sent := [];
    while |sent| < |snaps|
      invariant RunSoFar(host, snaps, sent)
    {
      var batches := PollExists(host, snaps, |sent|);
      RunGrows(host, snaps, sent, batches);
      sent := sent + [batches];
    }
    SoFarIsRun(host, snaps, sent);
  }

  lemma SoFarIsRun(host: string, snaps: seq<Snapshot>, sent: seq<seq<ServiceUpdate>>)
    requires RunSoFar(host, snaps, sent) && |sent| == |snaps|
    ensures IsRun(host, snaps, sent)
  {
    forall i | 0 <= i < |snaps| ensures IsPoll(host, Before(snaps, i), snaps[i], sent[i]) {
      assert PollAt(host, snaps, i, sent[i]);
    }
  }
}
