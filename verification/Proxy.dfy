/** The kernel's table of virtual servers and their destinations (pkg/kubeproxy/route/ipvs.go). */
module Ipvs {
  import opened ProxyTypes
  import opened Strings

  datatype Transport = TcpTransport | UdpTransport

  datatype Server = Server(ip: string, port: int, transport: Transport)

  datatype Route = Route(server: Server, ip: string, port: int)

  datatype Table = Table(servers: set<Server>, routes: set<Route>)

  /** protocol2Unix: anything but UDP is TCP. */
  function Transported(protocol: Protocol): Transport {
    if protocol.Udp? then UdpTransport else TcpTransport
  }

  /** Go's conversion of an int32 to uint16. */
  function U16(x: int): int {
    x % 65536
  }

  predicate IsOctet(s: string) {
    && 1 <= |s| <= 3
    && (forall i :: 0 <= i < |s| ==> '0' <= s[i] <= '9')
    && (|s| > 1 ==> s[0] != '0')
    && (|s| == 3 ==> s[0] == '1' || (s[0] == '2' && (s[1] < '5' || (s[1] == '5' && s[2] <= '5'))))
  }

  predicate Octets(s: string, n: nat) {
    if n == 0 then IsOctet(s)
    else
      var dot := IndexOf(s, '.');
      dot < |s| && IsOctet(s[..dot]) && Octets(s[dot + 1..], n - 1)
  }

  /** The IPv4 addresses net.ParseIP accepts. */
  predicate IsAddress(s: string) {
    Octets(s, 3)
  }

  function AddServer(t: Table, s: Server): Table {
    if IsAddress(s.ip) then t.(servers := t.servers + {s}) else t
  }

  predicate CanAddServer(t: Table, s: Server) {
    IsAddress(s.ip) && s !in t.servers
  }

  /** Deleting a server drops its destinations. */
  function Drop(t: Table, s: Server): Table {
    if IsAddress(s.ip) && s in t.servers then Table(t.servers - {s}, set x | x in t.routes && x.server != s) else t
  }

  predicate Addressable(t: Table, x: Route) {
    IsAddress(x.server.ip) && IsAddress(x.ip) && x.server in t.servers
  }

  function AddRoutes(t: Table, xs: set<Route>): Table {
    t.(routes := t.routes + set x | x in xs && Addressable(t, x))
  }

  function DeleteRoutes(t: Table, xs: set<Route>): Table {
    t.(routes := t.routes - set x | x in xs && Addressable(t, x))
  }

  class Kernel {
    var table: Table

    constructor ()
      ensures table == Table({}, {})
    {
      table := Table({}, {});
    }

    method AddVirtual(vip: string, port: int, protocol: Protocol) returns (ok: bool)
      modifies this
      ensures var s := Server(vip, port, Transported(protocol));
              ok == CanAddServer(old(table), s) && table == AddServer(old(table), s)
    {
      var s := Server(vip, port, Transported(protocol));
      ok := IsAddress(vip) && s !in table.servers;
      if ok {
        table := table.(servers := table.servers + {s});
      } else {
        assert s in table.servers ==> table.servers + {s} == table.servers;
      }
    }

    method AddRoute(vip: string, vport: int, rip: string, rport: int, protocol: Protocol) returns (ok: bool)
      modifies this
      ensures var x := Route(Server(vip, vport, Transported(protocol)), rip, rport);
              && ok == (Addressable(old(table), x) && x !in old(table).routes)
              && table == AddRoutes(old(table), {x})
    {
      var x := Route(Server(vip, vport, Transported(protocol)), rip, rport);
      ok := IsAddress(vip) && IsAddress(rip) && x.server in table.servers && x !in table.routes;
      ghost var more := set y | y in {x} && Addressable(table, y);
      assert more == if Addressable(table, x) then {x} else {};
      if ok {
        table := table.(routes := table.routes + {x});
      } else {
        assert table.routes + more == table.routes;
      }
    }

    method DeleteVirtual(vip: string, port: int, protocol: Protocol) returns (ok: bool)
      modifies this
      ensures var s := Server(vip, port, Transported(protocol));
              ok == (IsAddress(vip) && s in old(table).servers) && table == Drop(old(table), s)
    {
      var s := Server(vip, port, Transported(protocol));
      ok := IsAddress(vip) && s in table.servers;
      if ok {
        table := Table(table.servers - {s}, set x | x in table.routes && x.server != s);
      }
    }

    method DeleteRoute(vip: string, vport: int, rip: string, rport: int, protocol: Protocol) returns (ok: bool)
      modifies this
      ensures var x := Route(Server(vip, vport, Transported(protocol)), rip, rport);
              && ok == (Addressable(old(table), x) && x in old(table).routes)
              && table == DeleteRoutes(old(table), {x})
    {
      var x := Route(Server(vip, vport, Transported(protocol)), rip, rport);
      ok := IsAddress(vip) && IsAddress(rip) && x.server in table.servers && x in table.routes;
      ghost var less := set y | y in {x} && Addressable(table, y);
      assert less == if Addressable(table, x) then {x} else {};
      if ok {
        table := table.(routes := table.routes - {x});
      } else {
        assert table.routes - less == table.routes;
      }
    }
  }
}

/** Applying service updates to the kernel's table (pkg/kubeproxy/proxy.go). */
module Proxy {
  import opened ProxyTypes
  import opened Ipvs

  /** The reverse maps from target ports to service and node ports, with the addresses they belong to. */
  datatype Reverse = Reverse(vip: string, host: string, svcPorts: map<int, int>, nodePorts: map<int, int>)

  function VipServer(svc: Service, p: ServicePort): Server {
    Server(svc.clusterIP, U16(p.port), Transported(p.protocol))
  }

  function NodeServer(host: string, p: ServicePort): Server {
    Server(host, U16(p.nodePort), Transported(p.protocol))
  }

  /** The routes one endpoint port asks for. */
  function RoutesAt(r: Reverse, ip: string, e: EndpointPort): set<Route> {
    (if e.port in r.svcPorts
     then {Route(Server(r.vip, U16(r.svcPorts[e.port]), Transported(e.protocol)), ip, U16(e.port))} else {}) +
    (if e.port in r.nodePorts
     then {Route(Server(r.host, U16(r.nodePorts[e.port]), Transported(e.protocol)), ip, U16(e.port))} else {})
  }

  function RoutesOfPorts(r: Reverse, ip: string, ports: seq<EndpointPort>): set<Route> {
    set e, x | e in ports && x in RoutesAt(r, ip, e) :: x
  }

  function Requested(r: Reverse, eps: seq<Endpoint>): set<Route> {
    set ep, x | ep in eps && x in RoutesOfPorts(r, ep.ip, ep.ports) :: x
  }

  datatype Reserved = Reserved(table: Table, svcPorts: map<int, int>, nodePorts: map<int, int>)

  /** The first loop of HandleServiceAdditions: a port whose server cannot be added gets no reverse entry. */
  function Reserve(host: string, t: Table, svc: Service, n: nat): Reserved
    requires n <= |svc.ports|
  {
    if n == 0 then Reserved(t, map[], map[])
    else
      var r := Reserve(host, t, svc, n - 1);
      var p := svc.ports[n - 1];
      if !CanAddServer(r.table, VipServer(svc, p)) then r
      else
        var t1 := AddServer(r.table, VipServer(svc, p));
        if !svc.isNodePort then Reserved(t1, r.svcPorts[p.targetPort := p.port], r.nodePorts)
        else if !CanAddServer(t1, NodeServer(host, p)) then r.(table := t1)
        else Reserved(AddServer(t1, NodeServer(host, p)),
                      r.svcPorts[p.targetPort := p.port], r.nodePorts[p.targetPort := p.nodePort])
  }

  function AddOne(host: string, t: Table, u: ServiceUpdateSingle): Table {
    var r := Reserve(host, t, u.service, |u.service.ports|);
    AddRoutes(r.table, Requested(Reverse(u.service.clusterIP, host, r.svcPorts, r.nodePorts), u.endpointAdditions))
  }

  function Release(host: string, t: Table, svc: Service, n: nat): Table
    requires n <= |svc.ports|
  {
    if n == 0 then t
    else
      var p := svc.ports[n - 1];
      var t1 := Drop(Release(host, t, svc, n - 1), VipServer(svc, p));
      if svc.isNodePort then Drop(t1, NodeServer(host, p)) else t1
  }

  function DeleteOne(host: string, t: Table, u: ServiceUpdateSingle): Table {
    Release(host, t, u.service, |u.service.ports|)
  }

  /** The reverse maps as HandleServiceEndpointsUpdate fills them. */
  function ReverseOf(host: string, svc: Service, n: nat): Reverse
    requires n <= |svc.ports|
  {
    if n == 0 then Reverse(svc.clusterIP, host, map[], map[])
    else
      var r := ReverseOf(host, svc, n - 1);
      var p := svc.ports[n - 1];
      r.(svcPorts := r.svcPorts[p.targetPort := p.port],
         nodePorts := if svc.isNodePort then r.nodePorts[p.targetPort := p.nodePort] else r.nodePorts)
  }

  function UpdateOne(host: string, t: Table, u: ServiceUpdateSingle): Table {
    var r := ReverseOf(host, u.service, |u.service.ports|);
    AddRoutes(DeleteRoutes(t, Requested(r, u.endpointDeletions)), Requested(r, u.endpointAdditions))
  }

  function HandleOne(host: string, t: Table, u: ServiceUpdateSingle, op: ServiceOperation): Table {
    match op
    case ServiceAdd => AddOne(host, t, u)
    case ServiceDelete => DeleteOne(host, t, u)
    case ServiceEndpointsUpdate => UpdateOne(host, t, u)
  }

  function HandleAll(host: string, t: Table, updates: seq<ServiceUpdateSingle>, op: ServiceOperation): Table
    decreases |updates|
  {
    if updates == [] then t else HandleAll(host, HandleOne(host, t, updates[0], op), updates[1..], op)
  }

  function Consume(host: string, t: Table, batches: seq<ServiceUpdate>): Table
    decreases |batches|
  {
    if batches == [] then t else Consume(host, HandleAll(host, t, batches[0].updates, batches[0].op), batches[1..])
  }

  lemma RoutesOfPortsStep(r: Reverse, ip: string, ports: seq<EndpointPort>, j: nat)
    requires j < |ports|
    ensures RoutesOfPorts(r, ip, ports[..j + 1]) == RoutesOfPorts(r, ip, ports[..j]) + RoutesAt(r, ip, ports[j])
  {
    assert ports[..j + 1] == ports[..j] + [ports[j]];
  }

  lemma RequestedStep(r: Reverse, eps: seq<Endpoint>, j: nat)
    requires j < |eps|
    ensures Requested(r, eps[..j + 1]) == Requested(r, eps[..j]) + RoutesOfPorts(r, eps[j].ip, eps[j].ports)
  {
    assert eps[..j + 1] == eps[..j] + [eps[j]];
  }

  lemma AddRoutesTwice(t: Table, a: set<Route>, b: set<Route>)
    ensures AddRoutes(AddRoutes(t, a), b) == AddRoutes(t, a + b)
  {
    assert AddRoutes(AddRoutes(t, a), b).routes == AddRoutes(t, a + b).routes;
  }

  lemma DeleteRoutesTwice(t: Table, a: set<Route>, b: set<Route>)
    ensures DeleteRoutes(DeleteRoutes(t, a), b) == DeleteRoutes(t, a + b)
  {
    assert DeleteRoutes(DeleteRoutes(t, a), b).routes == DeleteRoutes(t, a + b).routes;
  }

  lemma NoRoutes(t: Table)
    ensures AddRoutes(t, {}) == t && DeleteRoutes(t, {}) == t
  {
    assert (set x: Route | x in {} && Addressable(t, x)) == {};
  }

  lemma {:induction false} HandleMore(host: string, t: Table, updates: seq<ServiceUpdateSingle>, op: ServiceOperation, i: nat)
    requires i < |updates|
    ensures HandleAll(host, t, updates[..i + 1], op) == HandleOne(host, HandleAll(host, t, updates[..i], op), updates[i], op)
    decreases |updates|
  {
    if i == 0 {
      assert updates[..1] == [updates[0]] && updates[..1][1..] == [];
    } else {
      HandleMore(host, HandleOne(host, t, updates[0], op), updates[1..], op, i - 1);
      HandlePrefix(host, t, updates, op, i + 1);
      HandlePrefix(host, t, updates, op, i);
    }
  }

  lemma HandlePrefix(host: string, t: Table, updates: seq<ServiceUpdateSingle>, op: ServiceOperation, n: nat)
    requires 0 < n <= |updates|
    ensures HandleAll(host, t, updates[..n], op) == HandleAll(host, HandleOne(host, t, updates[0], op), updates[1..][..n - 1], op)
  {
    assert updates[..n][1..] == updates[1..][..n - 1];
  }

  class Proxy {
    const ipvs: Kernel
    const hostIP: string

    constructor (kernel: Kernel, host: string)
      ensures ipvs == kernel && hostIP == host
    {
      ipvs, hostIP := kernel, host;
    }

    /** The loop over endpoint additions that both handlers run. */
    method AddEndpointRoutes(r: Reverse, eps: seq<Endpoint>)
      modifies ipvs
      ensures ipvs.table == AddRoutes(old(ipvs.table), Requested(r, eps))
    {
      ghost var t := ipvs.table;
      NoRoutes(t);
      for i := 0 to |eps|
        invariant ipvs.table == AddRoutes(t, Requested(r, eps[..i]))
      {
        AddPortRoutes(r, eps[i].ip, eps[i].ports);
        RequestedStep(r, eps, i);
        AddRoutesTwice(t, Requested(r, eps[..i]), RoutesOfPorts(r, eps[i].ip, eps[i].ports));
      }
      assert eps[..|eps|] == eps;
    }

    method AddPortRoutes(r: Reverse, ip: string, ports: seq<EndpointPort>)
      modifies ipvs
      ensures ipvs.table == AddRoutes(old(ipvs.table), RoutesOfPorts(r, ip, ports))
    {
      ghost var t := ipvs.table;
      NoRoutes(t);
      for j := 0 to |ports|
        invariant ipvs.table == AddRoutes(t, RoutesOfPorts(r, ip, ports[..j]))
      {
        AddPortRoute(r, ip, ports[j]);
        RoutesOfPortsStep(r, ip, ports, j);
        AddRoutesTwice(t, RoutesOfPorts(r, ip, ports[..j]), RoutesAt(r, ip, ports[j]));
      }
      assert ports[..|ports|] == ports;
    }

    method AddPortRoute(r: Reverse, ip: string, e: EndpointPort)
      modifies ipvs
      ensures ipvs.table == AddRoutes(old(ipvs.table), RoutesAt(r, ip, e))
    {
      ghost var t := ipvs.table;
      NoRoutes(t);
      ghost var done: set<Route> := {};
      if e.port in r.svcPorts {
        var _ := ipvs.AddRoute(r.vip, U16(r.svcPorts[e.port]), ip, U16(e.port), e.protocol);
        done := {Route(Server(r.vip, U16(r.svcPorts[e.port]), Transported(e.protocol)), ip, U16(e.port))};
      }
      if e.port in r.nodePorts {
        var _ := ipvs.AddRoute(r.host, U16(r.nodePorts[e.port]), ip, U16(e.port), e.protocol);
        AddRoutesTwice(t, done, {Route(Server(r.host, U16(r.nodePorts[e.port]), Transported(e.protocol)), ip, U16(e.port))});
      } else {
        assert RoutesAt(r, ip, e) == done;
      }
    }

    /** The loop over endpoint deletions. */
    method DeleteEndpointRoutes(r: Reverse, eps: seq<Endpoint>)
      modifies ipvs
      ensures ipvs.table == DeleteRoutes(old(ipvs.table), Requested(r, eps))
    {
      ghost var t := ipvs.table;
      NoRoutes(t);
      for i := 0 to |eps|
        invariant ipvs.table == DeleteRoutes(t, Requested(r, eps[..i]))
      {
        DeletePortRoutes(r, eps[i].ip, eps[i].ports);
        RequestedStep(r, eps, i);
        DeleteRoutesTwice(t, Requested(r, eps[..i]), RoutesOfPorts(r, eps[i].ip, eps[i].ports));
      }
      assert eps[..|eps|] == eps;
    }

    method DeletePortRoutes(r: Reverse, ip: string, ports: seq<EndpointPort>)
      modifies ipvs
      ensures ipvs.table == DeleteRoutes(old(ipvs.table), RoutesOfPorts(r, ip, ports))
    {
      ghost var t := ipvs.table;
      NoRoutes(t);
      for j := 0 to |ports|
        invariant ipvs.table == DeleteRoutes(t, RoutesOfPorts(r, ip, ports[..j]))
      {
        DeletePortRoute(r, ip, ports[j]);
        RoutesOfPortsStep(r, ip, ports, j);
        DeleteRoutesTwice(t, RoutesOfPorts(r, ip, ports[..j]), RoutesAt(r, ip, ports[j]));
      }
      assert ports[..|ports|] == ports;
    }

    method DeletePortRoute(r: Reverse, ip: string, e: EndpointPort)
      modifies ipvs
      ensures ipvs.table == DeleteRoutes(old(ipvs.table), RoutesAt(r, ip, e))
    {
      ghost var t := ipvs.table;
      NoRoutes(t);
      ghost var done: set<Route> := {};
      if e.port in r.svcPorts {
        var _ := ipvs.DeleteRoute(r.vip, U16(r.svcPorts[e.port]), ip, U16(e.port), e.protocol);
        done := {Route(Server(r.vip, U16(r.svcPorts[e.port]), Transported(e.protocol)), ip, U16(e.port))};
      }
      if e.port in r.nodePorts {
        var _ := ipvs.DeleteRoute(r.host, U16(r.nodePorts[e.port]), ip, U16(e.port), e.protocol);
        DeleteRoutesTwice(t, done, {Route(Server(r.host, U16(r.nodePorts[e.port]), Transported(e.protocol)), ip, U16(e.port))});
      } else {
        assert RoutesAt(r, ip, e) == done;
      }
    }

    /** The loop that reserves one virtual server per service port, and one per node port. */
    method ReservePorts(svc: Service) returns (svcPorts: map<int, int>, nodePorts: map<int, int>)
      modifies ipvs
      ensures Reserved(ipvs.table, svcPorts, nodePorts) == Reserve(hostIP, old(ipvs.table), svc, |svc.ports|)
    {
      svcPorts, nodePorts := map[], map[];
      ghost var t := ipvs.table;
      for i := 0 to |svc.ports|
        invariant Reserved(ipvs.table, svcPorts, nodePorts) == Reserve(hostIP, t, svc, i)
      {
        var p := svc.ports[i];
        var ok := ipvs.AddVirtual(svc.clusterIP, U16(p.port), p.protocol);
        if !ok {
          assert ipvs.table.servers == Reserve(hostIP, t, svc, i).table.servers;
          continue;
        }
        if svc.isNodePort {
          ok := ipvs.AddVirtual(hostIP, U16(p.nodePort), p.protocol);
          if !ok {
            ghost var t1 := AddServer(Reserve(hostIP, t, svc, i).table, VipServer(svc, p));
            assert ipvs.table.servers == t1.servers;
            continue;
          }
          nodePorts := nodePorts[p.targetPort := p.nodePort];
        }
        svcPorts := svcPorts[p.targetPort := p.port];
      }
    }

    method HandleServiceAdditions(updates: seq<ServiceUpdateSingle>)
      modifies ipvs
      ensures ipvs.table == HandleAll(hostIP, old(ipvs.table), updates, ServiceAdd)
    {
      ghost var t := ipvs.table;
      for i := 0 to |updates|
        invariant ipvs.table == HandleAll(hostIP, t, updates[..i], ServiceAdd)
      {
        HandleMore(hostIP, t, updates, ServiceAdd, i);
        var svc := updates[i].service;
        var svcPorts, nodePorts := ReservePorts(svc);
        AddEndpointRoutes(Reverse(svc.clusterIP, hostIP, svcPorts, nodePorts), updates[i].endpointAdditions);
      }
      assert updates[..|updates|] == updates;
    }

    /** The loop that deletes the servers of one service. */
    method DeleteServers(svc: Service)
      modifies ipvs
      ensures ipvs.table == Release(hostIP, old(ipvs.table), svc, |svc.ports|)
    {
      ghost var t := ipvs.table;
      for k := 0 to |svc.ports|
        invariant ipvs.table == Release(hostIP, t, svc, k)
      {
        var _ := ipvs.DeleteVirtual(svc.clusterIP, U16(svc.ports[k].port), svc.ports[k].protocol);
        if svc.isNodePort {
          var _ := ipvs.DeleteVirtual(hostIP, U16(svc.ports[k].nodePort), svc.ports[k].protocol);
        }
      }
    }

    method HandleServiceDeletions(updates: seq<ServiceUpdateSingle>)
      modifies ipvs
      ensures ipvs.table == HandleAll(hostIP, old(ipvs.table), updates, ServiceDelete)
    {
      ghost var t := ipvs.table;
      for i := 0 to |updates|
        invariant ipvs.table == HandleAll(hostIP, t, updates[..i], ServiceDelete)
      {
        HandleMore(hostIP, t, updates, ServiceDelete, i);
        DeleteServers(updates[i].service);
      }
      assert updates[..|updates|] == updates;
    }

    /** The loop that fills the reverse maps of a known service. */
    method ReverseMaps(svc: Service) returns (r: Reverse)
      ensures r == ReverseOf(hostIP, svc, |svc.ports|)
    {
      r := Reverse(svc.clusterIP, hostIP, map[], map[]);
      for k := 0 to |svc.ports|
        invariant r == ReverseOf(hostIP, svc, k)
      {
        r := r.(svcPorts := r.svcPorts[svc.ports[k].targetPort := svc.ports[k].port]);
        if svc.isNodePort {
          r := r.(nodePorts := r.nodePorts[svc.ports[k].targetPort := svc.ports[k].nodePort]);
        }
      }
    }

    method HandleServiceEndpointsUpdate(updates: seq<ServiceUpdateSingle>)
      modifies ipvs
      ensures ipvs.table == HandleAll(hostIP, old(ipvs.table), updates, ServiceEndpointsUpdate)
    {
      ghost var t := ipvs.table;
      for i := 0 to |updates|
        invariant ipvs.table == HandleAll(hostIP, t, updates[..i], ServiceEndpointsUpdate)
      {
        HandleMore(hostIP, t, updates, ServiceEndpointsUpdate, i);
        var svc := updates[i].service;
        var r := ReverseMaps(svc);
        DeleteEndpointRoutes(r, updates[i].endpointDeletions);
        AddEndpointRoutes(r, updates[i].endpointAdditions);
      }
      assert updates[..|updates|] == updates;
    }

    /** The proxy's loop over everything received on the update channel. */
    method SyncLoop(batches: seq<ServiceUpdate>)
      modifies ipvs
      ensures ipvs.table == Consume(hostIP, old(ipvs.table), batches)
    {
      var rest := batches;
      ghost var t := ipvs.table;
      while rest != []
        invariant Consume(hostIP, ipvs.table, rest) == Consume(hostIP, t, batches)
        decreases |rest|
      {
        var update := rest[0];
        rest := rest[1..];
        match update.op {
          case ServiceAdd => HandleServiceAdditions(update.updates);
          case ServiceDelete => HandleServiceDeletions(update.updates);
          case ServiceEndpointsUpdate => HandleServiceEndpointsUpdate(update.updates);
        }
      }
    }
  }
}
