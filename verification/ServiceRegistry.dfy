/** The API server's service handlers as steps of one registry (pkg/kubeapiserver/app/routine.go). */
module ServiceRegistry {
  import opened Wrappers
  import opened BitmapAllocator
  import Decimal

  type Uid = string

  datatype ServicePort = ServicePort(protocol: string, port: int, targetPort: int, nodePort: int)

  datatype Service = Service(
    kind: string, namespace: string, name: string, uid: Uid, ty: string, clusterIP: string, ports: seq<ServicePort>)

  datatype Key = Key(namespace: string, name: string)

  const PORT_MIN := 1
  const PORT_MAX := 65535
  const NODE_PORT_MIN := 30000
  const NODE_PORT_MAX := 32767
  const CLUSTER_IP := "ClusterIP"
  const NODE_PORT := "NodePort"

  /** What the store holds: UIDs by namespace and name, services by UID, and the bitmap of taken addresses. */
  datatype Registry = Registry(names: map<Key, Uid>, services: map<Uid, Service>, bitmap: Option<seq<bv8>>)

  /** How the store behaves during one request: which reads succeed, and how many writes do before one fails. */
  datatype Io = Io(nameRead: bool, listRead: bool, bitmapRead: bool, writes: nat)

  predicate AllReads(io: Io) {
    io.nameRead && io.listRead && io.bitmapRead
  }

  datatype Refusal =
    | NameRequired | InvalidKind | NamespaceRequired | NamespaceMismatch | AlreadyExists | NotFound
    | InvalidType | InvalidTargetPort(port: int) | InvalidPort(port: int) | InvalidNodePort(port: int)
    | ConflictingNodePorts(port: int) | NodePortTaken | NoAvailableIp | ReadFailed | WriteFailed | FreeFailed

  datatype Answer = Done(service: Service) | Refused(why: Refusal)

  // ---------------------------------------------------------------------------
  // checkTypeAndPorts
  // ---------------------------------------------------------------------------

  function NodePortsOf(ports: seq<ServicePort>): set<int> {
    set p | p in ports :: p.nodePort
  }

  /** What is wrong with one port, given the node ports before it. */
  function PortTrouble(ty: string, before: seq<ServicePort>, p: ServicePort): Option<Refusal> {
    if p.targetPort < PORT_MIN || p.targetPort > PORT_MAX then Some(InvalidTargetPort(p.targetPort))
    else if p.port < PORT_MIN || p.port > PORT_MAX then Some(InvalidPort(p.port))
    else if ty != NODE_PORT then None
    else if p.nodePort < NODE_PORT_MIN || p.nodePort > NODE_PORT_MAX then Some(InvalidNodePort(p.nodePort))
    else if p.nodePort in NodePortsOf(before) then Some(ConflictingNodePorts(p.nodePort))
    else None
  }

  /** The first trouble among the first n ports. */
  function PortsTrouble(ty: string, ports: seq<ServicePort>, n: nat): Option<Refusal>
    requires n <= |ports|
  {
    if n == 0 then None
    else
      var t := PortsTrouble(ty, ports, n - 1);
      if t.Some? then t else PortTrouble(ty, ports[..n - 1], ports[n - 1])
  }

  predicate SharesNodePort(a: Service, b: Service) {
    a.ty == NODE_PORT && b.ty == NODE_PORT && exists p :: p in b.ports && p.nodePort in NodePortsOf(a.ports)
  }

  predicate AnyShares(svc: Service, services: map<Uid, Service>) {
    exists uid :: uid in services && SharesNodePort(svc, services[uid])
  }

  function WithProtocol(p: ServicePort): ServicePort {
    if p.protocol == "" then p.(protocol := "tcp") else p
  }

  function DefaultPorts(ports: seq<ServicePort>): (r: seq<ServicePort>)
    ensures |r| == |ports| && forall i :: 0 <= i < |r| ==> r[i] == WithProtocol(ports[i])
  {
    seq(|ports|, i requires 0 <= i < |ports| => WithProtocol(ports[i]))
  }

  function WithDefaults(svc: Service): Service {
    svc.(ty := if svc.ty == "" then CLUSTER_IP else svc.ty, ports := DefaultPorts(svc.ports))
  }

  lemma DefaultsKeepPorts(svc: Service)
    ensures NodePortsOf(WithDefaults(svc).ports) == NodePortsOf(svc.ports)
  {
    var a, b := svc.ports, WithDefaults(svc).ports;
    forall n ensures n in NodePortsOf(a) <==> n in NodePortsOf(b) {
      if n in NodePortsOf(a) {
        var i :| 0 <= i < |a| && a[i].nodePort == n;
        assert b[i].nodePort == n;
      }
      if n in NodePortsOf(b) {
        var i :| 0 <= i < |b| && b[i].nodePort == n;
        assert a[i].nodePort == n;
      }
    }
  }

  /** Accepts exactly the services with valid type and ports whose node ports nobody else has. */
  function Check(svc: Service, services: map<Uid, Service>, listRead: bool): Answer {
    var checked := WithDefaults(svc);
    if checked.ty != CLUSTER_IP && checked.ty != NODE_PORT then Refused(InvalidType)
    else
      var t := PortsTrouble(checked.ty, svc.ports, |svc.ports|);
      if t.Some? then Refused(t.value)
      else if checked.ty != NODE_PORT then Done(checked)
      else if !listRead then Refused(ReadFailed)
      else if AnyShares(checked, services) then Refused(NodePortTaken)
      else Done(checked)
  }

  predicate InRange(n: int, lo: int, hi: int) {
    lo <= n <= hi
  }

  predicate PortValid(ty: string, p: ServicePort) {
    && InRange(p.targetPort, PORT_MIN, PORT_MAX) && InRange(p.port, PORT_MIN, PORT_MAX)
    && (ty == NODE_PORT ==> InRange(p.nodePort, NODE_PORT_MIN, NODE_PORT_MAX))
  }

  predicate NodePortsDistinct(ports: seq<ServicePort>) {
    forall i, j :: 0 <= i < j < |ports| ==> ports[i].nodePort != ports[j].nodePort
  }

  /** The first n ports are fine exactly when each is valid and, for a NodePort service, no node port repeats. */
  lemma {:induction false} PortsFineIff(ty: string, ports: seq<ServicePort>, n: nat)
    requires n <= |ports|
    ensures PortsTrouble(ty, ports, n).None? <==>
              && (forall i :: 0 <= i < n ==> PortValid(ty, ports[i]))
              && (ty == NODE_PORT ==> NodePortsDistinct(ports[..n]))
  {
    if n > 0 {
      PortsFineIff(ty, ports, n - 1);
      var before := ports[..n - 1];
      assert ports[..n] == before + [ports[n - 1]];
      DistinctAppend(before, ports[n - 1]);
    }
  }

  lemma DistinctAppend(before: seq<ServicePort>, p: ServicePort)
    ensures NodePortsDistinct(before + [p]) <==> NodePortsDistinct(before) && p.nodePort !in NodePortsOf(before)
  {
    var all := before + [p];
    if p.nodePort in NodePortsOf(before) {
      var i :| 0 <= i < |before| && before[i].nodePort == p.nodePort;
      assert all[i].nodePort == all[|before|].nodePort;
    }
    if NodePortsDistinct(all) {
      forall i, j | 0 <= i < j < |before| ensures before[i].nodePort != before[j].nodePort {
        assert all[i] == before[i] && all[j] == before[j];
      }
    }
  }

  /** A service is accepted exactly when its type and ports are valid and its node ports are nobody else's nor repeated. */
  lemma CheckAcceptsIff(svc: Service, services: map<Uid, Service>)
    ensures var ty := if svc.ty == "" then CLUSTER_IP else svc.ty;
            Check(svc, services, true).Done? <==>
              && (ty == CLUSTER_IP || ty == NODE_PORT)
              && (forall p :: p in svc.ports ==> PortValid(ty, p))
              && (ty == NODE_PORT ==> NodePortsDistinct(svc.ports) && !AnyShares(WithDefaults(svc), services))
    ensures Check(svc, services, true).Done? ==>
              var r := Check(svc, services, true).service;
              && r == svc.(ty := r.ty, ports := r.ports) && r.ty in {CLUSTER_IP, NODE_PORT}
              && |r.ports| == |svc.ports|
              && forall i :: 0 <= i < |r.ports| ==>
                   r.ports[i] == svc.ports[i].(protocol := r.ports[i].protocol) && r.ports[i].protocol != ""
  {
    var ty := if svc.ty == "" then CLUSTER_IP else svc.ty;
    PortsFineIff(ty, svc.ports, |svc.ports|);
    assert svc.ports[..|svc.ports|] == svc.ports;
    assert (forall p :: p in svc.ports ==> PortValid(ty, p)) <==> forall i :: 0 <= i < |svc.ports| ==> PortValid(ty, svc.ports[i]);
  }

  lemma {:induction false} TroubleStays(ty: string, ports: seq<ServicePort>, n: nat)
    requires n <= |ports| && PortsTrouble(ty, ports, n).Some?
    ensures PortsTrouble(ty, ports, |ports|) == PortsTrouble(ty, ports, n)
    decreases |ports| - n
  {
    if n < |ports| { TroubleStays(ty, ports, n + 1); }
  }

  method CheckTypeAndPorts(service: Service, services: map<Uid, Service>, listRead: bool) returns (answer: Answer)
    ensures answer == Check(service, services, listRead)
  {
    var ty := if service.ty == "" then CLUSTER_IP else service.ty;
    if ty != CLUSTER_IP && ty != NODE_PORT {
      return Refused(InvalidType);
    }
    var trouble, ports, nodePorts := CheckPorts(ty, service.ports);
    if trouble.Some? {
      return Refused(trouble.value);
    }
    var checked := service.(ty := ty, ports := ports);
    assert checked == WithDefaults(service);
    if ty == NODE_PORT {
      if !listRead {
        return Refused(ReadFailed);
      }
      DefaultsKeepPorts(service);
      var taken := FindConflict(checked, nodePorts, services);
      if taken {
        return Refused(NodePortTaken);
      }
    }
    return Done(checked);
  }

  /** The loop over the new service's own ports. */
  method CheckPorts(ty: string, given: seq<ServicePort>) returns (trouble: Option<Refusal>, ports: seq<ServicePort>, nodePorts: set<int>)
    ensures trouble == PortsTrouble(ty, given, |given|)
    ensures trouble.None? ==> ports == DefaultPorts(given)
    ensures trouble.None? && ty == NODE_PORT ==> nodePorts == NodePortsOf(given)
  {
    ports, nodePorts := [], {};
    for i := 0 to |given|
      invariant |ports| == i && PortsTrouble(ty, given, i) == None
      invariant forall k :: 0 <= k < i ==> ports[k] == WithProtocol(given[k])
      invariant ty == NODE_PORT ==> nodePorts == NodePortsOf(given[..i])
    {
      var port := given[i];
      ports := ports + [WithProtocol(port)];
      if PortTrouble(ty, given[..i], port).Some? { TroubleStays(ty, given, i + 1); }
      if port.targetPort < PORT_MIN || port.targetPort > PORT_MAX {
        return Some(InvalidTargetPort(port.targetPort)), ports, nodePorts;
      }
      if port.port < PORT_MIN || port.port > PORT_MAX {
        return Some(InvalidPort(port.port)), ports, nodePorts;
      }
      if ty == NODE_PORT {
        if port.nodePort < NODE_PORT_MIN || port.nodePort > NODE_PORT_MAX {
          return Some(InvalidNodePort(port.nodePort)), ports, nodePorts;
        }
        if port.nodePort in nodePorts {
          return Some(ConflictingNodePorts(port.nodePort)), ports, nodePorts;
        }
        nodePorts := nodePorts + {port.nodePort};
        NodePortsStep(given, i);
      }
    }
    assert given[..|given|] == given;
    trouble := None;
  }

  lemma NodePortsStep(ports: seq<ServicePort>, i: nat)
    requires i < |ports|
    ensures NodePortsOf(ports[..i + 1]) == NodePortsOf(ports[..i]) + {ports[i].nodePort}
  {
    assert ports[..i + 1] == ports[..i] + [ports[i]];
  }

  /** The loop over the stored services. */
  method FindConflict(svc: Service, nodePorts: set<int>, services: map<Uid, Service>) returns (taken: bool)
    requires svc.ty == NODE_PORT && nodePorts == NodePortsOf(svc.ports)
    ensures taken <==> AnyShares(svc, services)
  {
    var rest := services.Keys;
    while rest != {}
      invariant rest <= services.Keys
      invariant forall uid :: uid in services && uid !in rest ==> !SharesNodePort(svc, services[uid])
      decreases rest
    {
      var uid :| uid in rest;
      rest := rest - {uid};
      if services[uid].ty != NODE_PORT {
        continue;
      }
      var ports := services[uid].ports;
      for i := 0 to |ports|
        invariant forall k :: 0 <= k < i ==> ports[k].nodePort !in nodePorts
      {
        if ports[i].nodePort in nodePorts {
          assert SharesNodePort(svc, services[uid]);
          return true;
        }
      }
    }
    return false;
  }

  // ---------------------------------------------------------------------------
  // Adding a service
  // ---------------------------------------------------------------------------

  /** Everything that is checked before an address is taken. */
  function Admission(s: Registry, namespace: string, service: Service, io: Io): Answer {
    if service.name == "" then Refused(NameRequired)
    else if service.kind != "Service" then Refused(InvalidKind)
    else if namespace == "" then Refused(NamespaceRequired)
    else if service.namespace != namespace && !(service.namespace == "" && namespace == "default") then Refused(NamespaceMismatch)
    else if io.nameRead && Key(namespace, service.name) in s.names then Refused(AlreadyExists)
    else Check(service, s.services, io.listRead)
  }

  function NoBits(): (r: seq<bv8>)
    ensures |r| == IP_POOL_SIZE / 8 && Bits(r) == {}
  {
    seq(IP_POOL_SIZE / 8, _ => 0)
  }

  /** The bitmap cannot be read, so that a fresh one takes its place. */
  predicate Resets(s: Registry, io: Io) {
    !io.bitmapRead || s.bitmap.None?
  }

  function Address(k: nat): string {
    IP_PREFIX + Decimal.Render(k)
  }

  /** The registry after the first `writes` of the writes that store a service under address k. */
  function Stored(s: Registry, svc: Service, k: nat, after: seq<bv8>, writes: nat): Registry {
    var full := svc.(clusterIP := Address(k));
    var s1 := if writes >= 1 then s.(bitmap := Some(after)) else s;
    var s2 := if writes >= 2 then s1.(services := s1.services[svc.uid := full]) else s1;
    if writes >= 3 then s2.(names := s2.names[Key(svc.namespace, svc.name) := svc.uid]) else s2
  }

  /** One request to add a service, with whatever the store lets through. */
  ghost predicate AddStep(s: Registry, namespace: string, service: Service, uid: Uid, io: Io, s': Registry, answer: Answer) {
    var admitted := Admission(s, namespace, service, io);
    if admitted.Refused? then s' == s && answer == admitted
    else
      var svc := admitted.service.(namespace := namespace, uid := uid);
      if !Resets(s, io) then AllocStep(s, svc, s.bitmap.value, io.writes, s', answer)
      else if io.writes == 0 then s' == s && answer == Refused(WriteFailed)
      else AllocStep(s.(bitmap := Some(NoBits())), svc, NoBits(), io.writes - 1, s', answer)
  }

  ghost predicate AllocStep(s: Registry, svc: Service, bitmap: seq<bv8>, writes: nat, s': Registry, answer: Answer) {
    if |bitmap| != IP_POOL_SIZE / 8 || Full(bitmap) then s' == s && answer == Refused(NoAvailableIp)
    else exists k :: LeastFree(bitmap, k) && StoreStep(s, svc, k, bitmap, writes, s', answer)
  }

  predicate StoreStep(s: Registry, svc: Service, k: nat, bitmap: seq<bv8>, writes: nat, s': Registry, answer: Answer)
    requires k < 8 * |bitmap|
  {
    && s' == Stored(s, svc, k, WithBit(bitmap, k), writes)
    && answer == if writes >= 3 then Done(svc.(clusterIP := Address(k))) else Refused(WriteFailed)
  }

  class Server {
    var state: Registry

    constructor ()
      ensures state == Registry(map[], map[], None)
    {
      state := Registry(map[], map[], None);
    }

    method AddService(namespace: string, service: Service, uid: Uid, io: Io) returns (answer: Answer)
      modifies this
      ensures AddStep(old(state), namespace, service, uid, io, state, answer)
    {
      if service.name == "" {
        return Refused(NameRequired);
      }
      if service.kind != "Service" {
        return Refused(InvalidKind);
      }
      if namespace == "" {
        return Refused(NamespaceRequired);
      }
      if service.namespace != "" {
        if service.namespace != namespace {
          return Refused(NamespaceMismatch);
        }
      } else if namespace != "default" {
        return Refused(NamespaceMismatch);
      }
      if io.nameRead && Key(namespace, service.name) in state.names {
        return Refused(AlreadyExists);
      }
      var checked := CheckTypeAndPorts(service, state.services, io.listRead);
      if checked.Refused? {
        return checked;
      }
      answer := AllocateAndStore(checked.service, namespace, uid, io);
    }

    /** From the bitmap on: take an address, then write the bitmap, the service and its name. */
    method AllocateAndStore(checked: Service, namespace: string, uid: Uid, io: Io) returns (answer: Answer)
      modifies this
      ensures var s, svc := old(state), checked.(namespace := namespace, uid := uid);
              if !Resets(s, io) then AllocStep(s, svc, s.bitmap.value, io.writes, state, answer)
              else if io.writes == 0 then state == s && answer == Refused(WriteFailed)
              else AllocStep(s.(bitmap := Some(NoBits())), svc, NoBits(), io.writes - 1, state, answer)
    {
      var writes := io.writes;
      var stored := if Resets(state, io) then NoBits() else state.bitmap.value;
      if Resets(state, io) {
        if writes == 0 {
          return Refused(WriteFailed);
        }
        writes := writes - 1;
        state := state.(bitmap := Some(NoBits()));
      }
      var bitmap := new bv8[|stored|](i requires 0 <= i < |stored| => stored[i]);
      assert bitmap[..] == stored;
      var ip := AllocIP(bitmap);
      if ip.Err? {
        return Refused(NoAvailableIp);
      }
      ghost var k := SlotNamed(IP_PREFIX, ip).value;
      assert LeastFree(stored, k) && ip.value == Address(k);
      answer := Store(checked.(namespace := namespace, uid := uid), ip.value, bitmap[..], writes, k);
      assert StoreStep(if Resets(old(state), io) then old(state).(bitmap := Some(NoBits())) else old(state),
                       checked.(namespace := namespace, uid := uid), k, stored, writes, state, answer);
    }

    /** The three writes, each skipped once one fails. */
    method Store(svc: Service, ip: string, after: seq<bv8>, writes: nat, ghost k: nat) returns (answer: Answer)
      requires ip == Address(k)
      modifies this
      ensures state == Stored(old(state), svc, k, after, writes)
      ensures answer == if writes >= 3 then Done(svc.(clusterIP := ip)) else Refused(WriteFailed)
    {
      if writes < 1 {
        return Refused(WriteFailed);
      }
      state := state.(bitmap := Some(after));
      var service := svc.(clusterIP := ip);
      if writes < 2 {
        return Refused(WriteFailed);
      }
      state := state.(services := state.services[service.uid := service]);
      if writes < 3 {
        return Refused(WriteFailed);
      }
      state := state.(names := state.names[Key(service.namespace, service.name) := service.uid]);
      return Done(service);
    }

    method DeleteService(namespace: string, name: string, io: Io) returns (answer: Answer)
      modifies this
      ensures DeleteStep(old(state), namespace, name, io, state, answer)
    {
      if namespace == "" || name == "" {
        return Refused(NameRequired);
      }
      var key := Key(namespace, name);
      if !io.nameRead || key !in state.names {
        return Refused(NotFound);
      }
      var uid := state.names[key];
      if !io.listRead || uid !in state.services {
        return Refused(ReadFailed);
      }
      var service := state.services[uid];
      if !io.bitmapRead || state.bitmap.None? {
        return Refused(ReadFailed);
      }
      var stored := state.bitmap.value;
      var bitmap := new bv8[|stored|](i requires 0 <= i < |stored| => stored[i]);
      assert bitmap[..] == stored;
      var error := FreeIP(service.clusterIP, bitmap);
      if error.Some? {
        return Refused(FreeFailed);
      }
      if io.writes < 1 {
        return Refused(WriteFailed);
      }
      state := state.(bitmap := Some(bitmap[..]));
      if io.writes < 2 {
        return Refused(WriteFailed);
      }
      state := state.(names := state.names - {key});
      if io.writes < 3 {
        return Refused(WriteFailed);
      }
      state := state.(services := state.services - {uid});
      return Done(service);
    }
  }

  // ---------------------------------------------------------------------------
  // Deleting a service
  // ---------------------------------------------------------------------------

  /** The slot of an address, if it is one of the pool whose bit is set. */
  function FreeableSlot(bitmap: seq<bv8>, ip: string): Option<nat> {
    if |bitmap| != IP_POOL_SIZE / 8 then None
    else
      match Decimal.ScanAfter(IP_PREFIX, ip)
      case None => None
      case Some(n) => if 0 <= n < IP_POOL_SIZE && n in Bits(bitmap) then Some(n) else None
  }

  /** The registry after the first `writes` of the writes that delete a service: the address is freed first. */
  function Erased(s: Registry, key: Key, uid: Uid, after: seq<bv8>, writes: nat): Registry {
    var s1 := if writes >= 1 then s.(bitmap := Some(after)) else s;
    var s2 := if writes >= 2 then s1.(names := s1.names - {key}) else s1;
    if writes >= 3 then s2.(services := s2.services - {uid}) else s2
  }

  predicate DeleteStep(s: Registry, namespace: string, name: string, io: Io, s': Registry, answer: Answer) {
    var key := Key(namespace, name);
    if namespace == "" || name == "" then s' == s && answer == Refused(NameRequired)
    else if !io.nameRead || key !in s.names then s' == s && answer == Refused(NotFound)
    else if !io.listRead || s.names[key] !in s.services || !io.bitmapRead || s.bitmap.None? then s' == s && answer == Refused(ReadFailed)
    else
      var uid := s.names[key];
      var slot := FreeableSlot(s.bitmap.value, s.services[uid].clusterIP);
      if slot.None? then s' == s && answer == Refused(FreeFailed)
      else
        && s' == Erased(s, key, uid, WithoutBit(s.bitmap.value, slot.value), io.writes)
        && answer == if io.writes >= 3 then Done(s.services[uid]) else Refused(WriteFailed)
  }

  // ---------------------------------------------------------------------------
  // Invariants
  // ---------------------------------------------------------------------------

  /** The pool index of a stored service's address. */
  ghost predicate HasAddress(s: Registry, uid: Uid, k: nat) {
    uid in s.services && s.services[uid].clusterIP == Address(k)
  }

  function KeyOf(svc: Service): Key {
    Key(svc.namespace, svc.name)
  }

  /** Every service has an address of the pool whose bit is set, and no two have the same. */
  ghost predicate AddressesOwned(s: Registry) {
    && (s.bitmap.None? ==> s.services == map[])
    && (s.bitmap.Some? ==> |s.bitmap.value| == IP_POOL_SIZE / 8)
    && (forall uid :: uid in s.services ==> exists k :: HasAddress(s, uid, k) && k in Bits(s.bitmap.value))
    && (forall u, v :: u in s.services && v in s.services && u != v ==> s.services[u].clusterIP != s.services[v].clusterIP)
  }

  /** Every name leads to a stored service of that name. */
  predicate NamesLead(s: Registry) {
    && (forall uid :: uid in s.services ==> s.services[uid].uid == uid)
    && (forall key :: key in s.names ==> s.names[key] in s.services && KeyOf(s.services[s.names[key]]) == key)
  }

  predicate NodePortsExclusive(s: Registry) {
    forall u, v :: u in s.services && v in s.services && u != v ==> !SharesNodePort(s.services[u], s.services[v])
  }

  ghost predicate Safe(s: Registry) {
    AddressesOwned(s) && NamesLead(s) && NodePortsExclusive(s)
  }

  /** No bit is set for nothing, and every stored service can be found by its name. */
  ghost predicate Tight(s: Registry) {
    && (s.bitmap.Some? ==> forall k :: k in Bits(s.bitmap.value) ==> exists uid :: HasAddress(s, uid, k))
    && (forall uid :: uid in s.services ==> KeyOf(s.services[uid]) in s.names && s.names[KeyOf(s.services[uid])] == uid)
  }

  lemma AddressReads(k: nat)
    ensures Decimal.ScanAfter(IP_PREFIX, Address(k)) == Some(k)
  {
    Decimal.ScanReadsRender(IP_PREFIX, k);
  }

  lemma AddressInjective(j: nat, k: nat)
    requires Address(j) == Address(k)
    ensures j == k
  {
    AddressReads(j);
    AddressReads(k);
  }

  // ---------------------------------------------------------------------------
  // Adding keeps them
  // ---------------------------------------------------------------------------

  lemma SharingIsMutual(a: Service, b: Service)
    ensures SharesNodePort(a, b) ==> SharesNodePort(b, a)
  {
    if SharesNodePort(a, b) {
      var p :| p in b.ports && p.nodePort in NodePortsOf(a.ports);
      var q :| q in a.ports && q.nodePort == p.nodePort;
      assert q in a.ports && q.nodePort in NodePortsOf(b.ports);
    }
  }

  /** An admitted service shares no node port with a stored one. */
  lemma AdmittedIsApart(s: Registry, namespace: string, service: Service, io: Io)
    requires Admission(s, namespace, service, io).Done?
    ensures !AnyShares(Admission(s, namespace, service, io).service, s.services)
    ensures Admission(s, namespace, service, io).service.name == service.name
    ensures io.nameRead ==> Key(namespace, service.name) !in s.names
  {
  }

  lemma StoredIsSafe(s: Registry, svc: Service, k: nat, bitmap: seq<bv8>, writes: nat)
    requires Safe(s) && svc.uid !in s.services && !AnyShares(svc, s.services)
    requires s.bitmap == Some(bitmap) && |bitmap| == IP_POOL_SIZE / 8 && LeastFree(bitmap, k)
    ensures Safe(Stored(s, svc, k, WithBit(bitmap, k), writes))
  {
    StoredAddresses(s, svc, k, bitmap, writes);
    StoredAddressesApart(s, svc, k, bitmap, writes);
    StoredNames(s, svc, k, WithBit(bitmap, k), writes);
    StoredNodePorts(s, svc, k, WithBit(bitmap, k), writes);
  }

  lemma StoredNames(s: Registry, svc: Service, k: nat, after: seq<bv8>, writes: nat)
    requires NamesLead(s) && svc.uid !in s.services
    ensures NamesLead(Stored(s, svc, k, after, writes))
  {
  }

  lemma StoredAddresses(s: Registry, svc: Service, k: nat, bitmap: seq<bv8>, writes: nat)
    requires AddressesOwned(s) && svc.uid !in s.services
    requires s.bitmap == Some(bitmap) && |bitmap| == IP_POOL_SIZE / 8 && LeastFree(bitmap, k)
    ensures var s' := Stored(s, svc, k, WithBit(bitmap, k), writes);
            && s'.bitmap.Some? && |s'.bitmap.value| == IP_POOL_SIZE / 8
            && forall uid :: uid in s'.services ==> exists j :: HasAddress(s', uid, j) && j in Bits(s'.bitmap.value)
  {
    var s' := Stored(s, svc, k, WithBit(bitmap, k), writes);
    BitsWithBit(bitmap, k);
    forall uid | uid in s'.services ensures exists j :: HasAddress(s', uid, j) && j in Bits(s'.bitmap.value) {
      if uid == svc.uid {
        assert HasAddress(s', uid, k) && k in Bits(s'.bitmap.value);
      } else {
        var j :| HasAddress(s, uid, j) && j in Bits(bitmap);
        assert HasAddress(s', uid, j) && j in Bits(s'.bitmap.value);
      }
    }
  }

  lemma StoredAddressesApart(s: Registry, svc: Service, k: nat, bitmap: seq<bv8>, writes: nat)
    requires AddressesOwned(s) && svc.uid !in s.services
    requires s.bitmap == Some(bitmap) && LeastFree(bitmap, k)
    ensures var t := Stored(s, svc, k, WithBit(bitmap, k), writes).services;
            forall u, v :: u in t && v in t && u != v ==> t[u].clusterIP != t[v].clusterIP
  {
    forall uid | uid in s.services ensures s.services[uid].clusterIP != Address(k) {
      var j :| HasAddress(s, uid, j) && j in Bits(bitmap);
      if Address(j) == Address(k) { AddressInjective(j, k); }
    }
  }

  lemma StoredNodePorts(s: Registry, svc: Service, k: nat, after: seq<bv8>, writes: nat)
    requires NodePortsExclusive(s) && svc.uid !in s.services && !AnyShares(svc, s.services)
    ensures NodePortsExclusive(Stored(s, svc, k, after, writes))
  {
    var full := svc.(clusterIP := Address(k));
    forall uid | uid in s.services ensures !SharesNodePort(full, s.services[uid]) && !SharesNodePort(s.services[uid], full) {
      assert !SharesNodePort(svc, s.services[uid]);
      SharingIsMutual(s.services[uid], full);
    }
  }

  lemma StoredIsTight(s: Registry, svc: Service, k: nat, bitmap: seq<bv8>, writes: nat)
    requires Tight(s) && svc.uid !in s.services && KeyOf(svc) !in s.names && writes >= 3
    requires s.bitmap == Some(bitmap) && |bitmap| == IP_POOL_SIZE / 8 && LeastFree(bitmap, k)
    ensures Tight(Stored(s, svc, k, WithBit(bitmap, k), writes))
  {
    var s' := Stored(s, svc, k, WithBit(bitmap, k), writes);
    BitsWithBit(bitmap, k);
    forall j | j in Bits(WithBit(bitmap, k)) ensures exists uid :: HasAddress(s', uid, j) {
      if j == k {
        assert HasAddress(s', svc.uid, k);
      } else {
        var uid :| HasAddress(s, uid, j);
        assert HasAddress(s', uid, j);
      }
    }
  }

  /** An add that can read the bitmap keeps the registry safe whichever of its writes fails. */
  lemma AddKeepsSafe(s: Registry, namespace: string, service: Service, uid: Uid, io: Io, s': Registry, answer: Answer)
    requires Safe(s) && io.bitmapRead && uid !in s.services
    requires AddStep(s, namespace, service, uid, io, s', answer)
    ensures Safe(s')
  {
    var admitted := Admission(s, namespace, service, io);
    if admitted.Done? {
      AdmittedIsApart(s, namespace, service, io);
      var svc := admitted.service.(namespace := namespace, uid := uid);
      if !Resets(s, io) {
        AllocKeepsSafe(s, svc, s.bitmap.value, io.writes, s', answer);
      } else if io.writes > 0 {
        AllocKeepsSafe(s.(bitmap := Some(NoBits())), svc, NoBits(), io.writes - 1, s', answer);
      }
    }
  }

  lemma AllocKeepsSafe(s: Registry, svc: Service, bitmap: seq<bv8>, writes: nat, s': Registry, answer: Answer)
    requires Safe(s) && svc.uid !in s.services && !AnyShares(svc, s.services)
    requires s.bitmap == Some(bitmap) && AllocStep(s, svc, bitmap, writes, s', answer)
    ensures Safe(s')
  {
    if !Full(bitmap) {
      var k :| LeastFree(bitmap, k) && StoreStep(s, svc, k, bitmap, writes, s', answer);
      StoredIsSafe(s, svc, k, bitmap, writes);
    }
  }

  /** Every stored service, which is then the only one, has the first address. */
  predicate AllAtZero(s: Registry) {
    forall uid :: uid in s.services ==> s.services[uid].clusterIP == Address(0)
  }

  lemma FreshBitmap(k: nat)
    ensures |NoBits()| == IP_POOL_SIZE / 8 && !Full(NoBits())
    ensures LeastFree(NoBits(), k) <==> k == 0
    ensures Bits(WithBit(NoBits(), 0)) == {0}
  {
    assert 0 !in Bits(NoBits());
    BitsWithBit(NoBits(), 0);
  }

  /** With a fresh bitmap in place of the one in use. */
  lemma ResetKeepsSafeIff(s: Registry, svc: Service, writes: nat, s': Registry, answer: Answer)
    requires Safe(s) && svc.uid !in s.services && !AnyShares(svc, s.services)
    requires AllocStep(s.(bitmap := Some(NoBits())), svc, NoBits(), writes, s', answer)
    ensures Safe(s') <==> s.services == map[] || (writes == 1 && AllAtZero(s))
  {
    var s1 := s.(bitmap := Some(NoBits()));
    FreshBitmap(0);
    var k :| LeastFree(NoBits(), k) && StoreStep(s1, svc, k, NoBits(), writes, s', answer);
    FreshBitmap(k);
    if s.services == map[] {
      StoredIsSafe(s1, svc, 0, NoBits(), writes);
    } else {
      var u :| u in s.services;
      OverwrittenIsSafeIff(s, svc, writes, s', u);
    }
  }

  lemma OverwrittenIsSafeIff(s: Registry, svc: Service, writes: nat, s': Registry, u: Uid)
    requires Safe(s) && svc.uid !in s.services && u in s.services
    requires s' == Stored(s.(bitmap := Some(NoBits())), svc, 0, WithBit(NoBits(), 0), writes)
    ensures Safe(s') <==> writes == 1 && AllAtZero(s)
  {
    FreshBitmap(0);
    if Safe(s') {
      OnlyZeroIsOwned(s', if writes == 0 then {} else {0});
      assert writes >= 2 ==> svc.uid in s'.services;
      assert s'.services[u].clusterIP == Address(0);
    }
    if writes == 1 && AllAtZero(s) {
      ZeroIsOwned(s, s');
    }
  }

  lemma OnlyZeroIsOwned(s: Registry, bits: set<nat>)
    requires AddressesOwned(s) && s.bitmap.Some? && Bits(s.bitmap.value) == bits <= {0}
    ensures AllAtZero(s) && (bits == {} ==> s.services == map[])
    ensures forall u, v :: u in s.services && v in s.services ==> u == v
  {
    forall uid | uid in s.services ensures s.services[uid].clusterIP == Address(0) && bits != {} {
      var j :| HasAddress(s, uid, j) && j in Bits(s.bitmap.value);
      assert j in bits;
    }
  }

  lemma ZeroIsOwned(s: Registry, s': Registry)
    requires Safe(s) && AllAtZero(s) && s' == s.(bitmap := s'.bitmap)
    requires s'.bitmap.Some? && |s'.bitmap.value| == IP_POOL_SIZE / 8 && 0 in Bits(s'.bitmap.value)
    ensures Safe(s')
  {
    forall uid | uid in s'.services ensures exists k :: HasAddress(s', uid, k) && k in Bits(s'.bitmap.value) {
      assert HasAddress(s', uid, 0);
    }
  }

  /**
    An add keeps the registry safe if and only if it can read the bitmap, is refused before, gets no write
    through, finds nothing stored, or stops after taking the first address away from the one service that has it.
  */
  lemma AddKeepsSafeIff(s: Registry, namespace: string, service: Service, uid: Uid, io: Io, s': Registry, answer: Answer)
    requires Safe(s) && uid !in s.services
    requires AddStep(s, namespace, service, uid, io, s', answer)
    ensures Safe(s') <==>
              || io.bitmapRead || Admission(s, namespace, service, io).Refused? || io.writes == 0
              || s.services == map[] || (io.writes == 2 && AllAtZero(s))
  {
    var admitted := Admission(s, namespace, service, io);
    if io.bitmapRead {
      AddKeepsSafe(s, namespace, service, uid, io, s', answer);
    } else if admitted.Done? && io.writes > 0 {
      AdmittedIsApart(s, namespace, service, io);
      ResetKeepsSafeIff(s, admitted.service.(namespace := namespace, uid := uid), io.writes - 1, s', answer);
    }
  }

  /** The writes left for taking the address, storing the service and storing its name. */
  function WritesLeft(s: Registry, io: Io): int {
    if Resets(s, io) then io.writes - 1 else io.writes
  }

  function BitmapOf(s: Registry): seq<bv8> {
    if s.bitmap.Some? then s.bitmap.value else NoBits()
  }

  /**
    An add that can read the bitmap keeps the bitmap exact and every service named if and only if it is
    refused, finds no address, stops before taking one, or gets all writes through under a name that is new.
    Otherwise it leaves a bit set for nothing, or a service that no name leads to.
  */
  lemma AddKeepsTightIff(s: Registry, namespace: string, service: Service, uid: Uid, io: Io, s': Registry, answer: Answer)
    requires Safe(s) && Tight(s) && io.bitmapRead && uid !in s.services
    requires AddStep(s, namespace, service, uid, io, s', answer)
    ensures Tight(s') <==>
              || Admission(s, namespace, service, io).Refused? || Full(BitmapOf(s)) || WritesLeft(s, io) <= 0
              || (WritesLeft(s, io) >= 3 && Key(namespace, service.name) !in s.names)
  {
    var admitted := Admission(s, namespace, service, io);
    if admitted.Done? && (io.writes > 0 || !Resets(s, io)) {
      AdmittedIsApart(s, namespace, service, io);
      var svc := admitted.service.(namespace := namespace, uid := uid);
      var s1 := s.(bitmap := Some(BitmapOf(s)));
      assert Safe(s1) && Tight(s1);
      AllocKeepsTightIff(s1, svc, BitmapOf(s), WritesLeft(s, io), s', answer);
    }
  }

  lemma AddKeepsTight(s: Registry, namespace: string, service: Service, uid: Uid, io: Io, s': Registry, answer: Answer)
    requires Safe(s) && Tight(s) && AllReads(io) && uid !in s.services && io.writes >= 4
    requires AddStep(s, namespace, service, uid, io, s', answer)
    ensures Tight(s')
  {
    AddKeepsTightIff(s, namespace, service, uid, io, s', answer);
    if Admission(s, namespace, service, io).Done? {
      AdmittedIsApart(s, namespace, service, io);
    }
  }

  lemma AllocKeepsTightIff(s: Registry, svc: Service, bitmap: seq<bv8>, writes: nat, s': Registry, answer: Answer)
    requires Safe(s) && Tight(s) && svc.uid !in s.services
    requires s.bitmap == Some(bitmap) && AllocStep(s, svc, bitmap, writes, s', answer)
    ensures Tight(s') <==> Full(bitmap) || writes == 0 || (writes >= 3 && KeyOf(svc) !in s.names)
  {
    if !Full(bitmap) && writes > 0 {
      var k :| LeastFree(bitmap, k) && StoreStep(s, svc, k, bitmap, writes, s', answer);
      if writes >= 3 && KeyOf(svc) !in s.names {
        StoredIsTight(s, svc, k, bitmap, writes);
      } else if writes == 1 {
        LeakedBit(s, svc, k, bitmap);
      } else {
        UnnamedService(s, svc, k, WithBit(bitmap, k), writes);
      }
    }
  }

  /** The address is taken and nobody has it. */
  lemma LeakedBit(s: Registry, svc: Service, k: nat, bitmap: seq<bv8>)
    requires AddressesOwned(s) && s.bitmap == Some(bitmap) && LeastFree(bitmap, k)
    ensures var s' := Stored(s, svc, k, WithBit(bitmap, k), 1);
            && s'.services == s.services && s'.names == s.names && Bits(s'.bitmap.value) == Bits(bitmap) + {k}
            && (forall uid :: !HasAddress(s', uid, k)) && !Tight(s')
  {
    var s' := Stored(s, svc, k, WithBit(bitmap, k), 1);
    BitsWithBit(bitmap, k);
    forall uid ensures !HasAddress(s', uid, k) {
      if uid in s.services {
        var j :| HasAddress(s, uid, j) && j in Bits(bitmap);
        if Address(j) == Address(k) { AddressInjective(j, k); }
      }
    }
    assert k in Bits(s'.bitmap.value);
  }

  /** The new service, or the one whose name it took over, cannot be found by its name. */
  lemma UnnamedService(s: Registry, svc: Service, k: nat, after: seq<bv8>, writes: nat)
    requires NamesLead(s) && svc.uid !in s.services && writes >= 2 && (writes >= 3 ==> KeyOf(svc) in s.names)
    ensures !Tight(Stored(s, svc, k, after, writes))
  {
    var s' := Stored(s, svc, k, after, writes);
    var uid := if writes == 2 then svc.uid else s.names[KeyOf(svc)];
    assert uid in s'.services;
  }

  // ---------------------------------------------------------------------------
  // Deleting
  // ---------------------------------------------------------------------------

  /** The request gets as far as freeing the service's address. */
  predicate ReachesWrites(s: Registry, namespace: string, name: string, io: Io) {
    namespace != "" && name != "" && AllReads(io) && Key(namespace, name) in s.names
  }

  lemma SlotOfStored(s: Registry, uid: Uid) returns (k: nat)
    requires AddressesOwned(s) && uid in s.services
    ensures s.bitmap.Some? && HasAddress(s, uid, k) && k in Bits(s.bitmap.value)
    ensures FreeableSlot(s.bitmap.value, s.services[uid].clusterIP) == Some(k)
  {
    k :| HasAddress(s, uid, k) && k in Bits(s.bitmap.value);
    AddressReads(k);
  }

  lemma OtherSlots(s: Registry, uid: Uid, k: nat, other: Uid)
    requires AddressesOwned(s) && HasAddress(s, uid, k) && other in s.services && other != uid
    ensures exists j :: HasAddress(s, other, j) && j in Bits(s.bitmap.value) && j != k
  {
    var j :| HasAddress(s, other, j) && j in Bits(s.bitmap.value);
    assert j != k;
  }

  lemma ErasedIsSafe(s: Registry, key: Key, uid: Uid, k: nat)
    requires Safe(s) && key in s.names && s.names[key] == uid
    requires s.bitmap.Some? && HasAddress(s, uid, k) && k in Bits(s.bitmap.value)
    ensures Safe(Erased(s, key, uid, WithoutBit(s.bitmap.value, k), 3))
  {
    ErasedAddresses(s, key, uid, k);
    ErasedNames(s, key, uid, WithoutBit(s.bitmap.value, k));
  }

  lemma ErasedNames(s: Registry, key: Key, uid: Uid, after: seq<bv8>)
    requires NamesLead(s) && key in s.names && s.names[key] == uid
    ensures NamesLead(Erased(s, key, uid, after, 3))
  {
    var s' := Erased(s, key, uid, after, 3);
    forall key' | key' in s'.names ensures s'.names[key'] in s'.services && KeyOf(s'.services[s'.names[key']]) == key' {
      assert KeyOf(s.services[s.names[key']]) == key' && KeyOf(s.services[uid]) == key;
    }
  }

  lemma ErasedAddresses(s: Registry, key: Key, uid: Uid, k: nat)
    requires AddressesOwned(s) && s.bitmap.Some? && HasAddress(s, uid, k) && k in Bits(s.bitmap.value)
    ensures AddressesOwned(Erased(s, key, uid, WithoutBit(s.bitmap.value, k), 3))
  {
    var after := WithoutBit(s.bitmap.value, k);
    var s' := Erased(s, key, uid, after, 3);
    BitsWithoutBit(s.bitmap.value, k);
    forall other | other in s'.services ensures exists j :: HasAddress(s', other, j) && j in Bits(after) {
      OtherSlots(s, uid, k, other);
      var j :| HasAddress(s, other, j) && j in Bits(s.bitmap.value) && j != k;
      assert HasAddress(s', other, j) && j in Bits(after);
    }
  }

  lemma ErasedIsTight(s: Registry, key: Key, uid: Uid, k: nat)
    requires Safe(s) && Tight(s) && key in s.names && s.names[key] == uid
    requires s.bitmap.Some? && HasAddress(s, uid, k) && k in Bits(s.bitmap.value)
    ensures Tight(Erased(s, key, uid, WithoutBit(s.bitmap.value, k), 3))
  {
    var after := WithoutBit(s.bitmap.value, k);
    var s' := Erased(s, key, uid, after, 3);
    BitsWithoutBit(s.bitmap.value, k);
    forall j | j in Bits(after) ensures exists other :: HasAddress(s', other, j) {
      StillOwned(s, uid, k, j, s');
    }
    forall other | other in s'.services ensures KeyOf(s'.services[other]) in s'.names && s'.names[KeyOf(s'.services[other])] == other {
      StillNamed(s, key, uid, other);
    }
  }

  lemma StillOwned(s: Registry, uid: Uid, k: nat, j: nat, s': Registry)
    requires HasAddress(s, uid, k) && j != k && s'.services == s.services - {uid}
    requires exists other :: HasAddress(s, other, j)
    ensures exists other :: HasAddress(s', other, j)
  {
    var other :| HasAddress(s, other, j);
    if other == uid { AddressInjective(j, k); }
    assert HasAddress(s', other, j);
  }

  lemma StillNamed(s: Registry, key: Key, uid: Uid, other: Uid)
    requires NamesLead(s) && key in s.names && s.names[key] == uid && other in s.services && other != uid
    requires KeyOf(s.services[other]) in s.names && s.names[KeyOf(s.services[other])] == other
    ensures KeyOf(s.services[other]) != key
  {
  }

  /** Freed but still stored: the registry is no longer safe. */
  lemma HalfErasedIsUnsafe(s: Registry, key: Key, uid: Uid, k: nat, writes: nat)
    requires s.bitmap.Some? && HasAddress(s, uid, k) && k in Bits(s.bitmap.value) && 1 <= writes <= 2
    ensures !Safe(Erased(s, key, uid, WithoutBit(s.bitmap.value, k), writes))
  {
    var after := WithoutBit(s.bitmap.value, k);
    var s' := Erased(s, key, uid, after, writes);
    BitsWithoutBit(s.bitmap.value, k);
    forall j | HasAddress(s', uid, j) ensures j !in Bits(after) {
      AddressInjective(j, k);
    }
    assert uid in s'.services;
  }

  /** A delete keeps the registry safe exactly when it does not fail between freeing the address and its last write. */
  lemma DeleteKeepsSafeIff(s: Registry, namespace: string, name: string, io: Io, s': Registry, answer: Answer)
    requires Safe(s) && DeleteStep(s, namespace, name, io, s', answer)
    ensures Safe(s') <==> !(ReachesWrites(s, namespace, name, io) && 1 <= io.writes <= 2)
    ensures Tight(s) && Safe(s') ==> Tight(s')
  {
    if ReachesWrites(s, namespace, name, io) {
      var key := Key(namespace, name);
      var uid := s.names[key];
      var k := SlotOfStored(s, uid);
      var after := WithoutBit(s.bitmap.value, k);
      if io.writes == 0 {
        assert s' == s;
      } else if io.writes <= 2 {
        HalfErasedIsUnsafe(s, key, uid, k, io.writes);
      } else {
        assert s' == Erased(s, key, uid, after, 3);
        ErasedIsSafe(s, key, uid, k);
        if Tight(s) { ErasedIsTight(s, key, uid, k); }
      }
    }
  }

  // ---------------------------------------------------------------------------
  // Runs
  // ---------------------------------------------------------------------------

  datatype Request =
    | Add(namespace: string, service: Service, uid: Uid, io: Io)
    | Delete(namespace: string, name: string, io: Io)

  ghost predicate Handled(s: Registry, r: Request, s': Registry) {
    match r
    case Add(namespace, service, uid, io) =>
      uid !in s.services && exists answer :: AddStep(s, namespace, service, uid, io, s', answer)
    case Delete(namespace, name, io) =>
      exists answer :: DeleteStep(s, namespace, name, io, s', answer)
  }

  ghost predicate IsRun(states: seq<Registry>, requests: seq<Request>) {
    && |states| == |requests| + 1
    && states[0] == Registry(map[], map[], None)
    && forall i :: 0 <= i < |requests| ==> Handled(states[i], requests[i], states[i + 1])
  }

  /** Adds can read the bitmap and deletes are not cut off between two of their writes; anything else may fail. */
  predicate AddsMayFail(r: Request) {
    match r
    case Add(_, _, _, io) => io.bitmapRead
    case Delete(_, _, io) => io.writes == 0 || io.writes >= 3
  }

  predicate NothingFails(r: Request) {
    match r
    case Add(_, _, _, io) => AllReads(io) && io.writes >= 4
    case Delete(_, _, io) => AllReads(io) && io.writes >= 3
  }

  lemma {:induction false} RunIsSafe(states: seq<Registry>, requests: seq<Request>, n: nat)
    requires IsRun(states, requests) && n < |states|
    requires forall i :: 0 <= i < |requests| ==> AddsMayFail(requests[i])
    ensures Safe(states[n])
  {
    if n > 0 {
      RunIsSafe(states, requests, n - 1);
      StepIsSafe(states[n - 1], requests[n - 1], states[n]);
    }
  }

  lemma StepIsSafe(s: Registry, r: Request, s': Registry)
    requires Safe(s) && Handled(s, r, s') && AddsMayFail(r)
    ensures Safe(s')
  {
    match r
    case Add(namespace, service, uid, io) =>
      var answer :| AddStep(s, namespace, service, uid, io, s', answer);
      AddKeepsSafe(s, namespace, service, uid, io, s', answer);
    case Delete(namespace, name, io) =>
      var answer :| DeleteStep(s, namespace, name, io, s', answer);
      DeleteKeepsSafeIff(s, namespace, name, io, s', answer);
  }

  lemma StepIsTight(s: Registry, r: Request, s': Registry)
    requires Safe(s) && Tight(s) && Handled(s, r, s') && NothingFails(r)
    ensures Tight(s')
  {
    match r
    case Add(namespace, service, uid, io) =>
      var answer :| AddStep(s, namespace, service, uid, io, s', answer);
      AddKeepsTight(s, namespace, service, uid, io, s', answer);
    case Delete(namespace, name, io) =>
      var answer :| DeleteStep(s, namespace, name, io, s', answer);
      DeleteKeepsSafeIff(s, namespace, name, io, s', answer);
  }

  lemma {:induction false} RunIsTight(states: seq<Registry>, requests: seq<Request>, n: nat)
    requires IsRun(states, requests) && n < |states|
    requires forall i :: 0 <= i < |requests| ==> NothingFails(requests[i])
    ensures Safe(states[n]) && Tight(states[n])
  {
    if n > 0 {
      RunIsTight(states, requests, n - 1);
      StepIsSafe(states[n - 1], requests[n - 1], states[n]);
      StepIsTight(states[n - 1], requests[n - 1], states[n]);
    }
  }

  /** Over every run in which the store answers: a bit is set exactly when one service, and only one, has its address. */
  lemma BitmapIsExact(states: seq<Registry>, requests: seq<Request>, n: nat, k: nat)
    requires IsRun(states, requests) && n < |states| && states[n].bitmap.Some?
    requires forall i :: 0 <= i < |requests| ==> NothingFails(requests[i])
    ensures var s := states[n];
            && (k in Bits(s.bitmap.value) <==> exists uid :: HasAddress(s, uid, k))
            && forall u, v :: HasAddress(s, u, k) && HasAddress(s, v, k) ==> u == v
  {
    RunIsTight(states, requests, n);
    var s := states[n];
    if uid :| HasAddress(s, uid, k) {
      var j :| HasAddress(s, uid, j) && j in Bits(s.bitmap.value);
      AddressInjective(j, k);
    }
  }

  /** The name index and the table of services are inverse to each other. */
  lemma IndexIsBijective(states: seq<Registry>, requests: seq<Request>, n: nat)
    requires IsRun(states, requests) && n < |states|
    requires forall i :: 0 <= i < |requests| ==> NothingFails(requests[i])
    ensures var s := states[n];
            && (forall key :: key in s.names ==> s.names[key] in s.services && KeyOf(s.services[s.names[key]]) == key)
            && (forall uid :: uid in s.services ==> KeyOf(s.services[uid]) in s.names && s.names[KeyOf(s.services[uid])] == uid)
  {
    RunIsTight(states, requests, n);
  }

  /** Even when adds fail at any of their writes and other reads, no two services ever share an address or a node port. */
  lemma NothingIsShared(states: seq<Registry>, requests: seq<Request>, n: nat, u: Uid, v: Uid)
    requires IsRun(states, requests) && n < |states|
    requires forall i :: 0 <= i < |requests| ==> AddsMayFail(requests[i])
    requires u in states[n].services && v in states[n].services && u != v
    ensures states[n].services[u].clusterIP != states[n].services[v].clusterIP
    ensures !SharesNodePort(states[n].services[u], states[n].services[v])
  {
    RunIsSafe(states, requests, n);
  }

  // ---------------------------------------------------------------------------
  // What breaks it
  // ---------------------------------------------------------------------------

  lemma DoneTakesLeast(s: Registry, namespace: string, service: Service, uid: Uid, io: Io, s': Registry, answer: Answer, bitmap: seq<bv8>, k: nat)
    requires AddStep(s, namespace, service, uid, io, s', answer) && answer.Done?
    requires bitmap == (if Resets(s, io) then NoBits() else s.bitmap.value) && LeastFree(bitmap, k)
    ensures answer.service.clusterIP == Address(k) && s'.services == s.services[uid := answer.service]
  {
    var svc := Admission(s, namespace, service, io).service.(namespace := namespace, uid := uid);
    var s1 := if Resets(s, io) then s.(bitmap := Some(bitmap)) else s;
    var writes := if Resets(s, io) then io.writes - 1 else io.writes;
    var j :| LeastFree(bitmap, j) && StoreStep(s1, svc, j, bitmap, writes, s', answer);
    assert j == k;
  }

  /** After a delete that fails right after freeing the address, the next service can get the same one. */
  lemma FailedDeleteSharesAddress(s: Registry, namespace: string, name: string, io: Io, s1: Registry, answer1: Answer,
                                  service: Service, uid: Uid, io2: Io, s2: Registry, answer2: Answer, k: nat)
    requires Safe(s) && ReachesWrites(s, namespace, name, io) && io.writes == 1
    requires HasAddress(s, s.names[Key(namespace, name)], k) && forall j: nat :: j < k ==> j in Bits(s.bitmap.value)
    requires DeleteStep(s, namespace, name, io, s1, answer1)
    requires AddStep(s1, namespace, service, uid, io2, s2, answer2) && AllReads(io2) && uid !in s1.services && answer2.Done?
    ensures var old_ := s.names[Key(namespace, name)];
            && old_ != uid && HasAddress(s2, old_, k) && HasAddress(s2, uid, k)
  {
    var old_ := s.names[Key(namespace, name)];
    var j := SlotOfStored(s, old_);
    AddressInjective(j, k);
    BitsWithoutBit(s.bitmap.value, k);
    assert LeastFree(s1.bitmap.value, k);
    DoneTakesLeast(s1, namespace, service, uid, io2, s2, answer2, s1.bitmap.value, k);
  }

  /**
    An add that completes although it could not read the bitmap gives the new service the first address: it
    shares an address with another service if and only if that one had the first address.
  */
  lemma FailedReadSharesAddress(s: Registry, namespace: string, service: Service, uid: Uid, io: Io, s': Registry, answer: Answer,
                                other: Uid, k: nat)
    requires AddStep(s, namespace, service, uid, io, s', answer) && !io.bitmapRead && answer.Done? && uid != other
    ensures HasAddress(s', uid, 0)
    ensures HasAddress(s', other, k) && HasAddress(s', uid, k) <==> k == 0 && HasAddress(s, other, 0)
  {
    FreshBitmap(0);
    DoneTakesLeast(s, namespace, service, uid, io, s', answer, NoBits(), 0);
    if HasAddress(s', uid, k) { AddressInjective(k, 0); }
  }
}
