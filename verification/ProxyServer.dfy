/** The values the proxy works on (pkg/kubeproxy/types, pkg/api/v1). */
module ProxyTypes {
  type Uid = string

  datatype Protocol = Tcp | Udp | Other(name: string)

  datatype EndpointPort = EndpointPort(port: int, protocol: Protocol)

  datatype Endpoint = Endpoint(ip: string, ports: seq<EndpointPort>)

  datatype ServicePort = ServicePort(port: int, nodePort: int, targetPort: int, protocol: Protocol)

  datatype Service = Service(
    uid: Uid, namespace: string, name: string, selector: map<string, string>, clusterIP: string, ports: seq<ServicePort>, isNodePort: bool)

  datatype Pod = Pod(
    name: string, labels: map<string, string>, running: bool, podIP: string, containers: seq<seq<EndpointPort>>)

  datatype ServiceAndEndpoints = ServiceAndEndpoints(service: Service, endpoints: seq<Endpoint>)

  datatype ServiceUpdateSingle = ServiceUpdateSingle(
    service: Service, endpointAdditions: seq<Endpoint>, endpointDeletions: seq<Endpoint>)

  datatype ServiceOperation = ServiceAdd | ServiceDelete | ServiceEndpointsUpdate

  datatype ServiceUpdate = ServiceUpdate(updates: seq<ServiceUpdateSingle>, op: ServiceOperation)
}

/** The proxy's poll of the API server: desired endpoints and their diff (pkg/kubeproxy/app/server.go). */
module ProxyServer {
  import opened Wrappers
  import opened ProxyTypes

  type IpMap = map<string, seq<EndpointPort>>

  // ---------------------------------------------------------------------------
  // Port lists
  // ---------------------------------------------------------------------------

  predicate SamePorts(a: seq<EndpointPort>, b: seq<EndpointPort>) {
    multiset(a) == multiset(b)
  }

  predicate SortedByPort(a: seq<EndpointPort>) {
    forall i, j :: 0 <= i < j < |a| ==> a[i].port <= a[j].port
  }

  /** Entries sharing a port number are identical, so sorting by number alone leaves no choice. */
  predicate NoClash(a: seq<EndpointPort>) {
    forall x, y :: x in a && y in a && x.port == y.port ==> x == y
  }

  function InsertByPort(x: EndpointPort, a: seq<EndpointPort>): seq<EndpointPort> {
    if a == [] || x.port <= a[0].port then [x] + a else [a[0]] + InsertByPort(x, a[1..])
  }

  function SortPorts(a: seq<EndpointPort>): seq<EndpointPort> {
    if a == [] then [] else InsertByPort(a[0], SortPorts(a[1..]))
  }

  lemma {:induction false} InsertPermutes(x: EndpointPort, a: seq<EndpointPort>)
    ensures multiset(InsertByPort(x, a)) == multiset(a) + multiset{x}
  {
    if a != [] && x.port > a[0].port {
      InsertPermutes(x, a[1..]);
      assert a == [a[0]] + a[1..];
    }
  }

  lemma {:induction false} InsertSorts(x: EndpointPort, a: seq<EndpointPort>)
    requires SortedByPort(a)
    ensures SortedByPort(InsertByPort(x, a))
  {
    if a != [] && x.port > a[0].port {
      var rest := InsertByPort(x, a[1..]);
      InsertSorts(x, a[1..]);
      InsertPermutes(x, a[1..]);
      forall i | 0 <= i < |rest| ensures a[0].port <= rest[i].port {
        assert rest[i] in multiset(rest);
        assert rest[i] == x || rest[i] in a[1..];
      }
    }
  }

  lemma {:induction false} SortSorts(a: seq<EndpointPort>)
    ensures SortedByPort(SortPorts(a)) && SamePorts(SortPorts(a), a)
  {
    if a != [] {
      SortSorts(a[1..]);
      InsertSorts(a[0], SortPorts(a[1..]));
      InsertPermutes(a[0], SortPorts(a[1..]));
      assert a == [a[0]] + a[1..];
    }
  }

  lemma SameLength(a: seq<EndpointPort>, b: seq<EndpointPort>)
    requires SamePorts(a, b)
    ensures |a| == |b|
  {
    assert |multiset(a)| == |a| && |multiset(b)| == |b|;
  }

  /** sort.Slice is not stable, so all that is promised is a permutation in port order. */
  method SortSlice(a: array<EndpointPort>)
    modifies a
    ensures SortedByPort(a[..]) && SamePorts(a[..], old(a[..]))
  {
    var sorted := SortPorts(a[..]);
    SortSorts(a[..]);
    SameLength(sorted, a[..]);
    for i := 0 to a.Length
      invariant a[..i] == sorted[..i]
    {
      a[i] := sorted[i];
    }
    assert a[..] == sorted;
  }

  lemma {:induction false} SortedUnique(a: seq<EndpointPort>, b: seq<EndpointPort>)
    requires SamePorts(a, b) && SortedByPort(a) && SortedByPort(b) && NoClash(a)
    ensures a == b
  {
    SameLength(a, b);
    if a != [] {
      SameHead(a, b);
      TailPorts(a);
      TailPorts(b);
      SortedUnique(a[1..], b[1..]);
      SameParts(a, b);
    }
  }

  lemma SameParts(a: seq<EndpointPort>, b: seq<EndpointPort>)
    requires a != [] && b != [] && a[0] == b[0] && a[1..] == b[1..]
    ensures a == b
  {
    assert a == [a[0]] + a[1..] && b == [b[0]] + b[1..];
  }

  lemma TailPorts(a: seq<EndpointPort>)
    requires a != []
    ensures multiset(a[1..]) == multiset(a) - multiset{a[0]}
    ensures SortedByPort(a) ==> SortedByPort(a[1..])
    ensures NoClash(a) ==> NoClash(a[1..])
  {
    assert a == [a[0]] + a[1..];
  }

  lemma SameHead(a: seq<EndpointPort>, b: seq<EndpointPort>)
    requires SamePorts(a, b) && SortedByPort(a) && SortedByPort(b) && NoClash(a)
    requires a != [] && b != []
    ensures a[0] == b[0]
  {
    assert a[0] in multiset(a) && b[0] in multiset(b);
    var i :| 0 <= i < |b| && b[i] == a[0];
    var j :| 0 <= j < |a| && a[j] == b[0];
  }

  /** Moves two entries with one port number to the front of their number's run, in either order. */
  lemma SortWithPair(s: seq<EndpointPort>, x: EndpointPort, y: EndpointPort) returns (a: seq<EndpointPort>, b: seq<EndpointPort>)
    requires x in s && y in s && x != y && x.port == y.port
    ensures SortedByPort(a) && SortedByPort(b) && SamePorts(a, s) && SamePorts(b, s) && a != b
  {
    assert x in multiset(s) && y in multiset(s);
    var u := Without(Without(s, x), y);
    WithoutIs(s, x);
    assert y in multiset(Without(s, x));
    WithoutIs(Without(s, x), y);
    var v := SortPorts(u);
    SortSorts(u);
    InsertSorts(x, v);
    InsertSorts(y, v);
    InsertPermutes(x, v);
    InsertPermutes(y, v);
    var xv, yv := InsertByPort(x, v), InsertByPort(y, v);
    InsertSorts(x, yv);
    InsertSorts(y, xv);
    InsertPermutes(x, yv);
    InsertPermutes(y, xv);
    PairsDiffer(v, x, y);
    a := InsertByPort(x, yv);
    b := InsertByPort(y, xv);
  }

  lemma PairsDiffer(v: seq<EndpointPort>, x: EndpointPort, y: EndpointPort)
    requires x != y && x.port == y.port
    ensures InsertByPort(x, InsertByPort(y, v)) != InsertByPort(y, InsertByPort(x, v))
  {
    InsertedFirst(x, InsertByPort(y, v));
    InsertedFirst(y, InsertByPort(x, v));
    InsertedFirst(y, v);
    InsertedFirst(x, v);
  }

  function Without(s: seq<EndpointPort>, x: EndpointPort): seq<EndpointPort> {
    if s == [] then [] else if s[0] == x then s[1..] else [s[0]] + Without(s[1..], x)
  }

  lemma {:induction false} WithoutIs(s: seq<EndpointPort>, x: EndpointPort)
    requires x in multiset(s)
    ensures multiset(s) == multiset(Without(s, x)) + multiset{x}
  {
    assert s == [s[0]] + s[1..];
    if s[0] != x {
      WithoutIs(s[1..], x);
    }
  }

  function Below(a: seq<EndpointPort>, port: int): (k: nat)
    ensures k <= |a|
  {
    if a == [] || port <= a[0].port then 0 else 1 + Below(a[1..], port)
  }

  lemma {:induction false} InsertedFirst(x: EndpointPort, a: seq<EndpointPort>)
    ensures |InsertByPort(x, a)| == |a| + 1
    ensures InsertByPort(x, a)[Below(a, x.port)] == x
    ensures Below(InsertByPort(x, a), x.port) == Below(a, x.port)
  {
    if a != [] && x.port > a[0].port {
      InsertedFirst(x, a[1..]);
      assert InsertByPort(x, a)[1..] == InsertByPort(x, a[1..]);
    } else {
      assert |[x] + a| == |a| + 1;
    }
  }

  /** Any two sorted orders of a list agree exactly when no port number names two different entries. */
  lemma ComparisonExactIffNoClash(s: seq<EndpointPort>)
    ensures NoClash(s) <==>
            forall a, b :: SortedByPort(a) && SortedByPort(b) && SamePorts(a, s) && SamePorts(b, s) ==> a == b
  {
    if NoClash(s) {
      forall a, b | SortedByPort(a) && SortedByPort(b) && SamePorts(a, s) && SamePorts(b, s)
        ensures a == b
      {
        NoClashSame(s, a);
        SortedUnique(a, b);
      }
    } else {
      var x, y :| x in s && y in s && x.port == y.port && x != y;
      var a, b := SortWithPair(s, x, y);
    }
  }

  lemma NoClashSame(a: seq<EndpointPort>, b: seq<EndpointPort>)
    requires SamePorts(a, b) && NoClash(a)
    ensures NoClash(b)
  {
    assert forall x :: x in b ==> x in multiset(a);
  }

  method IsEndpointPortsEqual(a: array<EndpointPort>, b: array<EndpointPort>) returns (equal: bool)
    modifies a, b
    ensures SamePorts(a[..], old(a[..])) && SamePorts(b[..], old(b[..]))
    ensures equal ==> SamePorts(old(a[..]), old(b[..]))
    ensures SamePorts(old(a[..]), old(b[..])) && NoClash(old(a[..])) ==> equal
  {
    ghost var a0, b0 := a[..], b[..];
    assert |a0| == |multiset(a0)| && |b0| == |multiset(b0)|;
    if a.Length != b.Length {
      return false;
    }
    SortSlice(a);
    assert SamePorts(a[..], a0) && SamePorts(b[..], b0);
    SortSlice(b);
    assert SamePorts(a[..], a0) && SamePorts(b[..], b0);
    if SamePorts(a0, b0) && NoClash(a0) {
      NoClashSame(a0, a[..]);
      SortedUnique(a[..], b[..]);
    }
    for i := 0 to a.Length
      invariant a[..i] == b[..i]
    {
      if a[i].port != b[i].port || a[i].protocol != b[i].protocol {
        assert a[..][i] != b[..][i];
        return false;
      }
    }
    assert a[..] == b[..];
    return true;
  }

  // ---------------------------------------------------------------------------
  // The diff of two endpoint lists
  // ---------------------------------------------------------------------------

  /** The table from addresses to ports that a list of endpoints fills in; the last entry for an address wins. */
  function EpMap(endpoints: seq<Endpoint>): IpMap {
    if endpoints == [] then map[]
    else
      var last := endpoints[|endpoints| - 1];
      EpMap(endpoints[..|endpoints| - 1])[last.ip := last.ports]
  }

  function IpsOf(endpoints: seq<Endpoint>): set<string> {
    set ep | ep in endpoints :: ep.ip
  }

  predicate DistinctIps(endpoints: seq<Endpoint>) {
    forall i, j :: 0 <= i < j < |endpoints| ==> endpoints[i].ip != endpoints[j].ip
  }

  /** What a diff of old against new says about one address. */
  predicate DiffAt(old_: IpMap, new_: IpMap, deleted: bool, added: bool, ip: string) {
    if ip in old_ && ip in new_ then
      && deleted == added
      && (!deleted ==> SamePorts(old_[ip], new_[ip]))
      && (deleted && SamePorts(old_[ip], new_[ip]) ==> !NoClash(old_[ip]))
    else
      deleted == (ip in old_) && added == (ip in new_)
  }

  predicate DiffOn(old_: IpMap, new_: IpMap, dels: seq<Endpoint>, adds: seq<Endpoint>, done: set<string>) {
    && Lists(dels, old_, IpsOf(dels)) && Lists(adds, new_, IpsOf(adds))
    && IpsOf(dels) <= done && IpsOf(adds) <= done
    && (forall ip :: ip in done ==> DiffAt(old_, new_, ip in IpsOf(dels), ip in IpsOf(adds), ip))
  }

  predicate IsDiff(old_: IpMap, new_: IpMap, dels: seq<Endpoint>, adds: seq<Endpoint>) {
    DiffOn(old_, new_, dels, adds, old_.Keys + new_.Keys)
  }

  predicate SameUpToOrder(a: IpMap, b: IpMap) {
    a.Keys == b.Keys && forall ip :: ip in a ==> SamePorts(a[ip], b[ip])
  }

  function Deleted(m: IpMap, dels: seq<Endpoint>): IpMap
    decreases |dels|
  {
    if dels == [] then m else Deleted(m - {dels[0].ip}, dels[1..])
  }

  function Added(m: IpMap, adds: seq<Endpoint>): IpMap
    decreases |adds|
  {
    if adds == [] then m else Added(m[adds[0].ip := adds[0].ports], adds[1..])
  }

  lemma {:induction false} DeletedIs(m: IpMap, dels: seq<Endpoint>)
    ensures Deleted(m, dels) == m - IpsOf(dels)
    decreases |dels|
  {
    if dels != [] {
      DeletedIs(m - {dels[0].ip}, dels[1..]);
      assert dels == [dels[0]] + dels[1..];
      assert IpsOf(dels) == {dels[0].ip} + IpsOf(dels[1..]);
    }
  }

  lemma {:induction false} AddedAt(m: IpMap, adds: seq<Endpoint>, target: IpMap, ip: string)
    requires forall a :: a in adds ==> a.ip in target && a.ports == target[a.ip]
    ensures ip in Added(m, adds) <==> ip in m || ip in IpsOf(adds)
    ensures ip in IpsOf(adds) ==> ip in target && Added(m, adds)[ip] == target[ip]
    ensures ip in m && ip !in IpsOf(adds) ==> Added(m, adds)[ip] == m[ip]
    decreases |adds|
  {
    if adds != [] {
      FirstOfIps(adds);
      AddedAt(m[adds[0].ip := adds[0].ports], adds[1..], target, ip);
    }
  }

  lemma FirstOfIps(eps: seq<Endpoint>)
    requires eps != []
    ensures IpsOf(eps) == {eps[0].ip} + IpsOf(eps[1..])
    ensures eps[0] in eps && forall e :: e in eps[1..] ==> e in eps
  {
    assert eps == [eps[0]] + eps[1..];
  }

  /** Applying a diff's deletions and then its additions to the old map gives the new one up to port order. */
  lemma DiffRestores(old_: IpMap, new_: IpMap, dels: seq<Endpoint>, adds: seq<Endpoint>)
    requires IsDiff(old_, new_, dels, adds)
    ensures SameUpToOrder(Added(Deleted(old_, dels), adds), new_)
  {
    var m := Deleted(old_, dels);
    DeletedIs(old_, dels);
    var r := Added(m, adds);
    forall ip | ip in old_.Keys + new_.Keys
      ensures ip in r <==> ip in new_
      ensures ip in r ==> SamePorts(r[ip], new_[ip])
    {
      assert DiffAt(old_, new_, ip in IpsOf(dels), ip in IpsOf(adds), ip);
      AddedAt(m, adds, new_, ip);
    }
    forall ip | ip in r ensures ip in old_.Keys + new_.Keys { AddedAt(m, adds, new_, ip); }
  }

  /** With unambiguous port lists the diff is empty exactly when the maps agree up to port order. */
  lemma EmptyDiffIffSame(old_: IpMap, new_: IpMap, dels: seq<Endpoint>, adds: seq<Endpoint>)
    requires IsDiff(old_, new_, dels, adds)
    ensures dels == [] && adds == [] ==> SameUpToOrder(old_, new_)
    ensures SameUpToOrder(old_, new_) && (forall ip :: ip in old_ ==> NoClash(old_[ip])) ==> dels == [] && adds == []
  {
    if dels == [] && adds == [] {
      DiffRestores(old_, new_, dels, adds);
    }
    if SameUpToOrder(old_, new_) && forall ip :: ip in old_ ==> NoClash(old_[ip]) {
      forall ip ensures ip !in IpsOf(dels) && ip !in IpsOf(adds) {
        if ip in old_ { assert DiffAt(old_, new_, ip in IpsOf(dels), ip in IpsOf(adds), ip); }
      }
      FirstIp(dels);
      FirstIp(adds);
    }
  }

  lemma FirstIp(eps: seq<Endpoint>)
    ensures eps != [] ==> eps[0].ip in IpsOf(eps)
  {
    if eps != [] {
      assert eps[0] in eps;
    }
  }

  /** The half of a diff that one list carries. */
  predicate Lists(eps: seq<Endpoint>, m: IpMap, ips: set<string>) {
    && DistinctIps(eps)
    && IpsOf(eps) == ips
    && forall ep :: ep in eps ==> ep.ip in m && ep.ports == m[ep.ip]
  }

  lemma ListMore(eps: seq<Endpoint>, m: IpMap, ips: set<string>, ip: string)
    requires Lists(eps, m, ips) && ip !in ips && ip in m
    ensures Lists(eps + [Endpoint(ip, m[ip])], m, ips + {ip})
  {
    var more := eps + [Endpoint(ip, m[ip])];
    assert more[|eps|].ip == ip;
    forall ep | ep in eps ensures ep.ip in ips && ep in more { assert ep.ip in IpsOf(eps); }
    assert IpsOf(more) == ips + {ip};
  }

  lemma DiffExtend(old_: IpMap, new_: IpMap, dels: seq<Endpoint>, adds: seq<Endpoint>, done: set<string>, ip: string, deleted: bool, added: bool)
    requires DiffOn(old_, new_, dels, adds, done) && ip !in done
    requires deleted ==> ip in old_
    requires added ==> ip in new_
    requires DiffAt(old_, new_, deleted, added, ip)
    ensures DiffOn(old_, new_,
              if deleted then dels + [Endpoint(ip, old_[ip])] else dels,
              if added then adds + [Endpoint(ip, new_[ip])] else adds,
              done + {ip})
  {
    if deleted { ListMore(dels, old_, IpsOf(dels), ip); }
    if added { ListMore(adds, new_, IpsOf(adds), ip); }
  }

  lemma DiffExtendNew(old_: IpMap, new_: IpMap, dels: seq<Endpoint>, adds: seq<Endpoint>, done: set<string>, ip: string)
    requires DiffOn(old_, new_, dels, adds, done) && ip !in done
    requires ip !in old_ && ip in new_
    ensures DiffOn(old_, new_, dels, adds + [Endpoint(ip, new_[ip])], done + {ip})
  {
    DiffExtend(old_, new_, dels, adds, done, ip, false, true);
  }

  method FillIpMap(endpoints: seq<Endpoint>) returns (m: IpMap)
    ensures m == EpMap(endpoints)
  {
    m := map[];
    for i := 0 to |endpoints|
      invariant m == EpMap(endpoints[..i])
    {
      assert endpoints[..i + 1][..i] == endpoints[..i];
      m := m[endpoints[i].ip := endpoints[i].ports];
    }
    assert endpoints[..|endpoints|] == endpoints;
  }

  method ComparePorts(a: seq<EndpointPort>, b: seq<EndpointPort>) returns (equal: bool)
    ensures equal ==> SamePorts(a, b)
    ensures SamePorts(a, b) && NoClash(a) ==> equal
  {
    var x := new EndpointPort[|a|](i requires 0 <= i < |a| => a[i]);
    var y := new EndpointPort[|b|](i requires 0 <= i < |b| => b[i]);
    assert x[..] == a && y[..] == b;
    equal := IsEndpointPortsEqual(x, y);
  }

  function EndpointsIn(item: Option<ServiceAndEndpoints>): seq<Endpoint> {
    if item.None? then [] else item.value.endpoints
  }

  method CalculateDiff(oldItem: Option<ServiceAndEndpoints>, newItem: ServiceAndEndpoints)
    returns (diff: bool, update: ServiceUpdateSingle, op: ServiceOperation)
    ensures op == if oldItem.None? then ServiceAdd else ServiceEndpointsUpdate
    ensures update.service == newItem.service
    ensures IsDiff(EpMap(EndpointsIn(oldItem)), EpMap(newItem.endpoints), update.endpointDeletions, update.endpointAdditions)
    ensures diff <==> oldItem.None? || update.endpointDeletions != [] || update.endpointAdditions != []
  {
    op := if oldItem.None? then ServiceAdd else ServiceEndpointsUpdate;
    var oldIPMap := FillIpMap(EndpointsIn(oldItem));
    var newIPMap := FillIpMap(newItem.endpoints);
    var dels, adds := DiffOldAddresses(oldIPMap, newIPMap);
    adds := DiffNewAddresses(oldIPMap, newIPMap, dels, adds);
    diff := oldItem.None? || |dels| > 0 || |adds| > 0;
    update := ServiceUpdateSingle(newItem.service, adds, dels);
  }

  /** The loop over the addresses of the previous poll. */
  method DiffOldAddresses(oldIPMap: IpMap, newIPMap: IpMap) returns (dels: seq<Endpoint>, adds: seq<Endpoint>)
    ensures DiffOn(oldIPMap, newIPMap, dels, adds, oldIPMap.Keys)
  {
    dels, adds := [], [];
    var rest := oldIPMap.Keys;
    ghost var done: set<string> := {};
    while rest != {}
      invariant rest !! done && rest + done == oldIPMap.Keys
      invariant DiffOn(oldIPMap, newIPMap, dels, adds, done)
      decreases rest
    {
      var ip :| ip in rest;
      rest := rest - {ip};
      var equal := false;
      if ip in newIPMap {
        equal := ComparePorts(oldIPMap[ip], newIPMap[ip]);
      }
      DiffExtend(oldIPMap, newIPMap, dels, adds, done, ip, !equal, !equal && ip in newIPMap);
      if !equal {
        dels := dels + [Endpoint(ip, oldIPMap[ip])];
        if ip in newIPMap {
          adds := adds + [Endpoint(ip, newIPMap[ip])];
        }
      }
      done := done + {ip};
    }
  }

  /** The loop over the addresses of this poll. */
  method DiffNewAddresses(oldIPMap: IpMap, newIPMap: IpMap, dels: seq<Endpoint>, adds0: seq<Endpoint>) returns (adds: seq<Endpoint>)
    requires DiffOn(oldIPMap, newIPMap, dels, adds0, oldIPMap.Keys)
    ensures IsDiff(oldIPMap, newIPMap, dels, adds)
  {
    adds := adds0;
    var rest := newIPMap.Keys;
    ghost var done := oldIPMap.Keys;
    while rest != {}
      invariant forall ip :: ip in done <==> ip in oldIPMap || (ip in newIPMap && ip !in rest)
      invariant rest <= newIPMap.Keys
      invariant DiffOn(oldIPMap, newIPMap, dels, adds, done)
      decreases rest
    {
      var ip :| ip in rest;
      rest := rest - {ip};
      if ip !in oldIPMap {
        DiffExtendNew(oldIPMap, newIPMap, dels, adds, done, ip);
        adds := adds + [Endpoint(ip, newIPMap[ip])];
        done := done + {ip};
      }
    }
    assert done == oldIPMap.Keys + newIPMap.Keys;
  }

  // ---------------------------------------------------------------------------
  // Desired endpoints
  // ---------------------------------------------------------------------------

  predicate Selects(selector: map<string, string>, labels: map<string, string>) {
    forall key :: key in selector ==> key in labels && labels[key] == selector[key]
  }

  method IsSelectorMatched(pod: Pod, svc: Service) returns (matched: bool)
    ensures matched <==> Selects(svc.selector, pod.labels)
  {
    var rest := svc.selector.Keys;
    while rest != {}
      invariant rest <= svc.selector.Keys
      invariant forall key :: key in svc.selector && key !in rest ==> key in pod.labels && pod.labels[key] == svc.selector[key]
      decreases rest
    {
      var key :| key in rest;
      if key !in pod.labels || pod.labels[key] != svc.selector[key] {
        return false;
      }
      rest := rest - {key};
    }
    return true;
  }

  function Target(p: ServicePort): EndpointPort {
    EndpointPort(p.targetPort, p.protocol)
  }

  predicate Exposes(pod: Pod, port: EndpointPort) {
    exists c :: c in pod.containers && port in c
  }

  /** The service's target ports the pod exposes, in the service's order. */
  function PortsOf(pod: Pod, ports: seq<ServicePort>): seq<EndpointPort> {
    if ports == [] then []
    else
      var last := ports[|ports| - 1];
      PortsOf(pod, ports[..|ports| - 1]) + if Exposes(pod, Target(last)) then [Target(last)] else []
  }

  predicate Serves(pod: Pod, svc: Service) {
    Selects(svc.selector, pod.labels) && pod.running && pod.podIP != ""
  }

  function EndpointsOf(pods: seq<Pod>, svc: Service): seq<Endpoint> {
    if pods == [] then []
    else
      var last := pods[|pods| - 1];
      EndpointsOf(pods[..|pods| - 1], svc) + if Serves(last, svc) then [Endpoint(last.podIP, PortsOf(last, svc.ports))] else []
  }

  type Snapshot = map<Uid, ServiceAndEndpoints>

  function SnapshotOf(services: seq<Service>, pods: seq<Pod>): Snapshot {
    if services == [] then map[]
    else
      var last := services[|services| - 1];
      SnapshotOf(services[..|services| - 1], pods)[last.uid := ServiceAndEndpoints(last, EndpointsOf(pods, last))]
  }

  lemma {:induction false} PortsOfMembers(pod: Pod, ports: seq<ServicePort>, e: EndpointPort)
    ensures e in PortsOf(pod, ports) <==> Exposes(pod, e) && exists p :: p in ports && e == Target(p)
  {
    if ports != [] {
      var rest, last := ports[..|ports| - 1], ports[|ports| - 1];
      PortsOfMembers(pod, rest, e);
      assert ports == rest + [last];
    }
  }

  /** Every endpoint of a service serves only target ports of that service. */
  ghost predicate FromService(svc: Service, m: IpMap) {
    forall ip, e :: ip in m && e in m[ip] ==> exists p :: p in svc.ports && e == Target(p)
  }

  lemma LastEndpoint(pods: seq<Pod>, svc: Service)
    requires pods != []
    ensures var rest, last := pods[..|pods| - 1], pods[|pods| - 1];
            EpMap(EndpointsOf(pods, svc)) ==
              if Serves(last, svc) then EpMap(EndpointsOf(rest, svc))[last.podIP := PortsOf(last, svc.ports)]
              else EpMap(EndpointsOf(rest, svc))
  {
    var rest, last := pods[..|pods| - 1], pods[|pods| - 1];
    var ep := Endpoint(last.podIP, PortsOf(last, svc.ports));
    var eps := EndpointsOf(rest, svc);
    assert (eps + [ep])[..|eps|] == eps;
    assert eps + [] == eps;
  }

  lemma {:induction false} EndpointsFromService(pods: seq<Pod>, svc: Service)
    ensures FromService(svc, EpMap(EndpointsOf(pods, svc)))
  {
    if pods != [] {
      var rest, last := pods[..|pods| - 1], pods[|pods| - 1];
      EndpointsFromService(rest, svc);
      LastEndpoint(pods, svc);
      if Serves(last, svc) {
        var ep := Endpoint(last.podIP, PortsOf(last, svc.ports));
        forall e | e in ep.ports ensures exists p :: p in svc.ports && e == Target(p) {
          PortsOfMembers(last, svc.ports, e);
        }
      }
    }
  }

  predicate ServedAt(pods: seq<Pod>, svc: Service, ip: string) {
    exists pod :: pod in pods && pod.podIP == ip && Serves(pod, svc)
  }

  lemma ServedAtLast(rest: seq<Pod>, last: Pod, svc: Service, ip: string)
    ensures ServedAt(rest + [last], svc, ip) <==> ServedAt(rest, svc, ip) || (Serves(last, svc) && last.podIP == ip)
  {
    var all := rest + [last];
    assert last in all;
    assert forall pod :: pod in all <==> pod in rest || pod == last;
  }

  /** The endpoint table lists exactly the addresses of running selected pods. */
  lemma {:induction false} EndpointAddresses(pods: seq<Pod>, svc: Service, ip: string)
    ensures ip in EpMap(EndpointsOf(pods, svc)) <==> ServedAt(pods, svc, ip)
  {
    if pods != [] {
      var rest, last := pods[..|pods| - 1], pods[|pods| - 1];
      EndpointAddresses(rest, svc, ip);
      LastEndpoint(pods, svc);
      ServedAtLast(rest, last, svc, ip);
      assert pods == rest + [last];
    }
  }

  predicate Keyed(snap: Snapshot) {
    forall uid :: uid in snap ==> snap[uid].service.uid == uid
  }

  ghost predicate Grounded(snap: Snapshot) {
    forall uid :: uid in snap ==> FromService(snap[uid].service, EpMap(snap[uid].endpoints))
  }

  lemma {:induction false} SnapshotsAreGrounded(services: seq<Service>, pods: seq<Pod>)
    ensures Keyed(SnapshotOf(services, pods)) && Grounded(SnapshotOf(services, pods))
  {
    if services != [] {
      SnapshotsAreGrounded(services[..|services| - 1], pods);
      EndpointsFromService(pods, services[|services| - 1]);
    }
  }

  method PodPorts(pod: Pod, svc: Service) returns (ports: seq<EndpointPort>)
    ensures ports == PortsOf(pod, svc.ports)
  {
    ports := [];
    for i := 0 to |svc.ports|
      invariant ports == PortsOf(pod, svc.ports[..i])
    {
      var want := Target(svc.ports[i]);
      var found := false;
      label SearchLoop:
      for c := 0 to |pod.containers|
        invariant !found
        invariant forall k :: 0 <= k < c ==> want !in pod.containers[k]
      {
        for j := 0 to |pod.containers[c]|
          invariant !found
          invariant want !in pod.containers[c][..j]
        {
          if pod.containers[c][j].port == want.port && pod.containers[c][j].protocol == want.protocol {
            found := true;
            assert want in pod.containers[c];
            break SearchLoop;
          }
          assert pod.containers[c][..j + 1] == pod.containers[c][..j] + [pod.containers[c][j]];
        }
        assert pod.containers[c][..|pod.containers[c]|] == pod.containers[c];
      }
      assert found <==> Exposes(pod, want);
      if found {
        ports := ports + [want];
      }
      assert svc.ports[..i + 1][..i] == svc.ports[..i];
    }
    assert svc.ports[..|svc.ports|] == svc.ports;
  }

  method ServiceEndpoints(pods: seq<Pod>, svc: Service) returns (endpoints: seq<Endpoint>)
    ensures endpoints == EndpointsOf(pods, svc)
  {
    endpoints := [];
    for i := 0 to |pods|
      invariant endpoints == EndpointsOf(pods[..i], svc)
    {
      assert pods[..i + 1][..i] == pods[..i];
      var matched := IsSelectorMatched(pods[i], svc);
      if !matched || !pods[i].running || pods[i].podIP == "" {
        continue;
      }
      var ports := PodPorts(pods[i], svc);
      endpoints := endpoints + [Endpoint(pods[i].podIP, ports)];
    }
    assert pods[..|pods|] == pods;
  }

  // ---------------------------------------------------------------------------
  // One poll
  // ---------------------------------------------------------------------------

  function UidsIn(updates: seq<ServiceUpdateSingle>): set<Uid> {
    set u | u in updates :: u.service.uid
  }

  predicate DistinctUids(updates: seq<ServiceUpdateSingle>) {
    forall i, j :: 0 <= i < j < |updates| ==> updates[i].service.uid != updates[j].service.uid
  }

  predicate IsAdditions(old_: Snapshot, new_: Snapshot, updates: seq<ServiceUpdateSingle>) {
    && OneEach(updates, new_.Keys - old_.Keys)
    && forall u :: u in updates ==> AdditionFor(new_, u)
  }

  predicate AdditionFor(new_: Snapshot, u: ServiceUpdateSingle) {
    var uid := u.service.uid;
    && uid in new_ && u.service == new_[uid].service
    && IsDiff(map[], EpMap(new_[uid].endpoints), u.endpointDeletions, u.endpointAdditions)
  }

  predicate IsDeletions(old_: Snapshot, new_: Snapshot, updates: seq<ServiceUpdateSingle>) {
    && OneEach(updates, old_.Keys - new_.Keys)
    && forall u :: u in updates ==> DeletionFor(old_, u)
  }

  predicate DeletionFor(old_: Snapshot, u: ServiceUpdateSingle) {
    u.service.uid in old_ && u.service == old_[u.service.uid].service
  }

  predicate Unchanged(old_: Snapshot, new_: Snapshot, uid: Uid) {
    uid in old_ && uid in new_ && IsDiff(EpMap(old_[uid].endpoints), EpMap(new_[uid].endpoints), [], [])
  }

  predicate IsUpdates(old_: Snapshot, new_: Snapshot, updates: seq<ServiceUpdateSingle>) {
    && OneEach(updates, UidsIn(updates))
    && UidsIn(updates) <= old_.Keys * new_.Keys
    && (forall u :: u in updates ==> UpdateFor(old_, new_, u))
    && (forall uid :: uid in old_ && uid in new_ && uid !in UidsIn(updates) ==> Unchanged(old_, new_, uid))
  }

  predicate UpdateFor(old_: Snapshot, new_: Snapshot, u: ServiceUpdateSingle) {
    var uid := u.service.uid;
    && uid in old_ && uid in new_ && u.service == new_[uid].service
    && (u.endpointDeletions != [] || u.endpointAdditions != [])
    && IsDiff(EpMap(old_[uid].endpoints), EpMap(new_[uid].endpoints), u.endpointDeletions, u.endpointAdditions)
  }

  /** The batches one poll sends: additions, then deletions, then endpoint updates; empty ones are not sent. */
  function Batches(adds: seq<ServiceUpdateSingle>, dels: seq<ServiceUpdateSingle>, eps: seq<ServiceUpdateSingle>): seq<ServiceUpdate> {
    (if adds != [] then [ServiceUpdate(adds, ServiceAdd)] else []) +
    (if dels != [] then [ServiceUpdate(dels, ServiceDelete)] else []) +
    (if eps != [] then [ServiceUpdate(eps, ServiceEndpointsUpdate)] else [])
  }

  /** `batches` is what a poll that replaces `old_` by `new_` may send; map order leaves the rest open. */
  ghost predicate Announced(old_: Snapshot, new_: Snapshot, batches: seq<ServiceUpdate>) {
    exists adds, dels, eps ::
      && batches == Batches(adds, dels, eps)
      && IsAdditions(old_, new_, adds) && IsDeletions(old_, new_, dels) && IsUpdates(old_, new_, eps)
  }

  /** A list of updates for exactly the given services, one each. */
  predicate OneEach(updates: seq<ServiceUpdateSingle>, uids: set<Uid>) {
    DistinctUids(updates) && UidsIn(updates) == uids
  }

  lemma AppendUpdate(updates: seq<ServiceUpdateSingle>, uids: set<Uid>, u: ServiceUpdateSingle)
    requires OneEach(updates, uids) && u.service.uid !in uids
    ensures OneEach(updates + [u], uids + {u.service.uid})
  {
    var more := updates + [u];
    assert more[|updates|] == u;
    forall v | v in updates ensures v.service.uid in uids && v in more { assert v.service.uid in UidsIn(updates); }
    assert UidsIn(more) == uids + {u.service.uid};
  }

  class ProxyServer {
    var latest: Snapshot
    var sent: seq<ServiceUpdate>

    constructor ()
      ensures latest == map[] && sent == []
    {
      latest, sent := map[], [];
    }

    method UpdateService(podList: Option<seq<Pod>>, serviceList: Option<seq<Service>>)
      requires Keyed(latest)
      modifies this
      ensures Keyed(latest)
      ensures podList.None? || serviceList.None? ==> latest == old(latest) && sent == old(sent)
      ensures podList.Some? && serviceList.Some? ==>
                && latest == SnapshotOf(serviceList.value, podList.value)
                && Grounded(latest)
                && old(sent) <= sent
                && Announced(old(latest), latest, sent[|old(sent)|..])
    {
      if podList.None? || serviceList.None? {
        return;
      }
      var pods, services := podList.value, serviceList.value;
      var newMap := DesiredServices(services, pods);
      SnapshotsAreGrounded(services, pods);
      var deletions := Removed(latest, newMap);
      var additions, endpointUpdates := Changed(latest, newMap);
      ghost var before := sent;
      if |additions| > 0 {
        sent := sent + [ServiceUpdate(additions, ServiceAdd)];
      }
      if |deletions| > 0 {
        sent := sent + [ServiceUpdate(deletions, ServiceDelete)];
      }
      if |endpointUpdates| > 0 {
        sent := sent + [ServiceUpdate(endpointUpdates, ServiceEndpointsUpdate)];
      }
      assert sent == before + Batches(additions, deletions, endpointUpdates);
      assert sent[|before|..] == Batches(additions, deletions, endpointUpdates);
      latest := newMap;
    }

    /** The loop that builds the desired endpoints of every service. */
    static method DesiredServices(services: seq<Service>, pods: seq<Pod>) returns (newMap: Snapshot)
      ensures newMap == SnapshotOf(services, pods)
    {
      newMap := map[];
      for i := 0 to |services|
        invariant newMap == SnapshotOf(services[..i], pods)
      {
        assert services[..i + 1][..i] == services[..i];
        var endpoints := ServiceEndpoints(pods, services[i]);
        newMap := newMap[services[i].uid := ServiceAndEndpoints(services[i], endpoints)];
      }
      assert services[..|services|] == services;
    }

    /** The loop that collects the services that are gone. */
    static method Removed(latest: Snapshot, newMap: Snapshot) returns (deletions: seq<ServiceUpdateSingle>)
      requires Keyed(latest)
      ensures IsDeletions(latest, newMap, deletions)
    {
      deletions := [];
      var rest := latest.Keys;
      ghost var gone: set<Uid> := {};
      while rest != {}
        invariant forall uid :: uid in gone <==> uid in latest && uid !in rest && uid !in newMap
        invariant rest <= latest.Keys
        invariant OneEach(deletions, gone)
        invariant forall u :: u in deletions ==> DeletionFor(latest, u)
        decreases rest
      {
        var uid :| uid in rest;
        rest := rest - {uid};
        if uid !in newMap {
          var update := ServiceUpdateSingle(latest[uid].service, [], []);
          AppendUpdate(deletions, gone, update);
          deletions := deletions + [update];
          gone := gone + {uid};
        }
      }
      assert gone == latest.Keys - newMap.Keys;
    }

    /** The loop that diffs every current service against the previous poll. */
    static method Changed(latest: Snapshot, newMap: Snapshot)
      returns (additions: seq<ServiceUpdateSingle>, endpointUpdates: seq<ServiceUpdateSingle>)
      requires Keyed(latest) && Keyed(newMap)
      ensures IsAdditions(latest, newMap, additions) && IsUpdates(latest, newMap, endpointUpdates)
    {
      additions, endpointUpdates := [], [];
      var rest := newMap.Keys;
      ghost var added: set<Uid>, kept: set<Uid>, changed: set<Uid> := {}, {}, {};
      while rest != {}
        invariant forall uid :: uid in added <==> uid in newMap && uid !in rest && uid !in latest
        invariant forall uid :: uid in changed || uid in kept <==> uid in newMap && uid !in rest && uid in latest
        invariant OneEach(additions, added) && OneEach(endpointUpdates, changed)
        invariant forall u :: u in additions ==> AdditionFor(newMap, u)
        invariant forall u :: u in endpointUpdates ==> UpdateFor(latest, newMap, u)
        invariant forall uid :: uid in kept ==> Unchanged(latest, newMap, uid)
        decreases rest
      {
        var uid :| uid in rest;
        rest := rest - {uid};
        var diff, update, op := DiffOne(latest, newMap, uid);
        if diff {
          if op == ServiceAdd {
            AppendUpdate(additions, added, update);
            additions := additions + [update];
            added := added + {uid};
          } else {
            AppendUpdate(endpointUpdates, changed, update);
            endpointUpdates := endpointUpdates + [update];
            changed := changed + {uid};
          }
        } else {
          kept := kept + {uid};
        }
      }
      assert added == newMap.Keys - latest.Keys;
    }

    static method DiffOne(latest: Snapshot, newMap: Snapshot, uid: Uid)
      returns (diff: bool, update: ServiceUpdateSingle, op: ServiceOperation)
      requires Keyed(newMap) && uid in newMap
      ensures update.service.uid == uid
      ensures op == if uid in latest then ServiceEndpointsUpdate else ServiceAdd
      ensures uid !in latest ==> diff && AdditionFor(newMap, update)
      ensures uid in latest && diff ==> UpdateFor(latest, newMap, update)
      ensures uid in latest && !diff ==> Unchanged(latest, newMap, uid)
    {
      diff, update, op := CalculateDiff(if uid in latest then Some(latest[uid]) else None, newMap[uid]);
    }
  }
}
