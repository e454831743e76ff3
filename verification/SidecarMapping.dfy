/** The mapping from service addresses to weighted endpoints that pilot publishes (pkg/microservice/pilot/pilot.go). */
module SidecarMapping {
  import opened Wrappers
  import opened ProxyTypes
  import opened ProxyServer
  import opened Traffic
  import opened Strings
  import Decimal
  import Int32

  type Name = string

  type ByName = map<Name, Endpoint>

  type Mapping = map<string, seq<SidecarEndpoints>>

  datatype ServiceEndpoints = ServiceEndpoints(service: Service, byName: ByName)

  datatype VsSubset = VsSubset(name: Name, url: Option<string>, weight: Option<int>)

  datatype VirtualService = VirtualService(namespace: string, serviceRef: Name, port: int, subsets: seq<VsSubset>)

  /** The stored subsets' pod names, by "namespace/name". */
  type SubsetStore = map<string, seq<Name>>

  datatype PortId = PortId(uid: Uid, port: int)

  // ---------------------------------------------------------------------------
  // Keys
  // ---------------------------------------------------------------------------

  function GetFullPort(uid: Uid, port: int): string {
    uid + "_" + Decimal.Format(port)
  }

  /** The first two parts of a split at underscores; a second part that is no number reads as 0. */
  function SplitFullPort(fp: string): PortId {
    var i := IndexOf(fp, '_');
    var rest := if i < |fp| then fp[i + 1..] else [];
    var n := Decimal.Atoi(rest[..IndexOf(rest, '_')]);
    PortId(fp[..i], if n.Some? then n.value else 0)
  }

  function Address(svc: Service, port: int): string {
    svc.clusterIP + ":" + Decimal.Format(port)
  }

  lemma FormatLacks(n: int, c: char)
    requires !Decimal.IsDigit(c) && c != '-'
    ensures c !in Decimal.Format(n)
  {
    var digits := if n < 0 then Decimal.Render(-n) else Decimal.Render(n);
    assert forall i :: 0 <= i < |digits| ==> Decimal.IsDigit(digits[i]);
  }

  /** Splitting undoes joining for every UID without an underscore. */
  lemma FullPortRoundTrip(uid: Uid, port: int)
    requires '_' !in uid
    ensures SplitFullPort(GetFullPort(uid, port)) == PortId(uid, port)
  {
    var f := Decimal.Format(port);
    IndexAfter(uid, f, '_');
    FormatLacks(port, '_');
    IndexMissing(f, '_');
    Decimal.AtoiReadsFormat(port);
    assert GetFullPort(uid, port)[|uid| + 1..] == f && f[..|f|] == f;
    assert GetFullPort(uid, port)[..|uid|] == uid;
  }

  /** A split never returns a UID with an underscore, so joining its parts splits back to them. */
  lemma SplitIsStable(fp: string)
    ensures var id := SplitFullPort(fp);
            SplitFullPort(GetFullPort(id.uid, id.port)) == id
  {
    BeforeIndex(fp, '_');
    FullPortRoundTrip(SplitFullPort(fp).uid, SplitFullPort(fp).port);
  }

  /** An address and a port number can be told from their joint key. */
  lemma AddressInjective(a: Service, m: int, b: Service, n: int)
    requires Address(a, m) == Address(b, n)
    ensures a.clusterIP == b.clusterIP && m == n
  {
    var f, g := Decimal.Format(m), Decimal.Format(n);
    FormatLacks(m, ':');
    FormatLacks(n, ':');
    ColonSplits(a.clusterIP, f, b.clusterIP, g);
    Decimal.FormatInjective(m, n);
  }

  /** What follows the last colon. */
  function AfterColon(s: string): string {
    if s == [] || s[|s| - 1] == ':' then [] else AfterColon(s[..|s| - 1]) + [s[|s| - 1]]
  }

  lemma {:induction false} AfterColonIs(a: string, f: string)
    requires ':' !in f
    ensures AfterColon(a + ":" + f) == f
  {
    var s := a + ":" + f;
    if f != [] {
      AfterColonIs(a, f[..|f| - 1]);
      assert s[..|s| - 1] == a + ":" + f[..|f| - 1];
    }
  }

  lemma ColonSplits(a: string, f: string, b: string, g: string)
    requires a + ":" + f == b + ":" + g
    requires ':' !in f && ':' !in g
    ensures a == b && f == g
  {
    AfterColonIs(a, f);
    AfterColonIs(b, g);
    assert a == (a + ":" + f)[..|a|] && b == (b + ":" + g)[..|b|];
  }

  // ---------------------------------------------------------------------------
  // Endpoints by pod name
  // ---------------------------------------------------------------------------

  /** Endpoints of the pods that serve svc, by pod name; of pods with one name the last wins. */
  function NamedEndpoints(pods: seq<Pod>, svc: Service, ports: seq<ServicePort>): ByName {
    if pods == [] then map[]
    else
      var last := pods[|pods| - 1];
      var before := NamedEndpoints(pods[..|pods| - 1], svc, ports);
      if Serves(last, svc) then before[last.name := Endpoint(last.podIP, PortsOf(last, ports))] else before
  }

  predicate DistinctNames(pods: seq<Pod>) {
    forall i, j :: 0 <= i < j < |pods| ==> pods[i].name != pods[j].name
  }

  ghost predicate EndpointOf(pods: seq<Pod>, svc: Service, ports: seq<ServicePort>, name: Name, e: Endpoint) {
    exists i :: 0 <= i < |pods| && pods[i].name == name && Serves(pods[i], svc) && e == Endpoint(pods[i].podIP, PortsOf(pods[i], ports))
  }

  /** With distinct pod names, exactly the running selected pods are listed, each with its own address and ports. */
  lemma {:induction false} NamedEndpointsAre(pods: seq<Pod>, svc: Service, ports: seq<ServicePort>, name: Name, e: Endpoint)
    requires DistinctNames(pods)
    ensures EndpointOf(pods, svc, ports, name, e) <==>
            name in NamedEndpoints(pods, svc, ports) && NamedEndpoints(pods, svc, ports)[name] == e
  {
    if pods != [] {
      var n := |pods| - 1;
      var rest := pods[..n];
      NamedEndpointsAre(rest, svc, ports, name, e);
      EndpointOfLast(pods, svc, ports, name, e);
      NamedAmong(rest, svc, ports);
    }
  }

  lemma EndpointOfLast(pods: seq<Pod>, svc: Service, ports: seq<ServicePort>, name: Name, e: Endpoint)
    requires pods != []
    ensures var n := |pods| - 1;
            EndpointOf(pods, svc, ports, name, e) <==>
            || EndpointOf(pods[..n], svc, ports, name, e)
            || (pods[n].name == name && Serves(pods[n], svc) && e == Endpoint(pods[n].podIP, PortsOf(pods[n], ports)))
  {
    var n := |pods| - 1;
    var rest := pods[..n];
    if i :| 0 <= i < |rest| && rest[i].name == name && Serves(rest[i], svc) && e == Endpoint(rest[i].podIP, PortsOf(rest[i], ports)) {
      assert pods[i] == rest[i];
    }
    if i :| 0 <= i < |pods| && pods[i].name == name && Serves(pods[i], svc) && e == Endpoint(pods[i].podIP, PortsOf(pods[i], ports)) {
      assert i < n ==> rest[i] == pods[i];
    }
  }

  lemma {:induction false} NamedAmong(pods: seq<Pod>, svc: Service, ports: seq<ServicePort>)
    ensures forall name :: name in NamedEndpoints(pods, svc, ports) ==> exists i :: 0 <= i < |pods| && pods[i].name == name
  {
    if pods != [] {
      var rest := pods[..|pods| - 1];
      NamedAmong(rest, svc, ports);
      forall name | name in NamedEndpoints(pods, svc, ports) ensures exists i :: 0 <= i < |pods| && pods[i].name == name {
        if name in NamedEndpoints(rest, svc, ports) {
          var i :| 0 <= i < |rest| && rest[i].name == name;
          assert pods[i].name == name;
        } else {
          assert pods[|pods| - 1].name == name;
        }
      }
    }
  }

  method FillNamedEndpoints(pods: seq<Pod>, svc: Service, ports: seq<ServicePort>) returns (byName: ByName)
    ensures byName == NamedEndpoints(pods, svc, ports)
  {
    byName := map[];
    for i := 0 to |pods|
      invariant byName == NamedEndpoints(pods[..i], svc, ports)
    {
      assert pods[..i + 1][..i] == pods[..i];
      var matched := IsSelectorMatched(pods[i], svc);
      if !matched || !pods[i].running || pods[i].podIP == "" {
        continue;
      }
      var exposed := PodPorts(pods[i], svc.(ports := ports));
      byName := byName[pods[i].name := Endpoint(pods[i].podIP, exposed)];
    }
    assert pods[..|pods|] == pods;
  }

  function EndpointMap(services: seq<Service>, pods: seq<Pod>): map<Uid, ServiceEndpoints> {
    if services == [] then map[]
    else
      var last := services[|services| - 1];
      EndpointMap(services[..|services| - 1], pods)[last.uid := ServiceEndpoints(last, NamedEndpoints(pods, last, last.ports))]
  }

  method GetEndpoints(pods: seq<Pod>, services: seq<Service>) returns (m: map<Uid, ServiceEndpoints>)
    ensures m == EndpointMap(services, pods)
  {
    m := map[];
    for i := 0 to |services|
      invariant m == EndpointMap(services[..i], pods)
    {
      assert services[..i + 1][..i] == services[..i];
      var byName := FillNamedEndpoints(pods, services[i], services[i].ports);
      m := m[services[i].uid := ServiceEndpoints(services[i], byName)];
    }
    assert services[..|services|] == services;
  }

  function FullName(svc: Service): string {
    (if svc.namespace == "" then "default" else svc.namespace) + "_" + svc.name
  }

  function FullMap(services: seq<Service>): map<string, Service> {
    if services == [] then map[]
    else FullMap(services[..|services| - 1])[FullName(services[|services| - 1]) := services[|services| - 1]]
  }

  method MakeFullMap(services: seq<Service>) returns (m: map<string, Service>)
    ensures m == FullMap(services)
  {
    m := map[];
    for i := 0 to |services|
      invariant m == FullMap(services[..i])
    {
      assert services[..i + 1][..i] == services[..i];
      m := m[FullName(services[i]) := services[i]];
    }
    assert services[..|services|] == services;
  }

  function FullPorts(services: seq<Service>): set<string> {
    set svc, p | svc in services && p in svc.ports :: GetFullPort(svc.uid, p.port)
  }

  method MakeMarkedMap(services: seq<Service>) returns (m: map<string, bool>)
    ensures m == map k | k in FullPorts(services) :: false
  {
    m := map[];
    for i := 0 to |services|
      invariant m.Keys == FullPorts(services[..i]) && forall k :: k in m ==> !m[k]
    {
      ghost var before := m.Keys;
      var svc := services[i];
      for j := 0 to |svc.ports|
        invariant m.Keys == before + (set p | p in svc.ports[..j] :: GetFullPort(svc.uid, p.port))
        invariant forall k :: k in m ==> !m[k]
      {
        assert svc.ports[..j + 1] == svc.ports[..j] + [svc.ports[j]];
        m := m[GetFullPort(svc.uid, svc.ports[j].port) := false];
      }
      assert svc.ports[..|svc.ports|] == svc.ports;
      FullPortsStep(services, i);
    }
    assert services[..|services|] == services;
  }

  lemma FullPortsStep(services: seq<Service>, i: nat)
    requires i < |services|
    ensures var svc := services[i];
            FullPorts(services[..i + 1]) == FullPorts(services[..i]) + set p | p in svc.ports :: GetFullPort(svc.uid, p.port)
  {
    assert services[..i + 1] == services[..i] + [services[i]];
  }

  // ---------------------------------------------------------------------------
  // Virtual services
  // ---------------------------------------------------------------------------

  datatype Trouble = Fine | Fail | Crash

  function SubsetKey(vs: VirtualService, s: VsSubset): string {
    vs.namespace + "/" + s.name
  }

  /** Whether the first subset has a URL decides how all of them are read. */
  predicate ByUrl(vs: VirtualService)
    requires vs.subsets != []
  {
    vs.subsets[0].url.Some?
  }

  /** The first trouble among the first n subsets: one that cannot be fetched, or one whose weight is nil. */
  function TroubleIn(vs: VirtualService, store: SubsetStore, n: nat): Trouble
    requires vs.subsets != [] && n <= |vs.subsets|
  {
    if n == 0 then Fine
    else
      var t := TroubleIn(vs, store, n - 1);
      if t != Fine then t
      else if SubsetKey(vs, vs.subsets[n - 1]) !in store then Fail
      else if !ByUrl(vs) && vs.subsets[n - 1].weight.None? then Crash
      else Fine
  }

  lemma {:induction false} FineMeans(vs: VirtualService, store: SubsetStore, n: nat, i: nat)
    requires vs.subsets != [] && i < n <= |vs.subsets| && TroubleIn(vs, store, n) == Fine
    ensures SubsetKey(vs, vs.subsets[i]) in store
    ensures !ByUrl(vs) ==> vs.subsets[i].weight.Some?
  {
    if i < n - 1 { FineMeans(vs, store, n - 1, i); }
  }

  function Listed(vs: VirtualService, store: SubsetStore, i: nat): seq<Name>
    requires i < |vs.subsets|
  {
    var key := SubsetKey(vs, vs.subsets[i]);
    if key in store then store[key] else []
  }

  function WeightsOf(vs: VirtualService, n: nat): (r: seq<int>)
    requires n <= |vs.subsets|
    ensures |r| == n
    ensures forall i :: 0 <= i < n ==> r[i] == if vs.subsets[i].weight.Some? then vs.subsets[i].weight.value else 0
  {
    seq(n, i requires 0 <= i < n => if vs.subsets[i].weight.Some? then vs.subsets[i].weight.value else 0)
  }

  function SizesOf(vs: VirtualService, store: SubsetStore, n: nat): (r: seq<int>)
    requires n <= |vs.subsets|
    ensures |r| == n && forall i :: 0 <= i < n ==> r[i] == Int32.Wrap(|Listed(vs, store, i)|)
  {
    seq(n, i requires 0 <= i < n => Int32.Wrap(|Listed(vs, store, i)|))
  }

  function RealWeights(weights: seq<int>, sizes: seq<int>): (r: seq<int>)
    ensures |r| == |weights| && forall i :: 0 <= i < |r| ==> r[i] == Int32.Wrap(RealWeight(weights, sizes, i))
  {
    seq(|weights|, i requires 0 <= i < |weights| => Int32.Wrap(RealWeight(weights, sizes, i)))
  }

  /** What the entries of one subset carry: its URL, or its computed weight. */
  datatype Tag = Tag(weight: Option<int>, url: Option<string>)

  function TagOf(vs: VirtualService, store: SubsetStore, i: nat): Tag
    requires i < |vs.subsets|
  {
    var n := |vs.subsets|;
    if ByUrl(vs) then Tag(None, vs.subsets[i].url)
    else Tag(Some(RealWeights(WeightsOf(vs, n), SizesOf(vs, store, n))[i]), None)
  }

  /** The endpoint ports with the wanted number; a pod that is not listed has none. */
  function Matching(ip: string, ports: seq<EndpointPort>, targetPort: int): seq<SingleEndpoint> {
    if ports == [] then []
    else
      var n := |ports| - 1;
      Matching(ip, ports[..n], targetPort) + if ports[n].port == targetPort then [SingleEndpoint(ip, ports[n].port)] else []
  }

  /** What a listed name has for the port: nothing while its pod is missing, not running or without an address. */
  function EndpointsFor(byName: ByName, name: Name, targetPort: int): seq<SingleEndpoint> {
    if name in byName then Matching(byName[name].ip, byName[name].ports, targetPort) else []
  }

  function PodEntry(byName: ByName, name: Name, targetPort: int, tag: Tag): SidecarEndpoints {
    SidecarEndpoints(tag.weight, tag.url, EndpointsFor(byName, name, targetPort))
  }

  function SubsetEntries(byName: ByName, names: seq<Name>, targetPort: int, tag: Tag): (r: seq<SidecarEndpoints>)
    ensures |r| == |names| && forall k :: 0 <= k < |r| ==> r[k] == PodEntry(byName, names[k], targetPort, tag)
  {
    seq(|names|, k requires 0 <= k < |names| => PodEntry(byName, names[k], targetPort, tag))
  }

  function VsEntries(byName: ByName, vs: VirtualService, store: SubsetStore, targetPort: int, n: nat): seq<SidecarEndpoints>
    requires n <= |vs.subsets|
  {
    if n == 0 then []
    else
      VsEntries(byName, vs, store, targetPort, n - 1) +
      SubsetEntries(byName, Listed(vs, store, n - 1), targetPort, TagOf(vs, store, n - 1))
  }

  /** The target port of the first service port with this number, or 0. */
  function TargetPort(ports: seq<ServicePort>, number: int): int {
    if ports == [] then 0 else if ports[0].port == number then ports[0].targetPort else TargetPort(ports[1..], number)
  }

  method FindTargetPort(ports: seq<ServicePort>, number: int) returns (targetPort: int)
    ensures targetPort == TargetPort(ports, number)
  {
    targetPort := 0;
    for i := 0 to |ports|
      invariant TargetPort(ports, number) == TargetPort(ports[i..], number)
    {
      if ports[i].port == number {
        return ports[i].targetPort;
      }
    }
    assert ports[|ports|..] == [];
  }

  method EntriesOfSubset(byName: ByName, names: seq<Name>, targetPort: int, tag: Tag) returns (entries: seq<SidecarEndpoints>)
    ensures entries == SubsetEntries(byName, names, targetPort, tag)
  {
    entries := [];
    for k := 0 to |names|
      invariant entries == SubsetEntries(byName, names[..k], targetPort, tag)
    {
      var endpoints := if names[k] in byName then byName[names[k]] else Endpoint("", []);
      var singleEndPoints: seq<SingleEndpoint> := [];
      for j := 0 to |endpoints.ports|
        invariant singleEndPoints == Matching(endpoints.ip, endpoints.ports[..j], targetPort)
      {
        assert endpoints.ports[..j + 1][..j] == endpoints.ports[..j];
        if endpoints.ports[j].port != targetPort {
          continue;
        }
        singleEndPoints := singleEndPoints + [SingleEndpoint(endpoints.ip, endpoints.ports[j].port)];
      }
      assert endpoints.ports[..|endpoints.ports|] == endpoints.ports;
      entries := entries + [SidecarEndpoints(tag.weight, tag.url, singleEndPoints)];
    }
    assert names[..|names|] == names;
  }

  /** Fetches the subsets and collects weights and sizes; stops at the first trouble. */
  method CollectWeights(vs: VirtualService, store: SubsetStore) returns (trouble: Trouble, weights: seq<int>, sizes: seq<int>)
    requires vs.subsets != [] && !ByUrl(vs)
    ensures trouble == TroubleIn(vs, store, |vs.subsets|)
    ensures trouble == Fine ==> weights == WeightsOf(vs, |vs.subsets|) && sizes == SizesOf(vs, store, |vs.subsets|)
  {
    weights, sizes := [], [];
    trouble := Fine;
    var i := 0;
    while i < |vs.subsets|
      invariant i <= |vs.subsets|
      invariant trouble == TroubleIn(vs, store, i) == Fine
      invariant weights == WeightsOf(vs, i) && sizes == SizesOf(vs, store, i)
    {
      var key := SubsetKey(vs, vs.subsets[i]);
      if key !in store {
        TroubleStays(vs, store, i + 1);
        return Fail, weights, sizes;
      }
      if vs.subsets[i].weight.None? {
        TroubleStays(vs, store, i + 1);
        return Crash, weights, sizes;
      }
      weights := weights + [vs.subsets[i].weight.value];
      sizes := sizes + [Int32.Wrap(|store[key]|)];
      i := i + 1;
    }
  }

  lemma {:induction false} TroubleStays(vs: VirtualService, store: SubsetStore, n: nat)
    requires vs.subsets != [] && n <= |vs.subsets| && TroubleIn(vs, store, n) != Fine
    ensures TroubleIn(vs, store, |vs.subsets|) == TroubleIn(vs, store, n)
    decreases |vs.subsets| - n
  {
    if n < |vs.subsets| { TroubleStays(vs, store, n + 1); }
  }

  method EntriesByUrl(byName: ByName, vs: VirtualService, store: SubsetStore, targetPort: int)
    returns (trouble: Trouble, entries: seq<SidecarEndpoints>)
    requires vs.subsets != [] && ByUrl(vs)
    ensures trouble == TroubleIn(vs, store, |vs.subsets|)
    ensures trouble == Fine ==> entries == VsEntries(byName, vs, store, targetPort, |vs.subsets|)
  {
    entries := [];
    trouble := Fine;
    var i := 0;
    while i < |vs.subsets|
      invariant i <= |vs.subsets|
      invariant trouble == TroubleIn(vs, store, i) == Fine
      invariant entries == VsEntries(byName, vs, store, targetPort, i)
    {
      var key := SubsetKey(vs, vs.subsets[i]);
      if key !in store {
        TroubleStays(vs, store, i + 1);
        return Fail, entries;
      }
      var more := EntriesOfSubset(byName, store[key], targetPort, Tag(None, vs.subsets[i].url));
      entries := entries + more;
      i := i + 1;
    }
  }

  method EntriesByWeight(byName: ByName, vs: VirtualService, store: SubsetStore, targetPort: int)
    returns (trouble: Trouble, entries: seq<SidecarEndpoints>)
    requires vs.subsets != [] && !ByUrl(vs)
    requires forall s :: s in vs.subsets && s.weight.Some? ==> Int32.Min <= s.weight.value <= Int32.Max
    ensures trouble == TroubleIn(vs, store, |vs.subsets|)
    ensures trouble == Fine ==> entries == VsEntries(byName, vs, store, targetPort, |vs.subsets|)
  {
    var weights, sizes;
    trouble, weights, sizes := CollectWeights(vs, store);
    if trouble != Fine {
      return trouble, [];
    }
    var realWeight := Calculate(weights, sizes);
    assert realWeight == RealWeights(weights, sizes);
    entries := [];
    for i := 0 to |vs.subsets|
      invariant entries == VsEntries(byName, vs, store, targetPort, i)
    {
      FineMeans(vs, store, |vs.subsets|, i);
      var more := EntriesOfSubset(byName, store[SubsetKey(vs, vs.subsets[i])], targetPort, Tag(Some(realWeight[i]), None));
      entries := entries + more;
    }
  }

  /** Pilot's view while it goes through the virtual services. */
  datatype Progress = Going(mapping: Mapping, marked: map<string, bool>) | Stopped(trouble: Trouble)

  function VsStep(p: Progress, services: seq<Service>, pods: seq<Pod>, vs: VirtualService, store: SubsetStore): Progress
    requires p.Going?
  {
    var name := vs.namespace + "_" + vs.serviceRef;
    var all, byUid := FullMap(services), EndpointMap(services, pods);
    if name !in all || all[name].uid !in byUid || vs.subsets == [] then Stopped(Crash)
    else
      var uid := all[name].uid;
      var trouble := TroubleIn(vs, store, |vs.subsets|);
      if trouble != Fine then Stopped(trouble)
      else
        var e := byUid[uid];
        Going(p.mapping[Address(e.service, vs.port) :=
                VsEntries(e.byName, vs, store, TargetPort(e.service.ports, vs.port), |vs.subsets|)],
              p.marked[GetFullPort(uid, vs.port) := true])
  }

  function AfterVirtual(services: seq<Service>, pods: seq<Pod>, vss: seq<VirtualService>, store: SubsetStore): Progress {
    if vss == [] then Going(map[], map k | k in FullPorts(services) :: false)
    else
      var n := |vss| - 1;
      var p := AfterVirtual(services, pods, vss[..n], store);
      if p.Stopped? then p else VsStep(p, services, pods, vss[n], store)
  }

  lemma {:induction false} StoppedStays(services: seq<Service>, pods: seq<Pod>, vss: seq<VirtualService>, store: SubsetStore, n: nat)
    requires n <= |vss| && AfterVirtual(services, pods, vss[..n], store).Stopped?
    ensures AfterVirtual(services, pods, vss, store) == AfterVirtual(services, pods, vss[..n], store)
    decreases |vss| - n
  {
    if n < |vss| {
      StoppedNext(services, pods, vss, store, n);
      StoppedStays(services, pods, vss, store, n + 1);
    } else {
      assert vss[..n] == vss;
    }
  }

  lemma OneMore(services: seq<Service>, pods: seq<Pod>, vss: seq<VirtualService>, store: SubsetStore, i: nat)
    requires i < |vss| && AfterVirtual(services, pods, vss[..i], store).Going?
    ensures AfterVirtual(services, pods, vss[..i + 1], store) ==
              VsStep(AfterVirtual(services, pods, vss[..i], store), services, pods, vss[i], store)
  {
    assert vss[..i + 1][..i] == vss[..i];
  }

  lemma StoppedNext(services: seq<Service>, pods: seq<Pod>, vss: seq<VirtualService>, store: SubsetStore, n: nat)
    requires n < |vss| && AfterVirtual(services, pods, vss[..n], store).Stopped?
    ensures AfterVirtual(services, pods, vss[..n + 1], store) == AfterVirtual(services, pods, vss[..n], store)
  {
    assert vss[..n + 1][..n] == vss[..n];
  }

  predicate Int32Weights(vss: seq<VirtualService>) {
    forall vs, s :: vs in vss && s in vs.subsets && s.weight.Some? ==> Int32.Min <= s.weight.value <= Int32.Max
  }

  /** The loop over the virtual services. */
  method MapVirtualServices(services: seq<Service>, pods: seq<Pod>, vss: seq<VirtualService>, store: SubsetStore) returns (p: Progress)
    requires Int32Weights(vss)
    ensures p == AfterVirtual(services, pods, vss, store)
  {
    var servicesMap := MakeFullMap(services);
    var endpointMap := GetEndpoints(pods, services);
    var markedMap := MakeMarkedMap(services);
    p := Going(map[], markedMap);
    var i := 0;
    while i < |vss|
      invariant i <= |vss|
      invariant p == AfterVirtual(services, pods, vss[..i], store) && p.Going?
    {
      OneMore(services, pods, vss, store, i);
      p := MapVirtualService(p, services, pods, servicesMap, endpointMap, vss[i], store);
      i := i + 1;
      if p.Stopped? {
        StoppedStays(services, pods, vss, store, i);
        return p;
      }
    }
    assert vss[..|vss|] == vss;
  }

  method MapVirtualService(p: Progress, ghost services: seq<Service>, ghost pods: seq<Pod>, servicesMap: map<string, Service>,
                           endpointMap: map<Uid, ServiceEndpoints>, vs: VirtualService, store: SubsetStore) returns (q: Progress)
    requires p.Going? && servicesMap == FullMap(services) && endpointMap == EndpointMap(services, pods)
    requires forall s :: s in vs.subsets && s.weight.Some? ==> Int32.Min <= s.weight.value <= Int32.Max
    ensures q == VsStep(p, services, pods, vs, store)
  {
    var serviceFullName := vs.namespace + "_" + vs.serviceRef;
    if serviceFullName !in servicesMap {
      return Stopped(Crash);
    }
    var serviceUID := servicesMap[serviceFullName].uid;
    if serviceUID !in endpointMap || vs.subsets == [] {
      return Stopped(Crash);
    }
    var item := endpointMap[serviceUID];
    var targetPort := FindTargetPort(item.service.ports, vs.port);
    var trouble, entries;
    if vs.subsets[0].url.Some? {
      trouble, entries := EntriesByUrl(item.byName, vs, store, targetPort);
    } else {
      trouble, entries := EntriesByWeight(item.byName, vs, store, targetPort);
    }
    if trouble != Fine {
      return Stopped(trouble);
    }
    return Going(p.mapping[Address(item.service, vs.port) := entries], p.marked[GetFullPort(serviceUID, vs.port) := true]);
  }

  // ---------------------------------------------------------------------------
  // Ports no virtual service claims
  // ---------------------------------------------------------------------------

  /** The ports still to be mapped, read back from their keys. */
  function Waiting(marked: map<string, bool>): set<PortId> {
    set k | k in marked && !marked[k] :: SplitFullPort(k)
  }

  /** The service port a number stands for: the last with it, or the zero value. */
  function PortNumbered(ports: seq<ServicePort>, number: int): ServicePort {
    if ports == [] then ServicePort(0, 0, 0, Other(""))
    else if ports[|ports| - 1].port == number then ports[|ports| - 1]
    else PortNumbered(ports[..|ports| - 1], number)
  }

  method FindPort(ports: seq<ServicePort>, number: int) returns (port: ServicePort)
    ensures port == PortNumbered(ports, number)
  {
    port := ServicePort(0, 0, 0, Other(""));
    for i := 0 to |ports|
      invariant port == PortNumbered(ports[..i], number)
    {
      assert ports[..i + 1][..i] == ports[..i];
      if number == ports[i].port {
        port := ports[i];
      }
    }
    assert ports[..|ports|] == ports;
  }

  function DefaultByName(pods: seq<Pod>, svc: Service, number: int): ByName {
    NamedEndpoints(pods, svc, [PortNumbered(svc.ports, number)])
  }

  function All(ip: string, ports: seq<EndpointPort>): (r: seq<SingleEndpoint>)
    ensures |r| == |ports| && forall i :: 0 <= i < |r| ==> r[i] == SingleEndpoint(ip, ports[i].port)
  {
    seq(|ports|, i requires 0 <= i < |ports| => SingleEndpoint(ip, ports[i].port))
  }

  function DefaultEntry(e: Endpoint): SidecarEndpoints {
    SidecarEndpoints(Some(1), None, All(e.ip, e.ports))
  }

  predicate DistinctStrings(names: seq<Name>) {
    forall i, j :: 0 <= i < j < |names| ==> names[i] != names[j]
  }

  /** `entries` holds one weight-1 entry for every named endpoint in `names` that has a port, in some order. */
  ghost predicate ListsNames(entries: seq<SidecarEndpoints>, byName: ByName, done: set<Name>, order: seq<Name>) {
    && |order| == |entries| && DistinctStrings(order)
    && (forall name :: name in order <==> name in done && name in byName && byName[name].ports != [])
    && forall i :: 0 <= i < |order| ==> order[i] in byName && entries[i] == DefaultEntry(byName[order[i]])
  }

  ghost predicate Lists(entries: seq<SidecarEndpoints>, byName: ByName) {
    exists order :: ListsNames(entries, byName, byName.Keys, order)
  }

  method DefaultEntries(byName: ByName) returns (entries: seq<SidecarEndpoints>)
    ensures Lists(entries, byName)
  {
    entries := [];
    ghost var order: seq<Name>, done: set<Name> := [], {};
    var rest := byName.Keys;
    while rest != {}
      invariant rest <= byName.Keys && done == byName.Keys - rest
      invariant ListsNames(entries, byName, done, order)
      decreases rest
    {
      var name :| name in rest;
      rest := rest - {name};
      done := done + {name};
      var endpoint := byName[name];
      var singleEndPoints := Singles(endpoint);
      if singleEndPoints == [] {
        continue;
      }
      entries := entries + [SidecarEndpoints(Some(1), None, singleEndPoints)];
      order := order + [name];
    }
    assert done == byName.Keys;
  }

  method Singles(endpoint: Endpoint) returns (r: seq<SingleEndpoint>)
    ensures r == All(endpoint.ip, endpoint.ports)
  {
    r := [];
    for j := 0 to |endpoint.ports|
      invariant r == All(endpoint.ip, endpoint.ports[..j])
    {
      r := r + [SingleEndpoint(endpoint.ip, endpoint.ports[j].port)];
    }
    assert endpoint.ports[..|endpoint.ports|] == endpoint.ports;
  }

  /** The ports grouped by service are exactly these. */
  ghost predicate Groups(waiting: map<Uid, seq<int>>, ids: set<PortId>) {
    && (forall uid, port :: uid in waiting && port in waiting[uid] <==> PortId(uid, port) in ids)
    && forall uid :: uid in waiting ==> waiting[uid] != []
  }

  lemma GroupsMore(waiting: map<Uid, seq<int>>, ids: set<PortId>, id: PortId)
    requires Groups(waiting, ids)
    ensures Groups(waiting[id.uid := (if id.uid in waiting then waiting[id.uid] else []) + [id.port]], ids + {id})
  {
  }

  /** The loop over the marked ports: the unclaimed ones, grouped by service. */
  method CollectWaiting(markedMap: map<string, bool>) returns (waiting: map<Uid, seq<int>>)
    ensures Groups(waiting, Waiting(markedMap))
  {
    waiting := map[];
    var rest := markedMap.Keys;
    ghost var seen: map<string, bool> := map[];
    while rest != {}
      invariant rest <= markedMap.Keys
      invariant seen == map k | k in markedMap && k !in rest :: markedMap[k]
      invariant Groups(waiting, Waiting(seen))
      decreases rest
    {
      var key :| key in rest;
      rest := rest - {key};
      WaitingStep(seen, key, markedMap[key]);
      if !markedMap[key] {
        var id := SplitFullPort(key);
        GroupsMore(waiting, Waiting(seen), id);
        waiting := waiting[id.uid := (if id.uid in waiting then waiting[id.uid] else []) + [id.port]];
      }
      seen := seen[key := markedMap[key]];
    }
    assert seen == markedMap;
  }

  lemma WaitingStep(seen: map<string, bool>, key: string, isDone: bool)
    requires key !in seen
    ensures Waiting(seen[key := isDone]) == Waiting(seen) + if isDone then {} else {SplitFullPort(key)}
  {
    var more := seen[key := isDone];
    forall id ensures id in Waiting(more) <==> id in Waiting(seen) || (!isDone && id == SplitFullPort(key)) {
      if k :| k in more && !more[k] && id == SplitFullPort(k) {
        assert k == key || (k in seen && !seen[k]);
      }
      if k :| k in seen && !seen[k] && id == SplitFullPort(k) {
        assert k in more && !more[k];
      }
      if !isDone && id == SplitFullPort(key) {
        assert key in more && !more[key];
      }
    }
  }

  function KeyOf(id: PortId): string {
    GetFullPort(id.uid, id.port)
  }

  function Keys(ids: set<PortId>): map<PortId, string> {
    map id | id in ids :: KeyOf(id)
  }

  /** What the iteration looks up for every waiting port of a known service. */
  function Items(byUid: map<Uid, ServiceEndpoints>, pods: seq<Pod>, ids: set<PortId>): map<PortId, ServiceEndpoints> {
    map id | id in ids && id.uid in byUid ::
      ServiceEndpoints(byUid[id.uid].service, DefaultByName(pods, byUid[id.uid].service, id.port))
  }

  function Addresses(byUid: map<Uid, ServiceEndpoints>, ids: set<PortId>): map<PortId, string> {
    map id | id in ids && id.uid in byUid :: Address(byUid[id.uid].service, id.port)
  }

  /** All waiting ports belong to known services; otherwise the iteration dereferences a missing entry. */
  predicate AllKnown(byUid: map<Uid, ServiceEndpoints>, ids: set<PortId>) {
    forall id :: id in ids ==> id.uid in byUid
  }

  /** No two of the ports have the same key. */
  predicate Injective(keys: map<PortId, string>) {
    forall a, b :: a in keys && b in keys && keys[a] == keys[b] ==> a == b
  }

  /** What the second map of the iteration holds for the ports handled so far. */
  predicate Holds(newMap: map<string, ServiceEndpoints>, keys: map<PortId, string>, items: map<PortId, ServiceEndpoints>, done: set<PortId>) {
    && (forall id :: id in done ==> id in keys && id in items && keys[id] in newMap && newMap[keys[id]] == items[id])
    && newMap.Keys == set id | id in done && id in keys :: keys[id]
  }

  lemma HoldsMore(newMap: map<string, ServiceEndpoints>, keys: map<PortId, string>, items: map<PortId, ServiceEndpoints>, done: set<PortId>, id: PortId)
    requires Holds(newMap, keys, items, done) && Injective(keys) && id in keys && id in items
    ensures Holds(newMap[keys[id] := items[id]], keys, items, done + {id})
  {
  }

  /** The loop that looks up the endpoints of every waiting port. */
  method PrepareDefaults(pods: seq<Pod>, endpointMap: map<Uid, ServiceEndpoints>, waiting: map<Uid, seq<int>>, ghost ids: set<PortId>)
    returns (known: bool, newMap: map<string, ServiceEndpoints>)
    requires forall uid :: uid in endpointMap ==> endpointMap[uid].service.uid == uid
    requires Groups(waiting, ids)
    requires Injective(Keys(ids))
    ensures known <==> AllKnown(endpointMap, ids)
    ensures known ==> Holds(newMap, Keys(ids), Items(endpointMap, pods, ids), ids)
  {
    newMap := map[];
    var rest := waiting.Keys;
    ghost var keys, items := Keys(ids), Items(endpointMap, pods, ids);
    ghost var done: set<PortId> := {};
    while rest != {}
      invariant rest <= waiting.Keys
      invariant forall id :: id in done <==> id in ids && id.uid !in rest
      invariant AllKnown(endpointMap, done) && Holds(newMap, keys, items, done)
      decreases rest
    {
      var uid :| uid in rest;
      if uid !in endpointMap {
        assert PortId(uid, waiting[uid][0]) in ids;
        return false, newMap;
      }
      AllWanted(pods, endpointMap[uid].service, waiting[uid], endpointMap, ids);
      newMap, done := PrepareService(pods, endpointMap[uid].service, waiting[uid], newMap, keys, items, done);
      rest := rest - {uid};
    }
    assert done == ids;
    known := true;
  }

  lemma PrefixMembers(ports: seq<int>, i: nat)
    requires i < |ports|
    ensures forall port :: port in ports[..i + 1] <==> port in ports[..i] || port == ports[i]
  {
    assert ports[..i + 1] == ports[..i] + [ports[i]];
  }

  /** The key and the item wanted for one port of a service. */
  predicate Wanted(keys: map<PortId, string>, items: map<PortId, ServiceEndpoints>, pods: seq<Pod>, service: Service, number: int) {
    var id := PortId(service.uid, number);
    && id in keys && keys[id] == KeyOf(id)
    && id in items && items[id] == ServiceEndpoints(service, DefaultByName(pods, service, number))
  }

  method PrepareService(pods: seq<Pod>, service: Service, ports: seq<int>, before: map<string, ServiceEndpoints>,
                        ghost keys: map<PortId, string>, ghost items: map<PortId, ServiceEndpoints>, ghost done0: set<PortId>)
    returns (newMap: map<string, ServiceEndpoints>, ghost done: set<PortId>)
    requires forall i :: 0 <= i < |ports| ==> Wanted(keys, items, pods, service, ports[i])
    requires Injective(keys) && Holds(before, keys, items, done0)
    ensures Holds(newMap, keys, items, done)
    ensures forall id :: id in done <==> id in done0 || (id.uid == service.uid && id.port in ports)
  {
    newMap, done := before, done0;
    for i := 0 to |ports|
      invariant Holds(newMap, keys, items, done)
      invariant forall id :: id in done <==> id in done0 || (id.uid == service.uid && id.port in ports[..i])
    {
      newMap := PrepareOne(pods, service, ports[i], newMap, keys, items, done);
      done := done + {PortId(service.uid, ports[i])};
      PrefixMembers(ports, i);
    }
    assert ports[..|ports|] == ports;
  }

  method PrepareOne(pods: seq<Pod>, service: Service, number: int, before: map<string, ServiceEndpoints>,
                    ghost keys: map<PortId, string>, ghost items: map<PortId, ServiceEndpoints>, ghost done: set<PortId>)
    returns (newMap: map<string, ServiceEndpoints>)
    requires Wanted(keys, items, pods, service, number)
    requires Injective(keys) && Holds(before, keys, items, done)
    ensures Holds(newMap, keys, items, done + {PortId(service.uid, number)})
  {
    var port := FindPort(service.ports, number);
    var byName := FillNamedEndpoints(pods, service, [port]);
    newMap := before[GetFullPort(service.uid, number) := ServiceEndpoints(service, byName)];
    HoldsMore(before, keys, items, done, PortId(service.uid, number));
  }

  lemma AllWanted(pods: seq<Pod>, service: Service, ports: seq<int>, byUid: map<Uid, ServiceEndpoints>, ids: set<PortId>)
    requires service.uid in byUid && byUid[service.uid].service == service
    requires forall port :: port in ports ==> PortId(service.uid, port) in ids
    ensures forall i :: 0 <= i < |ports| ==> Wanted(Keys(ids), Items(byUid, pods, ids), pods, service, ports[i])
  {
    forall i | 0 <= i < |ports| ensures Wanted(Keys(ids), Items(byUid, pods, ids), pods, service, ports[i]) {
      assert ports[i] in ports;
    }
  }

  ghost predicate DefaultAt(addrs: map<PortId, string>, items: map<PortId, ServiceEndpoints>, id: PortId, key: string, entries: seq<SidecarEndpoints>) {
    id in addrs && id in items && addrs[id] == key && Lists(entries, items[id].byName)
  }

  ghost predicate SomeDefaultAt(addrs: map<PortId, string>, items: map<PortId, ServiceEndpoints>, ids: set<PortId>, key: string, entries: seq<SidecarEndpoints>) {
    exists id :: id in ids && DefaultAt(addrs, items, id, key, entries)
  }

  /** The addresses of `ids` list default endpoints of one of their ports, every other key is as in vsMap. */
  ghost predicate Assembled(m: Mapping, vsMap: Mapping, addrs: map<PortId, string>, items: map<PortId, ServiceEndpoints>, ids: set<PortId>) {
    && (forall id :: id in ids ==> id in addrs && addrs[id] in m)
    && (forall key :: key in vsMap ==> key in m)
    && (forall key :: key in m ==>
          || SomeDefaultAt(addrs, items, ids, key, m[key])
          || (key in vsMap && m[key] == vsMap[key] && forall id :: id in ids ==> addrs[id] != key))
  }

  lemma AssembleMore(m: Mapping, vsMap: Mapping, addrs: map<PortId, string>, items: map<PortId, ServiceEndpoints>, ids: set<PortId>, id: PortId, entries: seq<SidecarEndpoints>)
    requires Assembled(m, vsMap, addrs, items, ids)
    requires id in addrs && DefaultAt(addrs, items, id, addrs[id], entries)
    ensures Assembled(m[addrs[id] := entries], vsMap, addrs, items, ids + {id})
  {
    var key0 := addrs[id];
    var m' := m[key0 := entries];
    forall key | key in m' && key != key0 && SomeDefaultAt(addrs, items, ids, key, m[key])
      ensures SomeDefaultAt(addrs, items, ids + {id}, key, m'[key])
    {
      var i :| i in ids && DefaultAt(addrs, items, i, key, m[key]);
      assert i in ids + {id};
    }
    assert id in ids + {id} && DefaultAt(addrs, items, id, key0, m'[key0]);
  }

  /** Every key's parts read back as the port it stands for. */
  predicate ReadsBack(keys: map<PortId, string>) {
    forall id :: id in keys ==> SplitFullPort(keys[id]) == id
  }

  /** The last loop: every waiting port is mapped to its default endpoints. */
  method MapDefaults(newMap: map<string, ServiceEndpoints>, vsMap: Mapping, ghost keys: map<PortId, string>, ghost addrs: map<PortId, string>,
                     ghost items: map<PortId, ServiceEndpoints>, ghost ids: set<PortId>) returns (m: Mapping)
    requires Holds(newMap, keys, items, ids) && ReadsBack(keys)
    requires forall id :: id in ids ==> id in addrs && id in items && addrs[id] == Address(items[id].service, id.port)
    ensures Assembled(m, vsMap, addrs, items, ids)
  {
    m := vsMap;
    var rest := newMap.Keys;
    ghost var done: set<PortId> := {};
    while rest != {}
      invariant rest <= newMap.Keys
      invariant forall id :: id in done <==> id in ids && keys[id] !in rest
      invariant Assembled(m, vsMap, addrs, items, done)
      decreases rest
    {
      var key :| key in rest;
      ghost var id :| id in ids && id in keys && keys[id] == key;
      assert SplitFullPort(key) == id;
      m := MapNext(m, key, newMap[key], vsMap, addrs, items, done, id);
      OneKey(keys, id);
      done := done + {id};
      rest := rest - {key};
    }
    assert done == ids;
  }

  method MapDefault(key: string, item: ServiceEndpoints) returns (stringIP: string, entries: seq<SidecarEndpoints>)
    ensures stringIP == Address(item.service, SplitFullPort(key).port)
    ensures Lists(entries, item.byName)
  {
    stringIP := Address(item.service, SplitFullPort(key).port);
    entries := DefaultEntries(item.byName);
  }

  method MapNext(before: Mapping, key: string, item: ServiceEndpoints, ghost vsMap: Mapping, ghost addrs: map<PortId, string>,
                 ghost items: map<PortId, ServiceEndpoints>, ghost done: set<PortId>, ghost id: PortId) returns (m: Mapping)
    requires Assembled(before, vsMap, addrs, items, done)
    requires id in addrs && id in items && items[id] == item && SplitFullPort(key) == id
    requires addrs[id] == Address(item.service, id.port)
    ensures Assembled(m, vsMap, addrs, items, done + {id})
  {
    var stringIP, entries := MapDefault(key, item);
    AssembleMore(before, vsMap, addrs, items, done, id, entries);
    m := before[stringIP := entries];
  }

  lemma OneKey(keys: map<PortId, string>, id: PortId)
    requires ReadsBack(keys) && id in keys
    ensures forall i :: i in keys && keys[i] == keys[id] ==> i == id
  {
  }

  datatype Result = Published(mapping: Mapping) | Failed | Panicked

  lemma WaitingReadsBack(marked: map<string, bool>)
    ensures ReadsBack(Keys(Waiting(marked))) && Injective(Keys(Waiting(marked)))
  {
    var keys := Keys(Waiting(marked));
    forall id | id in keys ensures SplitFullPort(keys[id]) == id {
      var k :| k in marked && !marked[k] && id == SplitFullPort(k);
      SplitIsStable(k);
    }
  }

  ghost predicate IterationResult(services: seq<Service>, pods: seq<Pod>, vss: seq<VirtualService>, store: SubsetStore, r: Result) {
    var p := AfterVirtual(services, pods, vss, store);
    var byUid := EndpointMap(services, pods);
    if p.Stopped? then r == if p.trouble == Crash then Panicked else Failed
    else
      var ids := Waiting(p.marked);
      if !AllKnown(byUid, ids) then r == Panicked
      else r.Published? && Assembled(r.mapping, p.mapping, Addresses(byUid, ids), Items(byUid, pods, ids), ids)
  }

  /** One iteration of pilot, for every input: virtual services first, defaults for what they leave. */
  method SyncLoopIteration(services: seq<Service>, pods: seq<Pod>, vss: seq<VirtualService>, store: SubsetStore) returns (r: Result)
    requires Int32Weights(vss)
    ensures IterationResult(services, pods, vss, store, r)
  {
    var p := MapVirtualServices(services, pods, vss, store);
    if p.Stopped? {
      return if p.trouble == Crash then Panicked else Failed;
    }
    var endpointMap := GetEndpoints(pods, services);
    EndpointMapKeyed(services, pods);
    r := MapTheRest(pods, endpointMap, p.mapping, p.marked);
  }

  /** The loops over the ports no virtual service claimed. */
  method MapTheRest(pods: seq<Pod>, endpointMap: map<Uid, ServiceEndpoints>, vsMap: Mapping, markedMap: map<string, bool>) returns (r: Result)
    requires forall uid :: uid in endpointMap ==> endpointMap[uid].service.uid == uid
    ensures var ids := Waiting(markedMap);
            if !AllKnown(endpointMap, ids) then r == Panicked
            else r.Published? && Assembled(r.mapping, vsMap, Addresses(endpointMap, ids), Items(endpointMap, pods, ids), ids)
  {
    ghost var ids := Waiting(markedMap);
    WaitingReadsBack(markedMap);
    var waiting := CollectWaiting(markedMap);
    var known, newMap := PrepareDefaults(pods, endpointMap, waiting, ids);
    if !known {
      return Panicked;
    }
    var m := MapDefaults(newMap, vsMap, Keys(ids), Addresses(endpointMap, ids), Items(endpointMap, pods, ids), ids);
    return Published(m);
  }

  lemma {:induction false} EndpointMapKeyed(services: seq<Service>, pods: seq<Pod>)
    ensures forall uid :: uid in EndpointMap(services, pods) ==> EndpointMap(services, pods)[uid].service.uid == uid
  {
    if services != [] {
      EndpointMapKeyed(services[..|services| - 1], pods);
    }
  }

  // ---------------------------------------------------------------------------
  // Completeness of the published mapping
  // ---------------------------------------------------------------------------

  /** Services as the API server keeps them: distinct UIDs without underscores, full names and addresses. */
  predicate SoundServices(services: seq<Service>) {
    && (forall svc :: svc in services ==> '_' !in svc.uid)
    && (forall i, j :: 0 <= i < j < |services| ==> ApartServices(services[i], services[j]))
  }

  predicate ApartServices(a: Service, b: Service) {
    a.uid != b.uid && FullName(a) != FullName(b) && a.clusterIP != b.clusterIP
  }

  /** The virtual service speaks for this port of this service. */
  predicate Claims(vs: VirtualService, svc: Service, port: int) {
    vs.namespace + "_" + vs.serviceRef == FullName(svc) && vs.port == port
  }

  /** The virtual service names an existing port, and all its subsets can be read. */
  predicate Readable(services: seq<Service>, vs: VirtualService, store: SubsetStore) {
    && vs.subsets != [] && TroubleIn(vs, store, |vs.subsets|) == Fine
    && exists svc :: svc in services && HasPort(svc, vs.port) && Claims(vs, svc, vs.port)
  }

  predicate HasPort(svc: Service, port: int) {
    exists p :: p in svc.ports && p.port == port
  }

  lemma {:induction false} FullMapIs(services: seq<Service>, svc: Service)
    requires SoundServices(services) && svc in services
    ensures FullName(svc) in FullMap(services) && FullMap(services)[FullName(svc)] == svc
  {
    var n := |services| - 1;
    var rest := services[..n];
    assert services == rest + [services[n]];
    if svc != services[n] {
      assert SoundServices(rest);
      FullMapIs(rest, svc);
      var i :| 0 <= i < n && services[i] == svc;
      assert ApartServices(services[i], services[n]);
    }
  }

  lemma {:induction false} EndpointMapIs(services: seq<Service>, pods: seq<Pod>, svc: Service)
    requires SoundServices(services) && svc in services
    ensures svc.uid in EndpointMap(services, pods)
    ensures EndpointMap(services, pods)[svc.uid] == ServiceEndpoints(svc, NamedEndpoints(pods, svc, svc.ports))
  {
    var n := |services| - 1;
    var rest := services[..n];
    assert services == rest + [services[n]];
    if svc != services[n] {
      assert SoundServices(rest);
      EndpointMapIs(rest, pods, svc);
      var i :| 0 <= i < n && services[i] == svc;
      assert ApartServices(services[i], services[n]);
    }
  }

  predicate Sound(services: seq<Service>, vss: seq<VirtualService>, store: SubsetStore) {
    SoundServices(services) && forall vs :: vs in vss ==> Readable(services, vs, store)
  }

  /** The last virtual service that claims the port, or -1. */
  function LastClaim(vss: seq<VirtualService>, svc: Service, port: int): (i: int)
    ensures -1 <= i < |vss|
  {
    if vss == [] then -1
    else if Claims(vss[|vss| - 1], svc, port) then |vss| - 1
    else LastClaim(vss[..|vss| - 1], svc, port)
  }

  function ClaimedEntries(pods: seq<Pod>, vs: VirtualService, store: SubsetStore, svc: Service): seq<SidecarEndpoints> {
    VsEntries(NamedEndpoints(pods, svc, svc.ports), vs, store, TargetPort(svc.ports, vs.port), |vs.subsets|)
  }

  ghost predicate IsPort(services: seq<Service>, svc: Service, port: int) {
    svc in services && HasPort(svc, port)
  }

  /** What the virtual services leave in the mapping and in the marks, for one port. */
  ghost predicate PortAfter(p: Progress, pods: seq<Pod>, vss: seq<VirtualService>, store: SubsetStore, svc: Service, port: int)
    requires p.Going?
  {
    var key, i := Address(svc, port), LastClaim(vss, svc, port);
    && (key in p.mapping <==> i >= 0)
    && (i >= 0 ==> p.mapping[key] == ClaimedEntries(pods, vss[i], store, svc))
    && GetFullPort(svc.uid, port) in p.marked
    && p.marked[GetFullPort(svc.uid, port)] == (i >= 0)
  }

  ghost predicate OnlyPorts(p: Progress, services: seq<Service>)
    requires p.Going?
  {
    && (forall key :: key in p.mapping ==> exists svc, port :: IsPort(services, svc, port) && key == Address(svc, port))
    && (forall k :: k in p.marked ==> exists svc, port :: IsPort(services, svc, port) && k == GetFullPort(svc.uid, port))
  }

  lemma Claimant(services: seq<Service>, vs: VirtualService, store: SubsetStore) returns (svc: Service)
    requires Readable(services, vs, store)
    ensures IsPort(services, svc, vs.port) && Claims(vs, svc, vs.port)
  {
    svc :| svc in services && HasPort(svc, vs.port) && Claims(vs, svc, vs.port);
  }

  lemma VsStepIs(p: Progress, services: seq<Service>, pods: seq<Pod>, vs: VirtualService, store: SubsetStore, svc: Service)
    requires p.Going? && SoundServices(services) && Readable(services, vs, store)
    requires svc in services && Claims(vs, svc, vs.port)
    ensures VsStep(p, services, pods, vs, store) ==
              Going(p.mapping[Address(svc, vs.port) := ClaimedEntries(pods, vs, store, svc)], p.marked[GetFullPort(svc.uid, vs.port) := true])
  {
    FullMapIs(services, svc);
    EndpointMapIs(services, pods, svc);
  }

  lemma SameService(services: seq<Service>, a: Service, b: Service)
    requires SoundServices(services) && a in services && b in services
    requires a.uid == b.uid || FullName(a) == FullName(b) || a.clusterIP == b.clusterIP
    ensures a == b
  {
    var i :| 0 <= i < |services| && services[i] == a;
    var j :| 0 <= j < |services| && services[j] == b;
    assert i < j ==> ApartServices(services[i], services[j]);
    assert j < i ==> ApartServices(services[j], services[i]);
  }

  lemma FullPortInjective(a: Uid, m: int, b: Uid, n: int)
    requires '_' !in a && '_' !in b && GetFullPort(a, m) == GetFullPort(b, n)
    ensures a == b && m == n
  {
    FullPortRoundTrip(a, m);
    FullPortRoundTrip(b, n);
  }

  lemma {:induction false} AfterVirtualGoes(services: seq<Service>, pods: seq<Pod>, vss: seq<VirtualService>, store: SubsetStore)
    requires Sound(services, vss, store)
    ensures var p := AfterVirtual(services, pods, vss, store);
            p.Going? && OnlyPorts(p, services)
  {
    if vss == [] {
      FullPortsArePorts(services);
    } else {
      AfterVirtualGoes(services, pods, vss[..|vss| - 1], store);
      GoesOn(AfterVirtual(services, pods, vss[..|vss| - 1], store), services, pods, vss[|vss| - 1], store);
    }
  }

  lemma GoesOn(p: Progress, services: seq<Service>, pods: seq<Pod>, vs: VirtualService, store: SubsetStore)
    requires p.Going? && OnlyPorts(p, services) && SoundServices(services) && Readable(services, vs, store)
    ensures var q := VsStep(p, services, pods, vs, store);
            q.Going? && OnlyPorts(q, services)
  {
    var svc := Claimant(services, vs, store);
    VsStepIs(p, services, pods, vs, store, svc);
    OnlyPortsMore(p, services, svc, vs.port, ClaimedEntries(pods, vs, store, svc));
  }

  lemma OnlyPortsMore(p: Progress, services: seq<Service>, svc: Service, port: int, entries: seq<SidecarEndpoints>)
    requires p.Going? && OnlyPorts(p, services) && IsPort(services, svc, port)
    ensures OnlyPorts(Going(p.mapping[Address(svc, port) := entries], p.marked[GetFullPort(svc.uid, port) := true]), services)
  {
  }

  lemma FullPortsArePorts(services: seq<Service>)
    ensures forall k :: k in FullPorts(services) ==> exists svc, port :: IsPort(services, svc, port) && k == GetFullPort(svc.uid, port)
  {
    forall k | k in FullPorts(services) ensures exists svc, port :: IsPort(services, svc, port) && k == GetFullPort(svc.uid, port) {
      var svc, p :| svc in services && p in svc.ports && k == GetFullPort(svc.uid, p.port);
      assert IsPort(services, svc, p.port);
    }
  }

  lemma {:induction false} PortsAfter(services: seq<Service>, pods: seq<Pod>, vss: seq<VirtualService>, store: SubsetStore, svc: Service, port: int)
    requires Sound(services, vss, store) && IsPort(services, svc, port)
    ensures AfterVirtual(services, pods, vss, store).Going?
    ensures PortAfter(AfterVirtual(services, pods, vss, store), pods, vss, store, svc, port)
  {
    AfterVirtualGoes(services, pods, vss, store);
    if vss == [] {
      var p :| p in svc.ports && p.port == port;
      assert GetFullPort(svc.uid, p.port) in FullPorts(services);
    } else {
      var n := |vss| - 1;
      PortsAfter(services, pods, vss[..n], store, svc, port);
      var owner := Claimant(services, vss[n], store);
      VsStepIs(AfterVirtual(services, pods, vss[..n], store), services, pods, vss[n], store, owner);
      PortAfterStep(AfterVirtual(services, pods, vss[..n], store), services, pods, vss, store, svc, port, owner);
    }
  }

  lemma PortAfterStep(p: Progress, services: seq<Service>, pods: seq<Pod>, vss: seq<VirtualService>, store: SubsetStore, svc: Service, port: int, owner: Service)
    requires vss != [] && p.Going? && SoundServices(services) && svc in services && owner in services
    requires Claims(vss[|vss| - 1], owner, vss[|vss| - 1].port)
    requires PortAfter(p, pods, vss[..|vss| - 1], store, svc, port)
    ensures var vs := vss[|vss| - 1];
            PortAfter(Going(p.mapping[Address(owner, vs.port) := ClaimedEntries(pods, vs, store, owner)],
                            p.marked[GetFullPort(owner.uid, vs.port) := true]), pods, vss, store, svc, port)
  {
    var vs := vss[|vss| - 1];
    if Claims(vs, svc, port) {
      SameService(services, svc, owner);
    } else {
      if Address(owner, vs.port) == Address(svc, port) {
        AddressInjective(owner, vs.port, svc, port);
        SameService(services, svc, owner);
      }
      if GetFullPort(owner.uid, vs.port) == GetFullPort(svc.uid, port) {
        FullPortInjective(owner.uid, vs.port, svc.uid, port);
        SameService(services, svc, owner);
      }
    }
  }

  /** The waiting ports are exactly the service ports nobody claims. */
  lemma WaitingAreUnclaimed(services: seq<Service>, pods: seq<Pod>, vss: seq<VirtualService>, store: SubsetStore, id: PortId)
    requires Sound(services, vss, store) && AfterVirtual(services, pods, vss, store).Going?
    ensures id in Waiting(AfterVirtual(services, pods, vss, store).marked) <==>
            exists svc :: IsPort(services, svc, id.port) && svc.uid == id.uid && LastClaim(vss, svc, id.port) < 0
  {
    var p := AfterVirtual(services, pods, vss, store);
    AfterVirtualGoes(services, pods, vss, store);
    if id in Waiting(p.marked) {
      var k :| k in p.marked && !p.marked[k] && id == SplitFullPort(k);
      var svc, port :| IsPort(services, svc, port) && k == GetFullPort(svc.uid, port);
      FullPortRoundTrip(svc.uid, port);
      PortsAfter(services, pods, vss, store, svc, port);
    }
    if svc :| IsPort(services, svc, id.port) && svc.uid == id.uid && LastClaim(vss, svc, id.port) < 0 {
      PortsAfter(services, pods, vss, store, svc, id.port);
      FullPortRoundTrip(svc.uid, id.port);
      var k := GetFullPort(svc.uid, id.port);
      assert k in p.marked && !p.marked[k] && id == SplitFullPort(k);
    }
  }

  /** A port's key holds its claimed entries, or its default endpoints when nobody claims it. */
  ghost predicate PortMapped(m: Mapping, pods: seq<Pod>, vss: seq<VirtualService>, store: SubsetStore, svc: Service, port: int) {
    var key, i := Address(svc, port), LastClaim(vss, svc, port);
    && key in m
    && if i >= 0 then m[key] == ClaimedEntries(pods, vss[i], store, svc) else Lists(m[key], DefaultByName(pods, svc, port))
  }

  /**
   * For sound inputs the iteration publishes; the mapping has exactly one key per service port, taken from the last
   * virtual service that claims the port, or else listing the port's default endpoints.
   */
  lemma CompleteMapping(services: seq<Service>, pods: seq<Pod>, vss: seq<VirtualService>, store: SubsetStore, r: Result)
    requires Sound(services, vss, store)
    requires IterationResult(services, pods, vss, store, r)
    ensures r.Published?
    ensures forall key :: key in r.mapping ==> exists svc, port :: IsPort(services, svc, port) && key == Address(svc, port)
    ensures forall svc, port :: IsPort(services, svc, port) ==> PortMapped(r.mapping, pods, vss, store, svc, port)
  {
    var p, byUid := AfterVirtual(services, pods, vss, store), EndpointMap(services, pods);
    AfterVirtualGoes(services, pods, vss, store);
    var ids := Waiting(p.marked);
    forall id | id in ids ensures WaitingPort(services, pods, vss, store, id) {
      KnownPort(services, pods, vss, store, id);
    }
    assert AllKnown(byUid, ids) by {
      assert forall id :: id in ids ==> WaitingPort(services, pods, vss, store, id);
    }
    var addrs, items := Addresses(byUid, ids), Items(byUid, pods, ids);
    forall key | key in r.mapping ensures exists svc, port :: IsPort(services, svc, port) && key == Address(svc, port) {
      if SomeDefaultAt(addrs, items, ids, key, r.mapping[key]) {
        var id :| id in ids && DefaultAt(addrs, items, id, key, r.mapping[key]);
        assert WaitingPort(services, pods, vss, store, id);
        assert IsPort(services, byUid[id.uid].service, id.port);
      }
    }
    forall svc, port | IsPort(services, svc, port) ensures PortMapped(r.mapping, pods, vss, store, svc, port) {
      MappedPort(services, pods, vss, store, r.mapping, svc, port);
    }
  }

  /** What a waiting port is, and what the iteration looks up for it. */
  ghost predicate WaitingPort(services: seq<Service>, pods: seq<Pod>, vss: seq<VirtualService>, store: SubsetStore, id: PortId) {
    var byUid := EndpointMap(services, pods);
    && id.uid in byUid
    && byUid[id.uid].service.uid == id.uid
    && IsPort(services, byUid[id.uid].service, id.port)
    && LastClaim(vss, byUid[id.uid].service, id.port) < 0
  }

  lemma KnownPort(services: seq<Service>, pods: seq<Pod>, vss: seq<VirtualService>, store: SubsetStore, id: PortId)
    requires Sound(services, vss, store) && AfterVirtual(services, pods, vss, store).Going?
    requires id in Waiting(AfterVirtual(services, pods, vss, store).marked)
    ensures WaitingPort(services, pods, vss, store, id)
  {
    WaitingAreUnclaimed(services, pods, vss, store, id);
    var svc :| IsPort(services, svc, id.port) && svc.uid == id.uid && LastClaim(vss, svc, id.port) < 0;
    EndpointMapIs(services, pods, svc);
  }

  lemma MappedPort(services: seq<Service>, pods: seq<Pod>, vss: seq<VirtualService>, store: SubsetStore, m: Mapping, svc: Service, port: int)
    requires Sound(services, vss, store) && AfterVirtual(services, pods, vss, store).Going?
    requires IsPort(services, svc, port)
    requires var p, byUid := AfterVirtual(services, pods, vss, store), EndpointMap(services, pods);
             var ids := Waiting(p.marked);
             Assembled(m, p.mapping, Addresses(byUid, ids), Items(byUid, pods, ids), ids)
    ensures PortMapped(m, pods, vss, store, svc, port)
  {
    var p, byUid := AfterVirtual(services, pods, vss, store), EndpointMap(services, pods);
    var ids := Waiting(p.marked);
    var addrs, items := Addresses(byUid, ids), Items(byUid, pods, ids);
    var key, id := Address(svc, port), PortId(svc.uid, port);
    PortsAfter(services, pods, vss, store, svc, port);
    EndpointMapIs(services, pods, svc);
    if LastClaim(vss, svc, port) < 0 {
      WaitingAreUnclaimed(services, pods, vss, store, id);
      assert id in ids && addrs[id] == key;
    }
    if SomeDefaultAt(addrs, items, ids, key, m[key]) {
      var other :| other in ids && DefaultAt(addrs, items, other, key, m[key]);
      KnownPort(services, pods, vss, store, other);
      AddressInjective(byUid[other.uid].service, other.port, svc, port);
      SameService(services, byUid[other.uid].service, svc);
    }
  }

  // ---------------------------------------------------------------------------
  // What default entries list
  // ---------------------------------------------------------------------------

  predicate Backs(pods: seq<Pod>, svc: Service, p: ServicePort, pod: Pod) {
    pod in pods && Serves(pod, svc) && Exposes(pod, Target(p))
  }

  function OneEndpoint(pod: Pod, p: ServicePort): SidecarEndpoints {
    SidecarEndpoints(Some(1), None, [SingleEndpoint(pod.podIP, p.targetPort)])
  }

  /** `entries` holds one weight-1 entry for every running selected pod that exposes the port, and nothing else. */
  ghost predicate ListsPods(entries: seq<SidecarEndpoints>, pods: seq<Pod>, svc: Service, p: ServicePort, order: seq<Pod>) {
    && |order| == |entries| && DistinctNames(order)
    && (forall pod :: pod in order <==> Backs(pods, svc, p, pod))
    && forall i :: 0 <= i < |order| ==> entries[i] == OneEndpoint(order[i], p)
  }

  lemma PodByName(pods: seq<Pod>, svc: Service, p: ServicePort, name: Name) returns (pod: Pod)
    requires DistinctNames(pods) && name in NamedEndpoints(pods, svc, [p])
    ensures pod in pods && pod.name == name && Serves(pod, svc)
    ensures NamedEndpoints(pods, svc, [p])[name] == Endpoint(pod.podIP, if Exposes(pod, Target(p)) then [Target(p)] else [])
  {
    var e := NamedEndpoints(pods, svc, [p])[name];
    NamedEndpointsAre(pods, svc, [p], name, e);
    var i :| 0 <= i < |pods| && pods[i].name == name && Serves(pods[i], svc) && e == Endpoint(pods[i].podIP, PortsOf(pods[i], [p]));
    pod := pods[i];
    OnePort(pod, p);
  }

  lemma OnePort(pod: Pod, p: ServicePort)
    ensures PortsOf(pod, [p]) == if Exposes(pod, Target(p)) then [Target(p)] else []
  {
    assert [p][..0] == [];
    assert PortsOf(pod, [p]) == PortsOf(pod, [p][..0]) + if Exposes(pod, Target(p)) then [Target(p)] else [];
  }

  /** The pod behind one default entry. */
  lemma PodOfEntry(pods: seq<Pod>, svc: Service, p: ServicePort, name: Name, entry: SidecarEndpoints) returns (pod: Pod)
    requires DistinctNames(pods) && name in NamedEndpoints(pods, svc, [p])
    requires NamedEndpoints(pods, svc, [p])[name].ports != []
    requires entry == DefaultEntry(NamedEndpoints(pods, svc, [p])[name])
    ensures pod.name == name && Backs(pods, svc, p, pod) && entry == OneEndpoint(pod, p)
  {
    pod := PodByName(pods, svc, p, name);
    assert All(pod.podIP, [Target(p)]) == [SingleEndpoint(pod.podIP, p.targetPort)];
  }

  /** A pod that backs the port is among the named endpoints. */
  lemma BackingPodNamed(pods: seq<Pod>, svc: Service, p: ServicePort, pod: Pod)
    requires DistinctNames(pods) && Backs(pods, svc, p, pod)
    ensures pod.name in NamedEndpoints(pods, svc, [p]) && NamedEndpoints(pods, svc, [p])[pod.name].ports != []
  {
    var e := Endpoint(pod.podIP, PortsOf(pod, [p]));
    OnePort(pod, p);
    NamedEndpointsAre(pods, svc, [p], pod.name, e);
    assert EndpointOf(pods, svc, [p], pod.name, e);
  }

  /** With distinct pod names, default endpoints are those of exactly the pods that back the port. */
  lemma DefaultsListPods(entries: seq<SidecarEndpoints>, pods: seq<Pod>, svc: Service, number: int) returns (order: seq<Pod>)
    requires DistinctNames(pods) && Lists(entries, DefaultByName(pods, svc, number))
    ensures ListsPods(entries, pods, svc, PortNumbered(svc.ports, number), order)
  {
    var p, byName := PortNumbered(svc.ports, number), DefaultByName(pods, svc, number);
    var names :| ListsNames(entries, byName, byName.Keys, names);
    order := PodsOfNames(entries, pods, svc, p, byName, names);
    forall pod | Backs(pods, svc, p, pod) ensures pod in order {
      BackingPodNamed(pods, svc, p, pod);
      var k :| 0 <= k < |names| && names[k] == pod.name;
      SameName(pods, order[k], pod);
    }
  }

  lemma PodsOfNames(entries: seq<SidecarEndpoints>, pods: seq<Pod>, svc: Service, p: ServicePort, byName: ByName, names: seq<Name>) returns (order: seq<Pod>)
    requires DistinctNames(pods) && byName == NamedEndpoints(pods, svc, [p])
    requires ListsNames(entries, byName, byName.Keys, names)
    ensures |order| == |names|
    ensures forall k :: 0 <= k < |order| ==> order[k].name == names[k] && Backs(pods, svc, p, order[k]) && entries[k] == OneEndpoint(order[k], p)
  {
    order := [];
    for i := 0 to |names|
      invariant |order| == i
      invariant forall k :: 0 <= k < i ==> order[k].name == names[k] && Backs(pods, svc, p, order[k]) && entries[k] == OneEndpoint(order[k], p)
    {
      assert names[i] in names;
      var pod := PodOfEntry(pods, svc, p, names[i], entries[i]);
      order := order + [pod];
    }
  }

  lemma SameName(pods: seq<Pod>, a: Pod, b: Pod)
    requires DistinctNames(pods) && a in pods && b in pods && a.name == b.name
    ensures a == b
  {
  }

  // ---------------------------------------------------------------------------
  // What claimed entries list
  // ---------------------------------------------------------------------------

  /** The number of pods the first n subsets list. */
  function Before(vs: VirtualService, store: SubsetStore, n: nat): nat
    requires n <= |vs.subsets|
  {
    if n == 0 then 0 else Before(vs, store, n - 1) + |Listed(vs, store, n - 1)|
  }

  lemma {:induction false} MatchingIs(ip: string, ports: seq<EndpointPort>, targetPort: int)
    ensures forall x :: x in Matching(ip, ports, targetPort) <==>
              x == SingleEndpoint(ip, targetPort) && exists e :: e in ports && e.port == targetPort
  {
    if ports != [] {
      var rest, last := ports[..|ports| - 1], ports[|ports| - 1];
      MatchingIs(ip, rest, targetPort);
      assert ports == rest + [last];
    }
  }

  /** Pod k of subset i has its own entry, with its subset's URL or weight, in the subsets' order. */
  lemma ClaimedEntryAt(byName: ByName, vs: VirtualService, store: SubsetStore, targetPort: int, i: nat, k: nat)
    requires vs.subsets != [] && i < |vs.subsets| && k < |Listed(vs, store, i)|
    ensures HasEntry(byName, vs, store, targetPort, |vs.subsets|, Before(vs, store, i) + k,
                     PodEntry(byName, Listed(vs, store, i)[k], targetPort, TagOf(vs, store, i)))
  {
    EntriesCount(byName, vs, store, targetPort, i);
    LastEntries(byName, vs, store, targetPort, i + 1, k);
    EntryStays(byName, vs, store, targetPort, i + 1, |vs.subsets|, Before(vs, store, i) + k,
               PodEntry(byName, Listed(vs, store, i)[k], targetPort, TagOf(vs, store, i)));
  }

  predicate HasEntry(byName: ByName, vs: VirtualService, store: SubsetStore, targetPort: int, n: nat, at: nat, entry: SidecarEndpoints)
    requires vs.subsets != [] && n <= |vs.subsets|
  {
    var entries := VsEntries(byName, vs, store, targetPort, n);
    at < |entries| && entries[at] == entry
  }

  lemma {:induction false} EntryStays(byName: ByName, vs: VirtualService, store: SubsetStore, targetPort: int, m: nat, n: nat, at: nat, entry: SidecarEndpoints)
    requires vs.subsets != [] && m <= n <= |vs.subsets| && HasEntry(byName, vs, store, targetPort, m, at, entry)
    ensures HasEntry(byName, vs, store, targetPort, n, at, entry)
    decreases n
  {
    if m < n {
      EntryStays(byName, vs, store, targetPort, m, n - 1, at, entry);
      EarlierEntry(byName, vs, store, targetPort, n, at);
    }
  }

  lemma EarlierEntry(byName: ByName, vs: VirtualService, store: SubsetStore, targetPort: int, n: nat, at: nat)
    requires vs.subsets != [] && 0 < n <= |vs.subsets| && at < |VsEntries(byName, vs, store, targetPort, n - 1)|
    ensures at < |VsEntries(byName, vs, store, targetPort, n)|
    ensures VsEntries(byName, vs, store, targetPort, n)[at] == VsEntries(byName, vs, store, targetPort, n - 1)[at]
  {
  }

  lemma EntryAt(a: seq<SidecarEndpoints>, b: seq<SidecarEndpoints>, k: nat)
    requires k < |b|
    ensures (a + b)[|a| + k] == b[k]
  {
  }

  lemma LastEntries(byName: ByName, vs: VirtualService, store: SubsetStore, targetPort: int, n: nat, k: nat)
    requires vs.subsets != [] && 0 < n <= |vs.subsets| && k < |Listed(vs, store, n - 1)|
    ensures var first := |VsEntries(byName, vs, store, targetPort, n - 1)|;
            && first + k < |VsEntries(byName, vs, store, targetPort, n)|
            && VsEntries(byName, vs, store, targetPort, n)[first + k] ==
                 PodEntry(byName, Listed(vs, store, n - 1)[k], targetPort, TagOf(vs, store, n - 1))
  {
    EntryAt(VsEntries(byName, vs, store, targetPort, n - 1),
            SubsetEntries(byName, Listed(vs, store, n - 1), targetPort, TagOf(vs, store, n - 1)), k);
  }

  lemma {:induction false} EntriesCount(byName: ByName, vs: VirtualService, store: SubsetStore, targetPort: int, n: nat)
    requires vs.subsets != [] && n <= |vs.subsets|
    ensures |VsEntries(byName, vs, store, targetPort, n)| == Before(vs, store, n)
  {
    if n > 0 { EntriesCount(byName, vs, store, targetPort, n - 1); }
  }

  // ---------------------------------------------------------------------------
  // Weighted entries are what the traffic share is proved about
  // ---------------------------------------------------------------------------

  function GroupOf(byName: ByName, names: seq<Name>, targetPort: int): (r: Group)
    ensures |r| == |names| && forall k :: 0 <= k < |r| ==> r[k] == EndpointsFor(byName, names[k], targetPort)
  {
    seq(|names|, k requires 0 <= k < |names| => EndpointsFor(byName, names[k], targetPort))
  }

  /** The subsets' listed pods with the endpoints they have. */
  function GroupsOf(byName: ByName, vs: VirtualService, store: SubsetStore, targetPort: int): (r: seq<Group>)
    ensures |r| == |vs.subsets|
    ensures forall i :: 0 <= i < |r| ==> r[i] == GroupOf(byName, Listed(vs, store, i), targetPort)
  {
    seq(|vs.subsets|, i requires 0 <= i < |vs.subsets| => GroupOf(byName, Listed(vs, store, i), targetPort))
  }

  /** The lists' lengths are int32 values, as the code converts them. */
  predicate ShortLists(vs: VirtualService, store: SubsetStore) {
    forall i :: 0 <= i < |vs.subsets| ==> |Listed(vs, store, i)| <= Int32.Max
  }

  function AllWeights(vs: VirtualService): seq<int> {
    WeightsOf(vs, |vs.subsets|)
  }

  function ComputedWeights(vs: VirtualService, store: SubsetStore): seq<int> {
    RealWeights(AllWeights(vs), SizesOf(vs, store, |vs.subsets|))
  }

  lemma EntriesArePublished(byName: ByName, vs: VirtualService, store: SubsetStore, targetPort: int)
    requires vs.subsets != [] && !ByUrl(vs)
    ensures VsEntries(byName, vs, store, targetPort, |vs.subsets|) ==
              Traffic.Published(ComputedWeights(vs, store), GroupsOf(byName, vs, store, targetPort), |vs.subsets|)
  {
    SubsetsPublished(byName, vs, store, targetPort, |vs.subsets|);
  }

  lemma {:induction false} SubsetsPublished(byName: ByName, vs: VirtualService, store: SubsetStore, targetPort: int, n: nat)
    requires vs.subsets != [] && !ByUrl(vs) && n <= |vs.subsets|
    ensures VsEntries(byName, vs, store, targetPort, n) ==
              Traffic.Published(ComputedWeights(vs, store), GroupsOf(byName, vs, store, targetPort), n)
  {
    if n > 0 {
      SubsetsPublished(byName, vs, store, targetPort, n - 1);
      SubsetPublished(byName, Listed(vs, store, n - 1), targetPort, TagOf(vs, store, n - 1));
    }
  }

  lemma SubsetPublished(byName: ByName, names: seq<Name>, targetPort: int, tag: Tag)
    requires tag.weight.Some? && tag.url.None?
    ensures SubsetEntries(byName, names, targetPort, tag) == PodEntries(tag.weight.value, GroupOf(byName, names, targetPort))
  {
    var a, b := SubsetEntries(byName, names, targetPort, tag), PodEntries(tag.weight.value, GroupOf(byName, names, targetPort));
    forall k | 0 <= k < |a| ensures a[k] == b[k] {}
  }

  lemma WeightsComputed(byName: ByName, vs: VirtualService, store: SubsetStore, targetPort: int)
    requires ShortLists(vs, store)
    ensures Computed(AllWeights(vs), GroupsOf(byName, vs, store, targetPort), ComputedWeights(vs, store))
  {
    assert SizesOf(vs, store, |vs.subsets|) == Sizes(GroupsOf(byName, vs, store, targetPort));
  }

  /**
    Whichever listed pods have endpoints, the published entries give each subset, of all draws, its weight times the
    other subsets' listed sizes for each endpoint it has, and each of its endpoints the same.
  */
  lemma ClaimedPortsShareTraffic(byName: ByName, vs: VirtualService, store: SubsetStore, targetPort: int, i: nat)
    requires vs.subsets != [] && !ByUrl(vs) && i < |vs.subsets| && ShortLists(vs, store) && NoneNegative(AllWeights(vs))
    requires TotalShare(AllWeights(vs), GroupsOf(byName, vs, store, targetPort), |vs.subsets|) <= Int32.Max
    ensures var groups, weights := GroupsOf(byName, vs, store, targetPort), AllWeights(vs);
            && VsEntries(byName, vs, store, targetPort, |vs.subsets|) ==
                 Traffic.Published(ComputedWeights(vs, store), groups, |vs.subsets|)
            && Receives(groups, ComputedWeights(vs, store), i, Share(weights, groups, i), RealWeight(weights, Sizes(groups), i))
  {
    EntriesArePublished(byName, vs, store, targetPort);
    WeightsComputed(byName, vs, store, targetPort);
    TrafficShare(AllWeights(vs), GroupsOf(byName, vs, store, targetPort), ComputedWeights(vs, store), i);
  }

  lemma {:induction false} SomeEndpointIff(pods: Group)
    ensures Count(pods) > 0 <==> exists k :: 0 <= k < |pods| && pods[k] != []
  {
    if pods != [] {
      var n := |pods| - 1;
      SomeEndpointIff(pods[..n]);
      assert pods[n] != [] ==> 0 <= n < |pods| && pods[n] != [];
      if k :| 0 <= k < n && pods[..n][k] != [] { assert pods[k] != []; }
      if k :| 0 <= k < |pods| && pods[k] != [] { assert k < n ==> pods[..n][k] != []; }
    }
  }

  /** A name of the list has an endpoint for the port. */
  ghost predicate SomeAnswers(byName: ByName, names: seq<Name>, targetPort: int) {
    exists k :: 0 <= k < |names| && EndpointsFor(byName, names[k], targetPort) != []
  }

  lemma AnswersIff(byName: ByName, names: seq<Name>, targetPort: int)
    ensures Count(GroupOf(byName, names, targetPort)) > 0 <==> SomeAnswers(byName, names, targetPort)
  {
    var pods := GroupOf(byName, names, targetPort);
    SomeEndpointIff(pods);
    if k :| 0 <= k < |pods| && pods[k] != [] { assert EndpointsFor(byName, names[k], targetPort) != []; }
    if k :| 0 <= k < |names| && EndpointsFor(byName, names[k], targetPort) != [] { assert pods[k] != []; }
  }

  /** Envoy has a draw to make if and only if some listed pod of a subset with a positive weight has an endpoint. */
  lemma ClaimedPortsDrawIff(byName: ByName, vs: VirtualService, store: SubsetStore, targetPort: int)
    requires vs.subsets != [] && !ByUrl(vs) && ShortLists(vs, store) && NoneNegative(AllWeights(vs))
    requires TotalShare(AllWeights(vs), GroupsOf(byName, vs, store, targetPort), |vs.subsets|) <= Int32.Max
    ensures AllWeighted(VsEntries(byName, vs, store, targetPort, |vs.subsets|))
    ensures Int32.Wrap(TotalWeight(VsEntries(byName, vs, store, targetPort, |vs.subsets|))) > 0 <==>
              exists i :: 0 <= i < |vs.subsets| && AllWeights(vs)[i] > 0 && SomeAnswers(byName, Listed(vs, store, i), targetPort)
  {
    var n, groups := |vs.subsets|, GroupsOf(byName, vs, store, targetPort);
    EntriesArePublished(byName, vs, store, targetPort);
    PublishedWeighted(ComputedWeights(vs, store), groups, n);
    WeightsComputed(byName, vs, store, targetPort);
    WeightsFit(AllWeights(vs), groups, ComputedWeights(vs, store));
    TotalShareBounds(AllWeights(vs), groups, 0, n);
    AnyDrawIff(AllWeights(vs), groups, n);
    forall i | 0 <= i < n ensures Count(groups[i]) > 0 <==> SomeAnswers(byName, Listed(vs, store, i), targetPort) {
      AnswersIff(byName, Listed(vs, store, i), targetPort);
    }
  }
}
