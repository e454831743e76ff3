/** The published mapping, told in services, virtual services, stored subsets and pods alone. */
module SidecarTable {
  import opened Wrappers
  import opened ProxyTypes
  import opened ProxyServer
  import opened Traffic
  import opened SidecarMapping
  import ProxyTable
  import Decimal

  // ---------------------------------------------------------------------------
  // What each key should hold
  // ---------------------------------------------------------------------------

  /** The virtual service names the service, which is in "default" if it gives no namespace, and the port. */
  predicate SpeaksFor(vs: VirtualService, svc: Service, port: int) {
    && vs.namespace + "_" + vs.serviceRef == (if svc.namespace == "" then "default" else svc.namespace) + "_" + svc.name
    && vs.port == port
  }

  predicate LastSpeaker(vss: seq<VirtualService>, svc: Service, port: int, i: nat) {
    i < |vss| && SpeaksFor(vss[i], svc, port) && forall j :: i < j < |vss| ==> !SpeaksFor(vss[j], svc, port)
  }

  predicate Unspoken(vss: seq<VirtualService>, svc: Service, port: int) {
    forall j :: 0 <= j < |vss| ==> !SpeaksFor(vss[j], svc, port)
  }

  /** The pod runs, has an address and has the labels the service selects. */
  predicate Serving(pods: seq<Pod>, svc: Service, pod: Pod) {
    pod in pods && ProxyTable.Answers(pod, svc, pod.podIP)
  }

  /** How many of the service's ports lead to this target port and are open on the pod. */
  function OpenPorts(ports: seq<ServicePort>, pod: Pod, targetPort: int): nat {
    if ports == [] then 0
    else
      var p := ports[|ports| - 1];
      OpenPorts(ports[..|ports| - 1], pod, targetPort) +
      if p.targetPort == targetPort && ProxyTable.Opens(pod, targetPort, p.protocol) then 1 else 0
  }

  /** The endpoints of a listed name: its pod's address and the target port, once for each port that is open; else none. */
  ghost predicate EndpointsOfName(pods: seq<Pod>, svc: Service, name: Name, targetPort: int, eps: seq<SingleEndpoint>) {
    && (forall pod :: Serving(pods, svc, pod) && pod.name == name ==>
          |eps| == OpenPorts(svc.ports, pod, targetPort) && forall e :: e in eps ==> e == SingleEndpoint(pod.podIP, targetPort))
    && ((forall pod :: Serving(pods, svc, pod) ==> pod.name != name) ==> eps == [])
  }

  /** The entry of one listed pod: by URL if the first subset has one, else by the computed weight. */
  ghost predicate ClaimedEntry(pods: seq<Pod>, svc: Service, vs: VirtualService, store: SubsetStore, targetPort: int,
                               i: nat, name: Name, entry: SidecarEndpoints)
    requires i < |vs.subsets|
  {
    && entry.url == (if vs.subsets[0].url.Some? then vs.subsets[i].url else None)
    && entry.weight == (if vs.subsets[0].url.Some? then None else Some(ComputedWeights(vs, store)[i]))
    && EndpointsOfName(pods, svc, name, targetPort, entry.endpoints)
  }

  /** The pods that the first n subsets list, by the names the store has for "namespace/subset". */
  function PodsBefore(vs: VirtualService, store: SubsetStore, n: nat): nat
    requires n <= |vs.subsets|
  {
    if n == 0 then 0
    else
      var key := vs.namespace + "/" + vs.subsets[n - 1].name;
      PodsBefore(vs, store, n - 1) + if key in store then |store[key]| else 0
  }

  /** One entry for each pod that a subset lists, in the subsets' order and in the lists' order. */
  ghost predicate ClaimedEntriesFor(pods: seq<Pod>, svc: Service, vs: VirtualService, store: SubsetStore, targetPort: int,
                                    entries: seq<SidecarEndpoints>)
  {
    && |entries| == PodsBefore(vs, store, |vs.subsets|)
    && forall i: nat, k: nat :: ListedAt(vs, store, i, k) ==> ClaimedAt(pods, svc, vs, store, targetPort, entries, i, k)
  }

  predicate ListedAt(vs: VirtualService, store: SubsetStore, i: nat, k: nat) {
    i < |vs.subsets| && vs.namespace + "/" + vs.subsets[i].name in store && k < |store[vs.namespace + "/" + vs.subsets[i].name]|
  }

  ghost predicate ClaimedAt(pods: seq<Pod>, svc: Service, vs: VirtualService, store: SubsetStore, targetPort: int,
                            entries: seq<SidecarEndpoints>, i: nat, k: nat)
    requires ListedAt(vs, store, i, k)
  {
    var at := PodsBefore(vs, store, i) + k;
    && at < |entries|
    && ClaimedEntry(pods, svc, vs, store, targetPort, i, store[vs.namespace + "/" + vs.subsets[i].name][k], entries[at])
  }

  /** One weight-1 entry for each serving pod that opens the target port, in some order. */
  ghost predicate DefaultEntriesFor(pods: seq<Pod>, svc: Service, p: ServicePort, entries: seq<SidecarEndpoints>, order: seq<Pod>) {
    && |order| == |entries|
    && (forall i, j :: 0 <= i < j < |order| ==> order[i] != order[j])
    && (forall pod :: pod in order <==> Serving(pods, svc, pod) && ProxyTable.Opens(pod, p.targetPort, p.protocol))
    && forall i :: 0 <= i < |order| ==>
         entries[i] == SidecarEndpoints(Some(1), None, [SingleEndpoint(order[i].podIP, p.targetPort)])
  }

  predicate FirstWith(ports: seq<ServicePort>, port: int, j: nat) {
    j < |ports| && ports[j].port == port && forall i :: 0 <= i < j ==> ports[i].port != port
  }

  predicate LastWith(ports: seq<ServicePort>, port: int, j: nat) {
    j < |ports| && ports[j].port == port && forall i :: j < i < |ports| ==> ports[i].port != port
  }

  /** What the key of a service port holds. */
  ghost predicate HoldsPort(m: Mapping, pods: seq<Pod>, vss: seq<VirtualService>, store: SubsetStore, svc: Service, port: int) {
    var key := svc.clusterIP + ":" + Decimal.Format(port);
    && key in m
    && (forall i: nat, j: nat :: LastSpeaker(vss, svc, port, i) && FirstWith(svc.ports, port, j) ==>
          ClaimedEntriesFor(pods, svc, vss[i], store, svc.ports[j].targetPort, m[key]))
    && (forall j: nat :: Unspoken(vss, svc, port) && LastWith(svc.ports, port, j) ==>
          exists order :: DefaultEntriesFor(pods, svc, svc.ports[j], m[key], order))
  }

  ghost predicate PortKey(services: seq<Service>, key: string) {
    exists svc, p :: svc in services && p in svc.ports && key == svc.clusterIP + ":" + Decimal.Format(p.port)
  }

  // ---------------------------------------------------------------------------
  // Serving pods and their endpoints
  // ---------------------------------------------------------------------------

  lemma ServingIff(pods: seq<Pod>, svc: Service, pod: Pod)
    ensures Serving(pods, svc, pod) <==> pod in pods && Serves(pod, svc)
  {
  }

  lemma MatchingSame(ip: string, ports: seq<EndpointPort>, targetPort: int)
    ensures forall e :: e in Matching(ip, ports, targetPort) ==> e == SingleEndpoint(ip, targetPort)
  {
    MatchingIs(ip, ports, targetPort);
  }

  lemma MatchingAppend(ip: string, ports: seq<EndpointPort>, e: EndpointPort, targetPort: int)
    ensures |Matching(ip, ports + [e], targetPort)| == |Matching(ip, ports, targetPort)| + if e.port == targetPort then 1 else 0
  {
    assert (ports + [e])[..|ports|] == ports;
  }

  lemma {:induction false} MatchingCount(pod: Pod, ports: seq<ServicePort>, targetPort: int)
    ensures |Matching(pod.podIP, PortsOf(pod, ports), targetPort)| == OpenPorts(ports, pod, targetPort)
  {
    if ports != [] {
      var rest, p := ports[..|ports| - 1], ports[|ports| - 1];
      MatchingCount(pod, rest, targetPort);
      if Exposes(pod, Target(p)) {
        MatchingAppend(pod.podIP, PortsOf(pod, rest), Target(p), targetPort);
        OneOpen(pod, p);
      } else {
        assert PortsOf(pod, rest) + [] == PortsOf(pod, rest);
        OneOpen(pod, p);
      }
    }
  }

  lemma OneOpen(pod: Pod, p: ServicePort)
    ensures Exposes(pod, Target(p)) <==> ProxyTable.Opens(pod, p.targetPort, p.protocol)
    ensures Target(p).port == p.targetPort
  {
  }

  lemma NameHasEndpoints(pods: seq<Pod>, svc: Service, name: Name, targetPort: int)
    requires DistinctNames(pods)
    ensures EndpointsOfName(pods, svc, name, targetPort, EndpointsFor(NamedEndpoints(pods, svc, svc.ports), name, targetPort))
  {
    var byName := NamedEndpoints(pods, svc, svc.ports);
    forall pod | Serving(pods, svc, pod) && pod.name == name
      ensures |EndpointsFor(byName, name, targetPort)| == OpenPorts(svc.ports, pod, targetPort)
      ensures forall e :: e in EndpointsFor(byName, name, targetPort) ==> e == SingleEndpoint(pod.podIP, targetPort)
    {
      ServingNamed(pods, svc, pod);
      MatchingCount(pod, svc.ports, targetPort);
      MatchingSame(pod.podIP, PortsOf(pod, svc.ports), targetPort);
    }
    if name in byName {
      NamedServes(pods, svc, name);
    }
  }

  lemma ServingNamed(pods: seq<Pod>, svc: Service, pod: Pod)
    requires DistinctNames(pods) && Serving(pods, svc, pod)
    ensures pod.name in NamedEndpoints(pods, svc, svc.ports)
    ensures NamedEndpoints(pods, svc, svc.ports)[pod.name] == Endpoint(pod.podIP, PortsOf(pod, svc.ports))
  {
    var e := Endpoint(pod.podIP, PortsOf(pod, svc.ports));
    NamedEndpointsAre(pods, svc, svc.ports, pod.name, e);
    assert EndpointOf(pods, svc, svc.ports, pod.name, e);
  }

  lemma NamedServes(pods: seq<Pod>, svc: Service, name: Name)
    requires DistinctNames(pods) && name in NamedEndpoints(pods, svc, svc.ports)
    ensures exists pod :: Serving(pods, svc, pod) && pod.name == name
  {
    var e := NamedEndpoints(pods, svc, svc.ports)[name];
    NamedEndpointsAre(pods, svc, svc.ports, name, e);
    var i :| 0 <= i < |pods| && pods[i].name == name && Serves(pods[i], svc) && e == Endpoint(pods[i].podIP, PortsOf(pods[i], svc.ports));
    assert Serving(pods, svc, pods[i]);
  }

  // ---------------------------------------------------------------------------
  // Claimed ports
  // ---------------------------------------------------------------------------

  lemma {:induction false} SameBefore(vs: VirtualService, store: SubsetStore, n: nat)
    requires n <= |vs.subsets|
    ensures PodsBefore(vs, store, n) == Before(vs, store, n)
  {
    if n > 0 {
      SameBefore(vs, store, n - 1);
    }
  }

  lemma ClaimedAre(pods: seq<Pod>, svc: Service, vs: VirtualService, store: SubsetStore)
    requires DistinctNames(pods) && vs.subsets != []
    ensures ClaimedEntriesFor(pods, svc, vs, store, TargetPort(svc.ports, vs.port), ClaimedEntries(pods, vs, store, svc))
  {
    var byName, t := NamedEndpoints(pods, svc, svc.ports), TargetPort(svc.ports, vs.port);
    SameBefore(vs, store, |vs.subsets|);
    EntriesCount(byName, vs, store, t, |vs.subsets|);
    forall i: nat, k: nat | ListedAt(vs, store, i, k)
      ensures ClaimedAt(pods, svc, vs, store, t, ClaimedEntries(pods, vs, store, svc), i, k)
    {
      SameBefore(vs, store, i);
      ClaimedEntryAt(byName, vs, store, t, i, k);
      NameHasEndpoints(pods, svc, Listed(vs, store, i)[k], t);
      TagIs(vs, store, i);
    }
  }

  lemma TagIs(vs: VirtualService, store: SubsetStore, i: nat)
    requires i < |vs.subsets|
    ensures TagOf(vs, store, i) ==
              if vs.subsets[0].url.Some? then Tag(None, vs.subsets[i].url) else Tag(Some(ComputedWeights(vs, store)[i]), None)
  {
  }

  lemma {:induction false} FirstTarget(ports: seq<ServicePort>, port: int, j: nat)
    requires FirstWith(ports, port, j)
    ensures TargetPort(ports, port) == ports[j].targetPort
    decreases j
  {
    if j > 0 {
      assert ports[0].port != port;
      FirstTarget(ports[1..], port, j - 1);
    }
  }

  lemma {:induction false} LastNumbered(ports: seq<ServicePort>, port: int, j: nat)
    requires LastWith(ports, port, j)
    ensures PortNumbered(ports, port) == ports[j]
  {
    var n := |ports| - 1;
    if j < n {
      assert ports[n].port != port;
      LastNumbered(ports[..n], port, j);
    }
  }

  lemma SpeaksIsClaims(vs: VirtualService, svc: Service, port: int)
    ensures SpeaksFor(vs, svc, port) <==> Claims(vs, svc, port)
  {
  }

  lemma {:induction false} LastSpeakerIs(vss: seq<VirtualService>, svc: Service, port: int)
    ensures forall i: nat :: LastSpeaker(vss, svc, port, i) ==> LastClaim(vss, svc, port) == i
    ensures Unspoken(vss, svc, port) ==> LastClaim(vss, svc, port) == -1
  {
    if vss != [] {
      var n := |vss| - 1;
      var rest := vss[..n];
      LastSpeakerIs(rest, svc, port);
      SpeaksIsClaims(vss[n], svc, port);
      forall i: nat | LastSpeaker(vss, svc, port, i) ensures LastClaim(vss, svc, port) == i {
        if i < n {
          assert !SpeaksFor(vss[n], svc, port);
          assert LastSpeaker(rest, svc, port, i);
        }
      }
      if Unspoken(vss, svc, port) {
        assert Unspoken(rest, svc, port);
      }
    }
  }

  // ---------------------------------------------------------------------------
  // Ports nobody claims
  // ---------------------------------------------------------------------------

  lemma DefaultsAre(pods: seq<Pod>, svc: Service, port: int, j: nat, entries: seq<SidecarEndpoints>) returns (order: seq<Pod>)
    requires DistinctNames(pods) && SidecarMapping.Lists(entries, DefaultByName(pods, svc, port)) && LastWith(svc.ports, port, j)
    ensures DefaultEntriesFor(pods, svc, svc.ports[j], entries, order)
  {
    LastNumbered(svc.ports, port, j);
    order := DefaultsListPods(entries, pods, svc, port);
    var p := svc.ports[j];
    forall pod ensures Backs(pods, svc, p, pod) <==> Serving(pods, svc, pod) && ProxyTable.Opens(pod, p.targetPort, p.protocol) {
      ServingIff(pods, svc, pod);
      OneOpen(pod, p);
    }
  }

  // ---------------------------------------------------------------------------
  // The whole mapping
  // ---------------------------------------------------------------------------

  lemma PortHolds(m: Mapping, pods: seq<Pod>, vss: seq<VirtualService>, store: SubsetStore, svc: Service, port: int)
    requires DistinctNames(pods) && PortMapped(m, pods, vss, store, svc, port)
    requires forall vs :: vs in vss ==> vs.subsets != []
    ensures HoldsPort(m, pods, vss, store, svc, port)
  {
    var key := svc.clusterIP + ":" + Decimal.Format(port);
    assert key == Address(svc, port);
    LastSpeakerIs(vss, svc, port);
    forall i: nat, j: nat | LastSpeaker(vss, svc, port, i) && FirstWith(svc.ports, port, j)
      ensures ClaimedEntriesFor(pods, svc, vss[i], store, svc.ports[j].targetPort, m[key])
    {
      FirstTarget(svc.ports, port, j);
      ClaimedAre(pods, svc, vss[i], store);
    }
    forall j: nat | Unspoken(vss, svc, port) && LastWith(svc.ports, port, j)
      ensures exists order :: DefaultEntriesFor(pods, svc, svc.ports[j], m[key], order)
    {
      var order := DefaultsAre(pods, svc, port, j, m[key]);
    }
  }

  /**
    For sound inputs and pods with distinct names the published mapping has exactly one key, "address:port", per
    service port. Under a key that a virtual service claims are the pods its subsets list; under any other, one
    weight-1 entry for each running selected pod that opens the target port.
  */
  lemma MappingServesPods(services: seq<Service>, pods: seq<Pod>, vss: seq<VirtualService>, store: SubsetStore, r: Result)
    requires Sound(services, vss, store) && DistinctNames(pods) && IterationResult(services, pods, vss, store, r)
    ensures r.Published?
    ensures forall key :: key in r.mapping <==> PortKey(services, key)
    ensures forall svc, p :: svc in services && p in svc.ports ==> HoldsPort(r.mapping, pods, vss, store, svc, p.port)
  {
    CompleteMapping(services, pods, vss, store, r);
    forall svc, p | svc in services && p in svc.ports ensures HoldsPort(r.mapping, pods, vss, store, svc, p.port) {
      assert IsPort(services, svc, p.port);
      forall vs | vs in vss ensures vs.subsets != [] {
        assert Readable(services, vs, store);
      }
      PortHolds(r.mapping, pods, vss, store, svc, p.port);
    }
    forall key ensures key in r.mapping <==> PortKey(services, key) {
      if key in r.mapping {
        var svc, port :| IsPort(services, svc, port) && key == Address(svc, port);
        var p :| p in svc.ports && p.port == port;
        assert svc in services && p in svc.ports && key == svc.clusterIP + ":" + Decimal.Format(p.port);
      }
      if PortKey(services, key) {
        var svc, p :| svc in services && p in svc.ports && key == svc.clusterIP + ":" + Decimal.Format(p.port);
        assert HoldsPort(r.mapping, pods, vss, store, svc, p.port);
      }
    }
  }
}
