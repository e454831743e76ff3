/** What the service registry stores and answers, told in the requests' own fields, and over runs. */
module ServiceRuns {
  import opened Wrappers
  import opened BitmapAllocator
  import opened ServiceRegistry
  import Decimal

  // ---------------------------------------------------------------------------
  // One request
  // ---------------------------------------------------------------------------

  /** A port as it was asked for, but for a default protocol. */
  predicate PortAsRequested(given: ServicePort, kept: ServicePort) {
    && kept.port == given.port && kept.targetPort == given.targetPort && kept.nodePort == given.nodePort
    && kept.protocol == if given.protocol == "" then "tcp" else given.protocol
  }

  /** The ports in their order; the type, if none was given, ClusterIP; namespace and UID as the server chose them. */
  predicate AsRequested(given: Service, namespace: string, uid: Uid, kept: Service) {
    && kept.kind == given.kind && kept.name == given.name && kept.namespace == namespace && kept.uid == uid
    && kept.ty == (if given.ty == "" then "ClusterIP" else given.ty)
    && |kept.ports| == |given.ports|
    && forall i :: 0 <= i < |given.ports| ==> PortAsRequested(given.ports[i], kept.ports[i])
  }

  lemma AdmittedAsRequested(s: Registry, namespace: string, given: Service, uid: Uid, io: Io, ip: string)
    requires Admission(s, namespace, given, io).Done?
    ensures AsRequested(given, namespace, uid,
              Admission(s, namespace, given, io).service.(namespace := namespace, uid := uid, clusterIP := ip))
  {
    var r := WithDefaults(given).ports;
    forall i | 0 <= i < |given.ports| ensures PortAsRequested(given.ports[i], r[i]) {
      assert r[i] == WithProtocol(given.ports[i]);
    }
  }

  /** The table of services after an add: as before, or with the requested one under its UID. */
  ghost predicate AddsRequested(s: Registry, namespace: string, given: Service, uid: Uid, s': Registry) {
    || s'.services == s.services
    || exists kept :: s'.services == s.services[uid := kept] && AsRequested(given, namespace, uid, kept)
  }

  /** The address and the name that a stored service got: the first free address, and its own name. */
  ghost predicate Placed(s: Registry, namespace: string, given: Service, uid: Uid, io: Io, s': Registry, kept: Service) {
    var bits := if io.bitmapRead && s.bitmap.Some? then Bits(s.bitmap.value) else {};
    exists k: nat :: TakesFirst(bits, k, s', kept)
      && s'.names == s.names[Key(namespace, given.name) := uid]
  }

  ghost predicate TakesFirst(bits: set<nat>, k: nat, s': Registry, kept: Service) {
    && k !in bits && (forall j: nat :: j < k ==> j in bits)
    && s'.bitmap.Some? && Bits(s'.bitmap.value) == bits + {k}
    && kept.clusterIP == "100.0.0." + Decimal.Render(k)
  }

  lemma AllocStepStores(s: Registry, svc: Service, bitmap: seq<bv8>, writes: nat, s': Registry, answer: Answer)
    requires AllocStep(s, svc, bitmap, writes, s', answer)
    ensures s'.services == s.services || exists ip :: s'.services == s.services[svc.uid := svc.(clusterIP := ip)]
    ensures answer.Done? ==>
              && answer.service == svc.(clusterIP := answer.service.clusterIP)
              && s'.services == s.services[svc.uid := answer.service]
              && s'.names == s.names[Key(svc.namespace, svc.name) := svc.uid]
              && exists k: nat :: TakesFirst(Bits(bitmap), k, s', answer.service)
  {
    if |bitmap| == IP_POOL_SIZE / 8 && !Full(bitmap) {
      var k :| LeastFree(bitmap, k) && StoreStep(s, svc, k, bitmap, writes, s', answer);
      BitsWithBit(bitmap, k);
      assert writes >= 2 ==> s'.services == s.services[svc.uid := svc.(clusterIP := Address(k))];
      if writes >= 3 {
        assert TakesFirst(Bits(bitmap), k, s', answer.service);
      }
    }
  }

  /** Where the address search starts: on the stored bitmap, or on an empty one in its place. */
  lemma AddStepAllocates(s: Registry, namespace: string, given: Service, uid: Uid, io: Io, s': Registry, answer: Answer)
    returns (s1: Registry, bitmap: seq<bv8>, writes: nat)
    requires AddStep(s, namespace, given, uid, io, s', answer) && (answer.Done? || s'.services != s.services)
    ensures Admission(s, namespace, given, io).Done?
    ensures AllocStep(s1, Admission(s, namespace, given, io).service.(namespace := namespace, uid := uid), bitmap, writes, s', answer)
    ensures s1.services == s.services && s1.names == s.names
    ensures Bits(bitmap) == if io.bitmapRead && s.bitmap.Some? then Bits(s.bitmap.value) else {}
  {
    if !Resets(s, io) {
      s1, bitmap, writes := s, s.bitmap.value, io.writes;
    } else {
      s1, bitmap, writes := s.(bitmap := Some(NoBits())), NoBits(), io.writes - 1;
    }
  }

  /**
    An add that is answered Done has stored, under its UID, the service it was asked to store, field by field, at the
    first free address and under its name, has changed no other service, and answers that service.
  */
  lemma DoneStoresRequest(s: Registry, namespace: string, given: Service, uid: Uid, io: Io, s': Registry, answer: Answer)
    requires AddStep(s, namespace, given, uid, io, s', answer) && answer.Done?
    ensures AsRequested(given, namespace, uid, answer.service)
    ensures s'.services == s.services[uid := answer.service]
    ensures Placed(s, namespace, given, uid, io, s', answer.service)
  {
    var s1, bitmap, writes := AddStepAllocates(s, namespace, given, uid, io, s', answer);
    var svc := Admission(s, namespace, given, io).service.(namespace := namespace, uid := uid);
    AllocStepStores(s1, svc, bitmap, writes, s', answer);
    AdmittedAsRequested(s, namespace, given, uid, io, answer.service.clusterIP);
    var k: nat :| TakesFirst(Bits(bitmap), k, s', answer.service);
  }

  /** The name, kind and namespace a request must have. */
  predicate Addressed(namespace: string, given: Service) {
    && given.name != "" && given.kind == "Service" && namespace != ""
    && (given.namespace == namespace || (given.namespace == "" && namespace == "default"))
  }

  predicate PortsInRange(given: Service) {
    && (given.ty == "" || given.ty == "ClusterIP" || given.ty == "NodePort")
    && (forall p :: p in given.ports ==> 1 <= p.port <= 65535 && 1 <= p.targetPort <= 65535)
    && (given.ty == "NodePort" ==>
          && (forall p :: p in given.ports ==> 30000 <= p.nodePort <= 32767)
          && (forall i, j :: 0 <= i < j < |given.ports| ==> given.ports[i].nodePort != given.ports[j].nodePort))
  }

  /** A stored NodePort service has a node port that the request asks for. */
  ghost predicate NodePortClaimed(given: Service, services: map<Uid, Service>) {
    exists uid :: uid in services && ClaimsPortOf(services[uid], given)
  }

  predicate ClaimsPortOf(stored: Service, given: Service) {
    stored.ty == "NodePort" && exists p, q :: p in stored.ports && q in given.ports && p.nodePort == q.nodePort
  }

  lemma ClaimedIffShared(given: Service, services: map<Uid, Service>)
    requires given.ty == "NodePort"
    ensures NodePortClaimed(given, services) <==> AnyShares(WithDefaults(given), services)
  {
    DefaultsKeepPorts(given);
    forall uid | uid in services ensures ClaimsPortOf(services[uid], given) <==> SharesNodePort(WithDefaults(given), services[uid]) {
      ClaimIffShare(given, services[uid]);
    }
  }

  lemma ClaimIffShare(given: Service, stored: Service)
    requires given.ty == "NodePort" && NodePortsOf(WithDefaults(given).ports) == NodePortsOf(given.ports)
    ensures ClaimsPortOf(stored, given) <==> SharesNodePort(WithDefaults(given), stored)
  {
    forall p | p in stored.ports ensures p.nodePort in NodePortsOf(given.ports) <==> exists q :: q in given.ports && p.nodePort == q.nodePort {
    }
  }

  lemma CheckDoneIff(given: Service, services: map<Uid, Service>, listRead: bool)
    ensures Check(given, services, listRead).Done? <==>
              PortsInRange(given) && (given.ty == "NodePort" ==> listRead && !NodePortClaimed(given, services))
  {
    CheckAcceptsIff(given, services);
    if given.ty == "NodePort" {
      ClaimedIffShared(given, services);
    }
  }

  /** Some address of the pool can be had: a bitmap of the right size has a free bit. */
  predicate AddressLeft(s: Registry, io: Io) {
    !io.bitmapRead || s.bitmap.None? || (|s.bitmap.value| == 32 && exists k: nat :: k < 256 && k !in Bits(s.bitmap.value))
  }

  lemma AddressLeftIff(bitmap: seq<bv8>)
    ensures |bitmap| == 32 ==> ((exists k: nat :: k < 256 && k !in Bits(bitmap)) <==> !Full(bitmap))
  {
  }

  /**
    An add is answered Done if and only if it has a name, the right kind and a matching namespace, its name is not
    known to be taken, its type, ports and node ports are in range, no stored service is known to claim one of its
    node ports, an address is left, and all its writes get through.
  */
  lemma AddDoneIff(s: Registry, namespace: string, given: Service, uid: Uid, io: Io, s': Registry, answer: Answer)
    requires AddStep(s, namespace, given, uid, io, s', answer)
    ensures answer.Done? <==>
              && Addressed(namespace, given) && PortsInRange(given)
              && !(io.nameRead && Key(namespace, given.name) in s.names)
              && (given.ty == "NodePort" ==> io.listRead && !NodePortClaimed(given, s.services))
              && AddressLeft(s, io)
              && io.writes >= if io.bitmapRead && s.bitmap.Some? then 3 else 4
  {
    CheckDoneIff(given, s.services, io.listRead);
    if Admission(s, namespace, given, io).Done? {
      FreshBitmap(0);
      if s.bitmap.Some? {
        AddressLeftIff(s.bitmap.value);
      }
    }
  }

  /** Whatever it answers, an add stores nothing but what it was asked to store. */
  lemma AddStoresRequest(s: Registry, namespace: string, given: Service, uid: Uid, io: Io, s': Registry, answer: Answer)
    requires AddStep(s, namespace, given, uid, io, s', answer)
    ensures AddsRequested(s, namespace, given, uid, s')
  {
    if s'.services != s.services {
      var s1, bitmap, writes := AddStepAllocates(s, namespace, given, uid, io, s', answer);
      var svc := Admission(s, namespace, given, io).service.(namespace := namespace, uid := uid);
      AllocStepStores(s1, svc, bitmap, writes, s', answer);
      var ip :| s'.services == s.services[uid := svc.(clusterIP := ip)];
      AdmittedAsRequested(s, namespace, given, uid, io, ip);
    }
  }

  // ---------------------------------------------------------------------------
  // Runs with their answers
  // ---------------------------------------------------------------------------

  ghost predicate AnsweredWith(s: Registry, r: Request, s': Registry, answer: Answer) {
    match r
    case Add(namespace, service, uid, io) => uid !in s.services && AddStep(s, namespace, service, uid, io, s', answer)
    case Delete(namespace, name, io) => DeleteStep(s, namespace, name, io, s', answer)
  }

  ghost predicate IsAnsweredRun(states: seq<Registry>, requests: seq<Request>, answers: seq<Answer>) {
    && |states| == |requests| + 1 && |answers| == |requests|
    && states[0] == Registry(map[], map[], None)
    && forall i :: 0 <= i < |requests| ==> AnsweredWith(states[i], requests[i], states[i + 1], answers[i])
  }

  lemma AnsweredRunIsRun(states: seq<Registry>, requests: seq<Request>, answers: seq<Answer>)
    requires IsAnsweredRun(states, requests, answers)
    ensures IsRun(states, requests)
  {
    forall i | 0 <= i < |requests| ensures Handled(states[i], requests[i], states[i + 1]) {
      assert AnsweredWith(states[i], requests[i], states[i + 1], answers[i]);
    }
  }

  /** The i-th request asked for the service that is stored under the UID. */
  predicate Asked(requests: seq<Request>, i: int, uid: Uid, kept: Service) {
    && 0 <= i < |requests| && requests[i].Add? && requests[i].uid == uid
    && AsRequested(requests[i].service, requests[i].namespace, uid, kept)
  }

  /** Whichever reads and writes fail: everything stored was asked for by some earlier add. */
  lemma {:induction false} StoredWasAsked(states: seq<Registry>, requests: seq<Request>, answers: seq<Answer>, n: nat, uid: Uid)
    requires IsAnsweredRun(states, requests, answers) && n < |states| && uid in states[n].services
    ensures exists i :: 0 <= i < n && Asked(requests, i, uid, states[n].services[uid])
  {
    var m := n - 1;
    assert AnsweredWith(states[m], requests[m], states[n], answers[m]);
    match requests[m]
    case Add(namespace, service, u, io) =>
      AddStoresRequest(states[m], namespace, service, u, io, states[n], answers[m]);
      if uid == u {
        assert Asked(requests, m, uid, states[n].services[uid]);
      } else {
        StoredWasAsked(states, requests, answers, m, uid);
      }
    case Delete(_, _, _) =>
      StoredWasAsked(states, requests, answers, m, uid);
  }

  /** The request deleted the service with that UID. */
  predicate Deletes(r: Request, answer: Answer, uid: Uid) {
    r.Delete? && answer.Done? && answer.service.uid == uid
  }

  /** The i-th request added a service that none of the requests before the n-th has deleted since. */
  predicate AddedSince(requests: seq<Request>, answers: seq<Answer>, i: nat, n: nat) {
    && i < n <= |requests| == |answers| && requests[i].Add? && answers[i].Done?
    && forall l :: i < l < n ==> !Deletes(requests[l], answers[l], requests[i].uid)
  }

  lemma StepKeepsService(s: Registry, r: Request, s': Registry, answer: Answer, uid: Uid)
    requires NamesLead(s) && AnsweredWith(s, r, s', answer) && AddsMayFail(r)
    requires uid in s.services && !Deletes(r, answer, uid)
    ensures Get(s'.services, uid) == Get(s.services, uid)
  {
    match r
    case Add(namespace, service, u, io) => AddStoresRequest(s, namespace, service, u, io, s', answer);
    case Delete(namespace, name, io) => DeleteKeepsService(s, namespace, name, io, s', answer, uid);
  }

  function Get(m: map<Uid, Service>, uid: Uid): Option<Service> {
    if uid in m then Some(m[uid]) else None
  }

  lemma DeleteKeepsService(s: Registry, namespace: string, name: string, io: Io, s': Registry, answer: Answer, uid: Uid)
    requires NamesLead(s) && DeleteStep(s, namespace, name, io, s', answer) && (io.writes == 0 || io.writes >= 3)
    requires uid in s.services && !(answer.Done? && answer.service.uid == uid)
    ensures Get(s'.services, uid) == Get(s.services, uid)
  {
    if s'.services != s.services {
      assert s'.services == s.services - {answer.service.uid};
    }
  }

  lemma {:induction false} AddedIsStored(states: seq<Registry>, requests: seq<Request>, answers: seq<Answer>, i: nat, n: nat)
    requires IsAnsweredRun(states, requests, answers) && AddedSince(requests, answers, i, n)
    requires forall j :: 0 <= j < |requests| ==> AddsMayFail(requests[j])
    ensures requests[i].uid in states[n].services && states[n].services[requests[i].uid] == answers[i].service
    decreases n
  {
    var m, r := n - 1, requests[i];
    assert AnsweredWith(states[m], requests[m], states[n], answers[m]);
    if m == i {
      DoneStoresRequest(states[i], r.namespace, r.service, r.uid, r.io, states[n], answers[i]);
    } else {
      AddedIsStored(states, requests, answers, i, m);
      AnsweredRunIsRun(states, requests, answers);
      RunIsSafe(states, requests, m);
      StepKeepsService(states[m], requests[m], states[n], answers[m], r.uid);
    }
  }

  /** Two additions, neither of which has been deleted since, are of different services. */
  lemma AddedOnce(states: seq<Registry>, requests: seq<Request>, answers: seq<Answer>, i: nat, j: nat, n: nat)
    requires IsAnsweredRun(states, requests, answers) && i < j
    requires AddedSince(requests, answers, i, n) && AddedSince(requests, answers, j, n)
    requires forall l :: 0 <= l < |requests| ==> AddsMayFail(requests[l])
    ensures requests[i].uid != requests[j].uid
  {
    assert AddedSince(requests, answers, i, j);
    AddedIsStored(states, requests, answers, i, j);
    assert AnsweredWith(states[j], requests[j], states[j + 1], answers[j]);
  }

  /**
    Claims are exclusive: whichever writes of adds and reads other than the bitmap's fail, no two adds answered Done,
    neither deleted since, asked for one node port, nor were they answered with one address.
  */
  lemma NoPortIsGrantedTwice(states: seq<Registry>, requests: seq<Request>, answers: seq<Answer>, i: nat, j: nat, n: nat,
                             p: ServicePort, q: ServicePort)
    requires IsAnsweredRun(states, requests, answers) && i < j
    requires AddedSince(requests, answers, i, n) && AddedSince(requests, answers, j, n)
    requires forall l :: 0 <= l < |requests| ==> AddsMayFail(requests[l])
    requires p in requests[i].service.ports && q in requests[j].service.ports
    ensures requests[i].service.ty == "NodePort" && requests[j].service.ty == "NodePort" ==> p.nodePort != q.nodePort
    ensures answers[i].service.clusterIP != answers[j].service.clusterIP
  {
    var a, b := requests[i], requests[j];
    AddedOnce(states, requests, answers, i, j, n);
    AddedIsStored(states, requests, answers, i, n);
    AddedIsStored(states, requests, answers, j, n);
    AnsweredRunIsRun(states, requests, answers);
    NothingIsShared(states, requests, n, a.uid, b.uid);
    assert AnsweredWith(states[i], a, states[i + 1], answers[i]) && AnsweredWith(states[j], b, states[j + 1], answers[j]);
    DoneStoresRequest(states[i], a.namespace, a.service, a.uid, a.io, states[i + 1], answers[i]);
    DoneStoresRequest(states[j], b.namespace, b.service, b.uid, b.io, states[j + 1], answers[j]);
    PortsDiffer(a.service, b.service, answers[i].service, answers[j].service, p, q);
  }

  lemma PortsDiffer(given: Service, given': Service, kept: Service, kept': Service, p: ServicePort, q: ServicePort)
    requires AsRequested(given, kept.namespace, kept.uid, kept) && AsRequested(given', kept'.namespace, kept'.uid, kept')
    requires !SharesNodePort(kept, kept') && p in given.ports && q in given'.ports
    ensures given.ty == "NodePort" && given'.ty == "NodePort" ==> p.nodePort != q.nodePort
  {
    var k :| 0 <= k < |given.ports| && given.ports[k] == p;
    var l :| 0 <= l < |given'.ports| && given'.ports[l] == q;
    assert PortAsRequested(p, kept.ports[k]) && PortAsRequested(q, kept'.ports[l]);
    assert kept.ports[k] in kept.ports && kept'.ports[l] in kept'.ports;
  }
}
