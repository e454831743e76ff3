/** The kernel's table after any run of the proxy, told in services, pods and numbers alone. */
module ProxyTable {
  import opened ProxyTypes
  import opened ProxyServer
  import opened Ipvs
  import opened Proxy
  import opened ProxyRuns
  import opened Decimal
  import opened Strings

  // ---------------------------------------------------------------------------
  // What the table should hold
  // ---------------------------------------------------------------------------

  /** The server's address, port and transport are those of service port p, or of its node port on the host. */
  predicate HasServer(host: string, svc: Service, p: ServicePort, s: Server) {
    && p in svc.ports && IsAddress(svc.clusterIP)
    && s.transport == (if p.protocol == Udp then UdpTransport else TcpTransport)
    && ((s.ip == svc.clusterIP && s.port == p.port % 65536) || (svc.isNodePort && s.ip == host && s.port == p.nodePort % 65536))
  }

  /** Of services listed with one UID the last counts. */
  predicate Listed(services: seq<Service>, k: nat) {
    k < |services| && forall j :: k < j < |services| ==> services[j].uid != services[k].uid
  }

  predicate Answers(pod: Pod, svc: Service, ip: string) {
    && pod.running && pod.podIP == ip && ip != ""
    && forall key :: key in svc.selector ==> key in pod.labels && pod.labels[key] == svc.selector[key]
  }

  /** Of the pods that answer for the service at one address the last counts. */
  predicate AnswersAt(pods: seq<Pod>, svc: Service, i: nat, ip: string) {
    i < |pods| && Answers(pods[i], svc, ip) && forall j :: i < j < |pods| ==> !Answers(pods[j], svc, ip)
  }

  predicate Opens(pod: Pod, port: int, protocol: Protocol) {
    exists c :: c in pod.containers && EndpointPort(port, protocol) in c
  }

  /** A route from a server of port p to the pod that answers at its address and opens the target port. */
  predicate Forwards(host: string, svc: Service, pods: seq<Pod>, p: ServicePort, i: nat, x: Route) {
    && HasServer(host, svc, p, x.server)
    && x.port == p.targetPort % 65536 && IsAddress(x.ip)
    && AnswersAt(pods, svc, i, x.ip) && Opens(pods[i], p.targetPort, p.protocol)
  }

  ghost predicate ServerListed(host: string, services: seq<Service>, s: Server) {
    exists k: nat, p :: Listed(services, k) && HasServer(host, services[k], p, s)
  }

  ghost predicate RouteListed(host: string, services: seq<Service>, pods: seq<Pod>, x: Route) {
    exists k: nat, p, i: nat :: Listed(services, k) && Forwards(host, services[k], pods, p, i, x)
  }

  // ---------------------------------------------------------------------------
  // Snapshots, told by positions
  // ---------------------------------------------------------------------------

  lemma {:induction false} SnapshotAt(services: seq<Service>, pods: seq<Pod>, k: nat)
    requires Listed(services, k)
    ensures var svc := services[k];
            svc.uid in SnapshotOf(services, pods)
            && SnapshotOf(services, pods)[svc.uid] == ServiceAndEndpoints(svc, EndpointsOf(pods, svc))
  {
    var n := |services| - 1;
    if k < n {
      assert services[n].uid != services[k].uid;
      SnapshotAt(services[..n], pods, k);
    }
  }

  lemma {:induction false} SnapshotFrom(services: seq<Service>, pods: seq<Pod>, uid: Uid) returns (k: nat)
    requires uid in SnapshotOf(services, pods)
    ensures Listed(services, k) && services[k].uid == uid
  {
    var n := |services| - 1;
    if services[n].uid == uid {
      k := n;
    } else {
      k := SnapshotFrom(services[..n], pods, uid);
    }
  }

  lemma {:induction false} EndpointAt(pods: seq<Pod>, svc: Service, i: nat, ip: string)
    requires AnswersAt(pods, svc, i, ip)
    ensures EndpointIs(pods, svc, ip, PortsOf(pods[i], svc.ports))
    decreases |pods|
  {
    var n := |pods| - 1;
    LastEndpoint(pods, svc);
    if i < n {
      AnswersBefore(pods, svc, i, ip);
      EndpointAt(pods[..n], svc, i, ip);
    }
  }

  predicate EndpointIs(pods: seq<Pod>, svc: Service, ip: string, ports: seq<EndpointPort>) {
    ip in EpMap(EndpointsOf(pods, svc)) && EpMap(EndpointsOf(pods, svc))[ip] == ports
  }

  lemma AnswersBefore(pods: seq<Pod>, svc: Service, i: nat, ip: string)
    requires AnswersAt(pods, svc, i, ip) && i < |pods| - 1
    ensures var n := |pods| - 1;
            AnswersAt(pods[..n], svc, i, ip) && pods[..n][i] == pods[i] && !(Serves(pods[n], svc) && pods[n].podIP == ip)
  {
    assert !Answers(pods[|pods| - 1], svc, ip);
  }

  lemma {:induction false} EndpointFrom(pods: seq<Pod>, svc: Service, ip: string) returns (i: nat)
    requires ip in EpMap(EndpointsOf(pods, svc))
    ensures AnswersAt(pods, svc, i, ip)
  {
    var n := |pods| - 1;
    LastEndpoint(pods, svc);
    if Serves(pods[n], svc) && pods[n].podIP == ip {
      i := n;
    } else {
      i := EndpointFrom(pods[..n], svc, ip);
    }
  }

  // ---------------------------------------------------------------------------
  // Servers and routes
  // ---------------------------------------------------------------------------

  lemma ServerOf(host: string, svc: Service, s: Server)
    ensures s in ServersOf(host, svc) <==> exists p :: HasServer(host, svc, p, s)
  {
    if s in ServersOf(host, svc) {
      var p :| p in svc.ports && (s == VipServer(svc, p) || (svc.isNodePort && s == NodeServer(host, p)));
      assert HasServer(host, svc, p, s);
    }
    if p :| HasServer(host, svc, p, s) {
      assert s == VipServer(svc, p) || (svc.isNodePort && s == NodeServer(host, p));
    }
  }

  lemma OpensTarget(pod: Pod, svc: Service, p: ServicePort)
    requires p in svc.ports
    ensures Target(p) in PortsOf(pod, svc.ports) <==> Opens(pod, p.targetPort, p.protocol)
  {
    PortsOfMembers(pod, svc.ports, Target(p));
  }

  lemma RouteOf(host: string, svc: Service, pods: seq<Pod>, x: Route)
    ensures WantsRoute(host, svc, EpMap(EndpointsOf(pods, svc)), x) <==> exists p, i: nat :: Forwards(host, svc, pods, p, i, x)
  {
    var m := EpMap(EndpointsOf(pods, svc));
    if WantsRoute(host, svc, m, x) {
      var p :| p in svc.ports && Target(p) in m[x.ip] && x.port == U16(p.targetPort)
        && (x.server == VipServer(svc, p) || (svc.isNodePort && x.server == NodeServer(host, p)));
      var i := EndpointFrom(pods, svc, x.ip);
      EndpointAt(pods, svc, i, x.ip);
      OpensTarget(pods[i], svc, p);
      assert Forwards(host, svc, pods, p, i, x);
    }
    if p, i: nat :| Forwards(host, svc, pods, p, i, x) {
      EndpointAt(pods, svc, i, x.ip);
      OpensTarget(pods[i], svc, p);
      assert x.server == VipServer(svc, p) || (svc.isNodePort && x.server == NodeServer(host, p));
    }
  }

  /** The table that represents a poll's snapshot, in services and pods. */
  lemma RepresentsListed(host: string, t: Table, services: seq<Service>, pods: seq<Pod>)
    requires Represents(host, t, WorldOf(SnapshotOf(services, pods)))
    ensures forall s :: s in t.servers <==> ServerListed(host, services, s)
    ensures forall x :: x in t.routes <==> RouteListed(host, services, pods, x)
  {
    forall s ensures s in t.servers <==> ServerListed(host, services, s) {
      ServerIsListed(host, t, services, pods, s);
    }
    forall x ensures x in t.routes <==> RouteListed(host, services, pods, x) {
      RouteIsListed(host, t, services, pods, x);
    }
  }

  lemma ServerIsListed(host: string, t: Table, services: seq<Service>, pods: seq<Pod>, s: Server)
    requires Represents(host, t, WorldOf(SnapshotOf(services, pods)))
    ensures s in t.servers <==> ServerListed(host, services, s)
  {
    var w := WorldOf(SnapshotOf(services, pods));
    if s in t.servers {
      var uid :| uid in w && s in ServersOf(host, w[uid].svc);
      var k := SnapshotFrom(services, pods, uid);
      SnapshotAt(services, pods, k);
      ServerOf(host, services[k], s);
    }
    if k: nat, p :| Listed(services, k) && HasServer(host, services[k], p, s) {
      SnapshotAt(services, pods, k);
      ServerOf(host, services[k], s);
      assert s in ServersOf(host, w[services[k].uid].svc);
    }
  }

  lemma RouteIsListed(host: string, t: Table, services: seq<Service>, pods: seq<Pod>, x: Route)
    requires Represents(host, t, WorldOf(SnapshotOf(services, pods)))
    ensures x in t.routes <==> RouteListed(host, services, pods, x)
  {
    var w := WorldOf(SnapshotOf(services, pods));
    if x in t.routes {
      var uid :| uid in w && WantsRoute(host, w[uid].svc, w[uid].m, x);
      var k := SnapshotFrom(services, pods, uid);
      SnapshotAt(services, pods, k);
      RouteOf(host, services[k], pods, x);
    }
    if k: nat, p, i: nat :| Listed(services, k) && Forwards(host, services[k], pods, p, i, x) {
      SnapshotAt(services, pods, k);
      RouteOf(host, services[k], pods, x);
      assert WantsRoute(host, w[services[k].uid].svc, w[services[k].uid].m, x);
    }
  }

  /**
    After any run of polls the kernel has exactly the servers of the service ports and node ports of the last poll,
    UDP for the UDP ports and TCP for all others, and exactly the routes from them to the target ports of the
    running selected pods that open them.
  */
  lemma TableServesPods(host: string, snaps: seq<Snapshot>, sent: seq<seq<ServiceUpdate>>, services: seq<Service>, pods: seq<Pod>)
    requires IsRun(host, snaps, sent) && snaps != [] && snaps[|snaps| - 1] == SnapshotOf(services, pods)
    ensures forall s :: s in TableAfter(host, sent).servers <==> ServerListed(host, services, s)
    ensures forall x :: x in TableAfter(host, sent).routes <==> RouteListed(host, services, pods, x)
  {
    RunRepresents(host, snaps, sent);
    RepresentsListed(host, TableAfter(host, sent), services, pods);
  }

  // ---------------------------------------------------------------------------
  // Addresses
  // ---------------------------------------------------------------------------

  function Dotted(numbers: seq<nat>): string
    requires numbers != []
  {
    if |numbers| == 1 then Render(numbers[0]) else Render(numbers[0]) + ['.'] + Dotted(numbers[1..])
  }

  predicate AreOctets(numbers: seq<nat>) {
    forall i :: 0 <= i < |numbers| ==> numbers[i] < 256
  }

  lemma OctetOf(n: nat)
    requires n < 256
    ensures IsOctet(Render(n)) && '.' !in Render(n)
  {
    if 10 <= n {
      assert Render(n) == Render(n / 10) + [DigitChar(n % 10)];
      if 100 <= n {
        assert Render(n / 10) == Render(n / 100) + [DigitChar(n / 10 % 10)];
        assert n / 10 / 10 == n / 100;
      }
    }
  }

  lemma OneMoreDigit(m: nat, c: char)
    requires m > 0 && IsDigit(c)
    ensures Render(10 * m + DigitValue(c)) == Render(m) + [c]
  {
    var n := 10 * m + DigitValue(c);
    assert n / 10 == m && n % 10 == DigitValue(c);
  }

  lemma UpToThreeDigits(s: string) returns (n: nat)
    requires 1 <= |s| <= 3 && AllDigits(s) && (|s| > 1 ==> s[0] != '0')
    ensures s == Render(n) && (|s| < 3 ==> n < 100)
    ensures |s| == 3 ==> n == 10 * (10 * DigitValue(s[0]) + DigitValue(s[1])) + DigitValue(s[2])
  {
    n := DigitValue(s[0]);
    assert s[..1] == [s[0]] == Render(n);
    if |s| > 1 {
      OneMoreDigit(n, s[1]);
      n := 10 * n + DigitValue(s[1]);
      assert s[..2] == s[..1] + [s[1]];
    }
    if |s| > 2 {
      OneMoreDigit(n, s[2]);
      n := 10 * n + DigitValue(s[2]);
      assert s[..3] == s[..2] + [s[2]];
    }
    assert s == s[..|s|];
  }

  lemma OctetIs(s: string) returns (n: nat)
    requires IsOctet(s)
    ensures n < 256 && s == Render(n)
  {
    n := UpToThreeDigits(s);
  }

  lemma {:induction false} DottedIsOctets(numbers: seq<nat>)
    requires numbers != [] && AreOctets(numbers)
    ensures Octets(Dotted(numbers), |numbers| - 1)
  {
    OctetOf(numbers[0]);
    if |numbers| > 1 {
      DottedIsOctets(numbers[1..]);
      OneMoreOctet(Render(numbers[0]), Dotted(numbers[1..]), |numbers| - 2);
    }
  }

  lemma OneMoreOctet(a: string, rest: string, n: nat)
    requires IsOctet(a) && '.' !in a && Octets(rest, n)
    ensures Octets(a + ['.'] + rest, n + 1)
  {
    IndexAfter(a, rest, '.');
    var s := a + ['.'] + rest;
    assert s[..|a|] == a && s[|a| + 1..] == rest;
  }

  lemma {:induction false} OctetsAreDotted(s: string, n: nat) returns (numbers: seq<nat>)
    requires Octets(s, n)
    ensures |numbers| == n + 1 && AreOctets(numbers) && s == Dotted(numbers)
    decreases n
  {
    if n == 0 {
      var a := OctetIs(s);
      numbers := [a];
    } else {
      var first, last := SplitOctets(s, n);
      var a := OctetIs(first);
      var rest := OctetsAreDotted(last, n - 1);
      numbers := [a] + rest;
      assert numbers[1..] == rest;
    }
  }

  lemma SplitOctets(s: string, n: nat) returns (first: string, last: string)
    requires Octets(s, n) && n > 0
    ensures IsOctet(first) && Octets(last, n - 1) && s == first + ['.'] + last
  {
    var dot := IndexOf(s, '.');
    FoundAt(s, '.');
    first, last := s[..dot], s[dot + 1..];
  }

  lemma {:induction false} FoundAt(s: string, c: char)
    ensures IndexOf(s, c) < |s| ==> s[IndexOf(s, c)] == c
  {
    if s != [] && s[0] != c {
      FoundAt(s[1..], c);
    }
  }

  /** The addresses the kernel takes are four numbers below 256, printed in decimal and joined by dots. */
  lemma AddressIff(s: string)
    ensures IsAddress(s) <==> exists numbers :: |numbers| == 4 && AreOctets(numbers) && s == Dotted(numbers)
  {
    if IsAddress(s) {
      var _ := OctetsAreDotted(s, 3);
    }
    if numbers :| |numbers| == 4 && AreOctets(numbers) && s == Dotted(numbers) {
      DottedIsOctets(numbers);
    }
  }
}
