/** The replica set controller's pass over all sets (pkg/controller/replicaset/controller.go). */
module ReplicaSets {
  import opened Wrappers

  datatype Phase = Running | Pending | Failed | Succeeded | Other(name: string)

  datatype PodId = PodId(namespace: string, name: string)

  datatype PodInfo = PodInfo(labels: Option<map<string, string>>, phase: Phase)

  datatype Pod = Pod(id: PodId, info: PodInfo)

  datatype ReplicaSet = ReplicaSet(
    selector: map<string, string>, replicas: int, namespace: string, baseName: string, labels: Option<map<string, string>>)

  type Cluster = map<PodId, PodInfo>

  const UUID_LENGTH := 36

  // ---------------------------------------------------------------------------
  // Which pods belong to a set
  // ---------------------------------------------------------------------------

  /** A missing label reads as the empty string. */
  function Label(labels: map<string, string>, key: string): string {
    if key in labels then labels[key] else ""
  }

  predicate Satisfies(selector: map<string, string>, labels: map<string, string>) {
    forall k :: k in selector ==> Label(labels, k) == selector[k]
  }

  predicate Belongs(rep: ReplicaSet, info: PodInfo) {
    info.labels.Some? && Satisfies(rep.selector, info.labels.value)
  }

  /** Some key is wanted with two different values. */
  predicate Apart(a: map<string, string>, b: map<string, string>) {
    exists k :: k in a && k in b && a[k] != b[k]
  }

  /** Selectors are apart exactly when no labels satisfy both. */
  lemma ApartIffDisjoint(a: map<string, string>, b: map<string, string>)
    ensures Apart(a, b) <==> forall labels :: !(Satisfies(a, labels) && Satisfies(b, labels))
  {
    if !Apart(a, b) {
      assert Satisfies(a, a + b) && Satisfies(b, a + b);
    }
  }

  function Matching(rep: ReplicaSet, pods: seq<Pod>): seq<Pod> {
    if pods == [] then []
    else
      var last := pods[|pods| - 1];
      Matching(rep, pods[..|pods| - 1]) + if Belongs(rep, last.info) then [last] else []
  }

  method OneReplicaSetMatch(rep: ReplicaSet, allPods: seq<Pod>) returns (podBelonged: seq<Pod>)
    ensures podBelonged == Matching(rep, allPods)
  {
    podBelonged := [];
    for i := 0 to |allPods|
      invariant podBelonged == Matching(rep, allPods[..i])
    {
      assert allPods[..i + 1][..i] == allPods[..i];
      var pod := allPods[i];
      if pod.info.labels.None? {
        continue;
      }
      var belonged := true;
      var rest := rep.selector.Keys;
      while rest != {}
        invariant rest <= rep.selector.Keys
        invariant belonged
        invariant forall k :: k in rep.selector && k !in rest ==> Label(pod.info.labels.value, k) == rep.selector[k]
        decreases rest
      {
        var k :| k in rest;
        if Label(pod.info.labels.value, k) != rep.selector[k] {
          belonged := false;
          break;
        }
        rest := rest - {k};
      }
      if belonged {
        podBelonged := podBelonged + [pod];
      }
    }
    assert allPods[..|allPods|] == allPods;
  }

  // ---------------------------------------------------------------------------
  // Counting
  // ---------------------------------------------------------------------------

  /** The phases that count as a replica. */
  predicate Counted(phase: Phase) {
    phase.Running? || phase.Pending? || phase.Succeeded?
  }

  function CountIn(pods: seq<Pod>): nat {
    if pods == [] then 0 else CountIn(pods[..|pods| - 1]) + if Counted(pods[|pods| - 1].info.phase) then 1 else 0
  }

  /** Where the scan starts deleting: at the first pod met when enough are counted. */
  function Cut(pods: seq<Pod>, wanted: int): (c: nat)
    ensures c <= |pods|
  {
    if pods == [] then 0
    else
      var n := |pods| - 1;
      var c := Cut(pods[..n], wanted);
      if c < n || CountIn(pods[..n]) == wanted then c else n + 1
  }

  function ToStart(pods: seq<Pod>, wanted: int): int {
    if Cut(pods, wanted) < |pods| then 0 else wanted - CountIn(pods)
  }

  lemma {:induction false} CountSplits(pods: seq<Pod>, i: nat)
    requires i <= |pods|
    ensures CountIn(pods) == CountIn(pods[..i]) + CountIn(pods[i..])
  {
    var n := |pods| - 1;
    if i == |pods| {
      assert pods[..i] == pods && pods[i..] == [];
    } else {
      CountSplits(pods[..n], i);
      assert pods[..n][..i] == pods[..i];
      assert pods[i..][..|pods[i..]| - 1] == pods[..n][i..];
      assert pods[i..][|pods[i..]| - 1] == pods[n];
    }
  }

  lemma {:induction false} CutMeans(pods: seq<Pod>, wanted: int)
    ensures Cut(pods, wanted) < |pods| ==> CountIn(pods[..Cut(pods, wanted)]) == wanted
    ensures Cut(pods, wanted) == |pods| && wanted >= 0 ==> CountIn(pods) <= wanted
  {
    if pods != [] {
      var n := |pods| - 1;
      CutMeans(pods[..n], wanted);
      var c := Cut(pods[..n], wanted);
      assert pods[..n][..c] == pods[..c];
    }
  }

  /** What a scan leaves and asks for adds up: surplus counted pods are deleted, missing ones are to be started. */
  lemma ScanBalances(pods: seq<Pod>, wanted: int)
    requires wanted >= 0
    ensures var c := Cut(pods, wanted);
            && CountIn(pods[..c]) + ToStart(pods, wanted) == wanted
            && ToStart(pods, wanted) == (if CountIn(pods) < wanted then wanted - CountIn(pods) else 0)
            && CountIn(pods[c..]) == (if CountIn(pods) > wanted then CountIn(pods) - wanted else 0)
  {
    var c := Cut(pods, wanted);
    CutMeans(pods, wanted);
    CountSplits(pods, c);
    if c == |pods| { assert pods[..c] == pods && pods[c..] == []; }
  }

  // ---------------------------------------------------------------------------
  // Listings and clusters
  // ---------------------------------------------------------------------------

  predicate DistinctIds(pods: seq<Pod>) {
    forall i, j :: 0 <= i < j < |pods| ==> pods[i].id != pods[j].id
  }

  function IdsOf(pods: seq<Pod>): set<PodId> {
    set p | p in pods :: p.id
  }

  /** The listing shows every pod of the cluster once, as it is. */
  predicate Accurate(pods: seq<Pod>, cluster: Cluster) {
    && DistinctIds(pods) && IdsOf(pods) == cluster.Keys
    && forall p :: p in pods ==> p.id in cluster && cluster[p.id] == p.info
  }

  function Members(rep: ReplicaSet, cluster: Cluster): set<PodId> {
    set id | id in cluster && Belongs(rep, cluster[id])
  }

  function Replicas(rep: ReplicaSet, cluster: Cluster): set<PodId> {
    set id | id in cluster && Belongs(rep, cluster[id]) && Counted(cluster[id].phase)
  }

  lemma {:induction false} MatchingIs(rep: ReplicaSet, pods: seq<Pod>)
    ensures forall p :: p in Matching(rep, pods) <==> p in pods && Belongs(rep, p.info)
    ensures DistinctIds(pods) ==> DistinctIds(Matching(rep, pods))
  {
    if pods != [] {
      var rest, last := pods[..|pods| - 1], pods[|pods| - 1];
      MatchingIs(rep, rest);
      assert pods == rest + [last];
      if DistinctIds(pods) {
        forall p | p in Matching(rep, rest) ensures p.id != last.id {
          var i :| 0 <= i < |rest| && rest[i] == p;
          assert pods[i] == p;
        }
      }
    }
  }

  function CountedIds(pods: seq<Pod>): set<PodId> {
    set p | p in pods && Counted(p.info.phase) :: p.id
  }

  lemma LastCounted(rest: seq<Pod>, last: Pod)
    ensures CountedIds(rest + [last]) == CountedIds(rest) + if Counted(last.info.phase) then {last.id} else {}
    ensures DistinctIds(rest + [last]) ==> last.id !in CountedIds(rest)
  {
    var all := rest + [last];
    assert forall p :: p in all <==> p in rest || p == last;
    if DistinctIds(all) {
      forall p | p in rest ensures p.id != last.id {
        var i :| 0 <= i < |rest| && rest[i] == p;
        assert all[i] == p && all[|rest|] == last;
      }
    }
  }

  lemma {:induction false} CountIsSize(pods: seq<Pod>)
    requires DistinctIds(pods)
    ensures CountIn(pods) == |CountedIds(pods)|
  {
    if pods != [] {
      var rest, last := pods[..|pods| - 1], pods[|pods| - 1];
      CountIsSize(rest);
      LastCounted(rest, last);
      assert pods == rest + [last];
    }
  }

  // ---------------------------------------------------------------------------
  // One set's part of a pass
  // ---------------------------------------------------------------------------

  /** The pod a set's template asks for; the server starts it as pending. */
  function Template(rep: ReplicaSet): PodInfo {
    PodInfo(rep.labels, Pending)
  }

  /** The namespace and the name that the set's template leads to, but for the random end of the name. */
  predicate NamedAfter(rep: ReplicaSet, id: PodId) {
    id.namespace == (if rep.namespace == "" then "default" else rep.namespace) && rep.baseName + "-" <= id.name
  }

  /** A pod that counts for the set: every selected label reads as wanted, and it runs, is about to or has succeeded. */
  predicate IsReplica(rep: ReplicaSet, info: PodInfo) {
    && info.labels.Some?
    && (forall k :: k in rep.selector ==>
          if k in info.labels.value then info.labels.value[k] == rep.selector[k] else rep.selector[k] == "")
    && (info.phase == Running || info.phase == Pending || info.phase == Succeeded)
  }

  lemma ReplicasAre(rep: ReplicaSet, c: Cluster)
    ensures Replicas(rep, c) == set id | id in c && IsReplica(rep, c[id])
  {
    forall id | id in c ensures id in Replicas(rep, c) <==> IsReplica(rep, c[id]) {
      if c[id].labels.Some? {
        LabelsRead(rep.selector, c[id].labels.value);
      }
    }
  }

  lemma LabelsRead(selector: map<string, string>, labels: map<string, string>)
    ensures Satisfies(selector, labels) <==>
              forall k :: k in selector ==> if k in labels then labels[k] == selector[k] else selector[k] == ""
  {
    forall k | k in selector
      ensures Label(labels, k) == selector[k] <==> if k in labels then labels[k] == selector[k] else selector[k] == ""
    {
    }
  }

  /** As many pods count for each set as it wants. */
  predicate AllConverged(reps: seq<ReplicaSet>, c: Cluster) {
    forall r :: 0 <= r < |reps| ==> |set id | id in c && IsReplica(reps[r], c[id])| == reps[r].replicas
  }

  lemma SteadyConverged(reps: seq<ReplicaSet>, c: Cluster)
    requires Steady(reps, c)
    ensures AllConverged(reps, c)
  {
    forall r | 0 <= r < |reps| ensures |set id | id in c && IsReplica(reps[r], c[id])| == reps[r].replicas {
      ReplicasAre(reps[r], c);
    }
  }

  /** A pod started for one of the sets: pending, with its template's labels and name. */
  predicate StartedFor(reps: seq<ReplicaSet>, id: PodId, info: PodInfo) {
    exists r :: 0 <= r < |reps| && info == PodInfo(reps[r].labels, Pending) && NamedAfter(reps[r], id)
  }

  /** Every pod was there before or was started for a set, and one that belongs to no set is left alone. */
  ghost predicate OnlySetsTouched(reps: seq<ReplicaSet>, c0: Cluster, c: Cluster) {
    && (forall id :: id in c ==> (id in c0 && c[id] == c0[id]) || StartedFor(reps, id, c[id]))
    && (forall id :: id in c0 && Unowned(reps, c0[id]) ==> id in c && c[id] == c0[id])
  }

  predicate Unowned(reps: seq<ReplicaSet>, info: PodInfo) {
    forall r :: 0 <= r < |reps| ==> !Belongs(reps[r], info)
  }

  lemma StepTouchesSet(reps: seq<ReplicaSet>, i: nat, c0: Cluster, c: Cluster, c': Cluster, gone: set<PodId>, fresh_: set<PodId>)
    requires i < |reps| && OnlySetsTouched(reps, c0, c)
    requires SetStep(c, reps[i], c', gone, fresh_) && gone <= Members(reps[i], c)
    ensures OnlySetsTouched(reps, c0, c')
  {
    forall id | id in c' ensures (id in c0 && c'[id] == c0[id]) || StartedFor(reps, id, c'[id]) {
      if id in fresh_ {
        assert c'[id] == PodInfo(reps[i].labels, Pending) && NamedAfter(reps[i], id);
      } else {
        assert id in c && c'[id] == c[id];
      }
    }
  }

  function Started(toStart: int): nat {
    if toStart > 0 then toStart else 0
  }

  /** The cluster after a set's scan: some pods gone, some fresh ones of its template. */
  predicate SetStep(c: Cluster, rep: ReplicaSet, c': Cluster, gone: set<PodId>, fresh_: set<PodId>) {
    && gone <= c.Keys && fresh_ !! c.Keys
    && c'.Keys == c.Keys - gone + fresh_
    && (forall id :: id in c && id !in gone ==> c'[id] == c[id])
    && (forall id :: id in fresh_ ==> c'[id] == Template(rep) && NamedAfter(rep, id))
  }

  /** The set's own pods are as the listing showed them. */
  predicate Shown(matched: seq<Pod>, rep: ReplicaSet, c: Cluster) {
    && DistinctIds(matched) && IdsOf(matched) == Members(rep, c)
    && forall p :: p in matched ==> p.id in c && c[p.id] == p.info
  }

  lemma CountedShown(matched: seq<Pod>, rep: ReplicaSet, c: Cluster)
    requires Shown(matched, rep, c)
    ensures CountedIds(matched) == Replicas(rep, c)
  {
    forall id ensures id in CountedIds(matched) <==> id in Replicas(rep, c) {
      if id in Replicas(rep, c) {
        assert id in IdsOf(matched);
        var p :| p in matched && p.id == id;
      }
      if id in CountedIds(matched) {
        assert id in IdsOf(matched);
      }
    }
  }

  lemma DistinctTail(pods: seq<Pod>, i: nat)
    requires DistinctIds(pods) && i <= |pods|
    ensures DistinctIds(pods[i..])
    ensures forall p :: p in pods[i..] ==> p in pods
  {
  }

  /** After its scan the set has exactly the replicas it wants. */
  lemma SetConverges(matched: seq<Pod>, rep: ReplicaSet, c: Cluster, c': Cluster, gone: set<PodId>, fresh_: set<PodId>)
    requires rep.replicas >= 0 && Belongs(rep, Template(rep)) && Shown(matched, rep, c)
    requires SetStep(c, rep, c', gone, fresh_)
    requires gone == IdsOf(matched[Cut(matched, rep.replicas)..])
    requires |fresh_| == Started(ToStart(matched, rep.replicas))
    ensures |Replicas(rep, c')| == rep.replicas
  {
    var tail := matched[Cut(matched, rep.replicas)..];
    CountedShown(matched, rep, c);
    CountIsSize(matched);
    DistinctTail(matched, Cut(matched, rep.replicas));
    CountIsSize(tail);
    ScanBalances(matched, rep.replicas);
    assert CountedIds(tail) <= CountedIds(matched);
    ReplicasAfter(matched, tail, rep, c, c', gone, fresh_);
  }

  lemma ReplicasAfter(matched: seq<Pod>, tail: seq<Pod>, rep: ReplicaSet, c: Cluster, c': Cluster, gone: set<PodId>, fresh_: set<PodId>)
    requires Belongs(rep, Template(rep)) && SetStep(c, rep, c', gone, fresh_)
    requires gone == IdsOf(tail) && CountedIds(tail) <= Replicas(rep, c)
    requires forall p :: p in tail ==> p.id in c && c[p.id] == p.info
    ensures |Replicas(rep, c')| == |Replicas(rep, c)| - |CountedIds(tail)| + |fresh_|
  {
    forall id ensures id in Replicas(rep, c') <==> id in Replicas(rep, c) - CountedIds(tail) + fresh_ {
      ReplicaAfter(tail, rep, c, c', gone, fresh_, id);
    }
    SizeAfter(Replicas(rep, c), CountedIds(tail), fresh_, Replicas(rep, c'));
  }

  lemma ReplicaAfter(tail: seq<Pod>, rep: ReplicaSet, c: Cluster, c': Cluster, gone: set<PodId>, fresh_: set<PodId>, id: PodId)
    requires Belongs(rep, Template(rep)) && SetStep(c, rep, c', gone, fresh_)
    requires gone == IdsOf(tail)
    requires forall p :: p in tail ==> p.id in c && c[p.id] == p.info
    ensures id in Replicas(rep, c') <==> id in Replicas(rep, c) - CountedIds(tail) + fresh_
  {
    if id in Replicas(rep, c) && id in gone {
      var p :| p in tail && p.id == id;
      assert id in CountedIds(tail);
    }
    if id in CountedIds(tail) {
      assert id in gone;
    }
  }

  lemma SizeAfter(a: set<PodId>, b: set<PodId>, d: set<PodId>, result: set<PodId>)
    requires b <= a && a !! d && forall id :: id in result <==> id in a - b + d
    ensures |result| == |a| - |b| + |d|
  {
    assert result == a - b + d;
  }

  /** A set whose selector is apart keeps its pods. */
  lemma OtherSetsKeep(rep: ReplicaSet, other: ReplicaSet, c: Cluster, c': Cluster, gone: set<PodId>, fresh_: set<PodId>)
    requires Apart(rep.selector, other.selector) && Belongs(rep, Template(rep))
    requires SetStep(c, rep, c', gone, fresh_) && gone <= Members(rep, c)
    ensures Members(other, c') == Members(other, c) && Replicas(other, c') == Replicas(other, c)
    ensures forall id :: id in Members(other, c) ==> c'[id] == c[id]
  {
    ApartIffDisjoint(rep.selector, other.selector);
  }

  // ---------------------------------------------------------------------------
  // The controller
  // ---------------------------------------------------------------------------

  function Namespace(rep: ReplicaSet): string {
    if rep.namespace == "" then "default" else rep.namespace
  }

  function Suffix(name: string): string {
    if |name| < UUID_LENGTH then name else name[|name| - UUID_LENGTH..]
  }

  function NewName(rep: ReplicaSet, uuid: string): PodId {
    PodId(Namespace(rep), rep.baseName + "-" + uuid)
  }

  lemma NewNameEnds(rep: ReplicaSet, uuid: string)
    requires |uuid| == UUID_LENGTH
    ensures Suffix(NewName(rep, uuid).name) == uuid
  {
    var name := NewName(rep, uuid).name;
    assert name[|name| - |uuid|..] == uuid;
  }

  /** The API server's client; `uuids` are the random identifiers still to come, all different and unused. */
  class Client {
    var cluster: Cluster
    var used: nat
    const uuids: nat -> string

    constructor (c: Cluster, supply: nat -> string)
      ensures cluster == c && used == 0 && uuids == supply
    {
      cluster, used, uuids := c, 0, supply;
    }

    ghost predicate Valid()
      reads this
    {
      && (forall i: nat :: |uuids(i)| == UUID_LENGTH)
      && (forall i: nat, j: nat :: uuids(i) == uuids(j) ==> i == j)
      && (forall id, i: nat :: id in cluster && i >= used ==> Suffix(id.name) != uuids(i))
    }

    /** The name ends in one of the identifiers that were still to come. */
    ghost predicate UsesUuid(id: PodId, from: nat) {
      exists j: nat :: j >= from && Suffix(id.name) == uuids(j)
    }

    /** Lists all pods, in no particular order. */
    method GetAllPods() returns (pods: seq<Pod>)
      ensures Accurate(pods, cluster)
    {
      pods := [];
      var rest := cluster.Keys;
      while rest != {}
        invariant rest <= cluster.Keys
        invariant forall id :: id in IdsOf(pods) <==> id in cluster && id !in rest
        invariant DistinctIds(pods)
        invariant forall p :: p in pods ==> p.id in cluster && cluster[p.id] == p.info
        decreases rest
      {
        var id :| id in rest;
        rest := rest - {id};
        var more := pods + [Pod(id, cluster[id])];
        assert forall p :: p in more <==> p in pods || p == Pod(id, cluster[id]);
        assert forall p :: p in pods ==> p.id in IdsOf(pods);
        assert IdsOf(more) == IdsOf(pods) + {id};
        pods := more;
      }
    }

    method DeletePod(id: PodId)
      requires Valid()
      modifies this`cluster
      ensures Valid() && cluster == old(cluster) - {id}
    {
      cluster := cluster - {id};
    }

    method AddPod(rep: ReplicaSet) returns (ghost id: PodId)
      requires Valid()
      modifies this
      ensures Valid() && id !in old(cluster) && cluster == old(cluster)[id := Template(rep)] && NamedAfter(rep, id)
      ensures Suffix(id.name) == uuids(old(used)) && used == old(used) + 1
    {
      id := NewName(rep, uuids(used));
      NewNameEnds(rep, uuids(used));
      cluster := cluster[NewName(rep, uuids(used)) := Template(rep)];
      used := used + 1;
    }

    /** Counts up to the wanted number, then deletes every further pod. */
    method OneReplicaSetCheck(matched: seq<Pod>, wanted: int) returns (toStart: int)
      requires Valid()
      modifies this`cluster
      ensures Valid() && cluster == old(cluster) - IdsOf(matched[Cut(matched, wanted)..])
      ensures toStart == ToStart(matched, wanted)
    {
      var replicasNum := 0;
      var stateMark := false;
      assert old(cluster) - {} == old(cluster);
      for i := 0 to |matched|
        invariant Valid()
        invariant stateMark <==> Cut(matched[..i], wanted) < i
        invariant !stateMark ==> replicasNum == CountIn(matched[..i])
        invariant cluster == old(cluster) - IdsOf(matched[..i][Cut(matched[..i], wanted)..])
      {
        ScanStep(matched, i, wanted);
        if replicasNum == wanted {
          stateMark := true;
        }
        if stateMark {
          DeletePod(matched[i].id);
        } else {
          var phase := matched[i].info.phase;
          if phase.Running? {
            replicasNum := replicasNum + 1;
          } else if phase.Pending? {
            replicasNum := replicasNum + 1;
          } else if phase.Failed? {
          } else if phase.Succeeded? {
            replicasNum := replicasNum + 1;
          }
        }
      }
      assert matched[..|matched|] == matched;
      toStart := if stateMark then 0 else wanted - replicasNum;
    }

    method StartOne(rep: ReplicaSet, ghost c0: Cluster, ghost before: set<PodId>, ghost from: nat) returns (ghost fresh_: set<PodId>)
      requires Valid() && used >= from && SetStep(c0, rep, cluster, {}, before)
      requires forall id :: id in before ==> UsesUuid(id, from)
      modifies this
      ensures Valid() && used >= from && SetStep(c0, rep, cluster, {}, fresh_) && |fresh_| == |before| + 1
      ensures forall id :: id in fresh_ ==> UsesUuid(id, from)
    {
      ghost var c := cluster;
      var id := AddPod(rep);
      MoreFresh(c0, rep, c, before, id);
      fresh_ := before + {id};
    }

    method StartPods(rep: ReplicaSet, toStart: int) returns (ghost fresh_: set<PodId>)
      requires Valid()
      modifies this
      ensures Valid()
      ensures SetStep(old(cluster), rep, cluster, {}, fresh_) && |fresh_| == Started(toStart)
      ensures forall id :: id in fresh_ ==> UsesUuid(id, old(used))
    {
      fresh_ := {};
      var i := 1;
      while i <= toStart
        invariant Valid() && 1 <= i && |fresh_| == i - 1 && (toStart >= 0 ==> i <= toStart + 1) && (toStart < 0 ==> i == 1)
        invariant SetStep(old(cluster), rep, cluster, {}, fresh_)
        invariant used >= old(used)
        invariant forall id :: id in fresh_ ==> UsesUuid(id, old(used))
        decreases toStart - i
      {
        fresh_ := StartOne(rep, old(cluster), fresh_, old(used));
        i := i + 1;
      }
    }

    /** Names with identifiers that were still to come clash with nothing there. */
    lemma UnusedNames(c: Cluster, ids: set<PodId>, from: nat)
      requires forall id, i: nat :: id in c && i >= from ==> Suffix(id.name) != uuids(i)
      requires forall id :: id in ids ==> UsesUuid(id, from)
      ensures ids !! c.Keys
    {
      forall id | id in ids ensures id !in c {
        var j: nat :| j >= from && Suffix(id.name) == uuids(j);
      }
    }

    /** One set: match, check, start. */
    method SyncOne(rep: ReplicaSet, allPods: seq<Pod>) returns (ghost gone: set<PodId>, ghost fresh_: set<PodId>)
      requires Valid() && Shown(Matching(rep, allPods), rep, cluster)
      modifies this
      ensures Valid()
      ensures var matched := Matching(rep, allPods);
              && gone == IdsOf(matched[Cut(matched, rep.replicas)..]) && gone <= Members(rep, old(cluster))
              && |fresh_| == Started(ToStart(matched, rep.replicas))
              && SetStep(old(cluster), rep, cluster, gone, fresh_)
    {
      var matched := OneReplicaSetMatch(rep, allPods);
      gone := IdsOf(matched[Cut(matched, rep.replicas)..]);
      TailIds(matched, Cut(matched, rep.replicas));
      var toStart := OneReplicaSetCheck(matched, rep.replicas);
      ghost var middle := cluster;
      fresh_ := StartPods(rep, toStart);
      UnusedNames(old(cluster), fresh_, old(used));
      DeletedThenStarted(old(cluster), rep, middle, cluster, gone, fresh_);
    }

    /** One pass over all sets, against one listing. */
    method SyncReplicaSets(reps: seq<ReplicaSet>, allPods: seq<Pod>) returns (ghost gone: set<PodId>, ghost fresh_: set<PodId>)
      requires Valid() && Accurate(allPods, cluster) && SoundSets(reps)
      modifies this
      ensures Valid()
      ensures Steady(reps, cluster) && AllConverged(reps, cluster) && OnlySetsTouched(reps, old(cluster), cluster)
      ensures Steady(reps, old(cluster)) ==> fresh_ == {} && QuietlyGone(old(cluster), gone)
    {
      gone, fresh_ := {}, {};
      ghost var c0 := cluster;
      for i := 0 to |reps|
        invariant Valid()
        invariant Halfway(reps, i, c0, cluster, gone, fresh_) && OnlySetsTouched(reps, c0, cluster)
      {
        ghost var c := cluster;
        AccurateShown(reps[i], allPods, c0);
        ShownKept(Matching(reps[i], allPods), reps[i], c0, c);
        ghost var gone1, fresh1 := SyncOne(reps[i], allPods);
        PassStep(reps, i, Matching(reps[i], allPods), c0, c, cluster, gone, fresh_, gone1, fresh1);
        StepTouchesSet(reps, i, c0, c, cluster, gone1, fresh1);
        gone, fresh_ := gone + gone1, fresh_ + fresh1;
      }
      SteadyConverged(reps, cluster);
    }

    /**
     * Any number of passes, each on a new listing in whatever order: after the first, none creates a pod or deletes
     * one that counts.
     */
    method Run(reps: seq<ReplicaSet>, passes: nat) returns (ghost laterLost: set<PodId>, ghost laterFresh: set<PodId>)
      requires Valid() && SoundSets(reps) && passes > 0
      modifies this
      ensures Valid()
      ensures AllConverged(reps, cluster)
      ensures laterLost == {} && laterFresh == {}
    {
      var allPods := GetAllPods();
      var _, _ := SyncReplicaSets(reps, allPods);
      laterLost, laterFresh := {}, {};
      for n := 1 to passes
        invariant Valid()
        invariant Steady(reps, cluster) && laterLost == {} && laterFresh == {}
      {
        allPods := GetAllPods();
        ghost var c := cluster;
        ghost var gone, fresh_ := SyncReplicaSets(reps, allPods);
        laterLost := laterLost + set id | id in gone && (id !in c || c[id].phase in {Phase.Running, Pending, Succeeded});
        laterFresh := laterFresh + fresh_;
      }
      SteadyConverged(reps, cluster);
    }
  }

  /** Non-negative targets, templates that meet their own selector, and selectors that are pairwise apart. */
  predicate SoundSets(reps: seq<ReplicaSet>) {
    && (forall r :: 0 <= r < |reps| ==> reps[r].replicas >= 0 && Belongs(reps[r], Template(reps[r])))
    && forall a, b :: 0 <= a < |reps| && 0 <= b < |reps| && a != b ==> Apart(reps[a].selector, reps[b].selector)
  }

  /** Every set has the replicas it wants. */
  predicate Steady(reps: seq<ReplicaSet>, c: Cluster) {
    forall r :: 0 <= r < |reps| ==> |Replicas(reps[r], c)| == reps[r].replicas
  }

  /** Nothing that counts as a replica is gone. */
  predicate QuietlyGone(c: Cluster, gone: set<PodId>) {
    forall id :: id in gone ==> id in c && !Counted(c[id].phase)
  }

  predicate SamePods(rep: ReplicaSet, c: Cluster, c': Cluster) {
    && Members(rep, c') == Members(rep, c)
    && forall id :: id in Members(rep, c) ==> c'[id] == c[id]
  }

  lemma AccurateShown(rep: ReplicaSet, pods: seq<Pod>, c: Cluster)
    requires Accurate(pods, c)
    ensures Shown(Matching(rep, pods), rep, c)
  {
    MatchingIs(rep, pods);
    var matched := Matching(rep, pods);
    forall id ensures id in IdsOf(matched) <==> id in Members(rep, c) {
      if id in Members(rep, c) {
        assert id in IdsOf(pods);
        var p :| p in pods && p.id == id;
        assert p in matched;
      }
    }
  }

  lemma ShownKept(matched: seq<Pod>, rep: ReplicaSet, c: Cluster, c': Cluster)
    requires Shown(matched, rep, c) && SamePods(rep, c, c')
    ensures Shown(matched, rep, c')
  {
    forall p | p in matched ensures p.id in c' && c'[p.id] == p.info {
      assert p.id in IdsOf(matched);
    }
  }

  /** A pass that has dealt with the first i sets. */
  ghost predicate Halfway(reps: seq<ReplicaSet>, i: nat, c0: Cluster, c: Cluster, gone: set<PodId>, fresh_: set<PodId>)
    requires i <= |reps|
  {
    && (forall r :: 0 <= r < i ==> |Replicas(reps[r], c)| == reps[r].replicas)
    && (forall r :: i <= r < |reps| ==> SamePods(reps[r], c0, c))
    && (Steady(reps, c0) ==> fresh_ == {} && QuietlyGone(c0, gone))
  }

  lemma PassStep(reps: seq<ReplicaSet>, i: nat, matched: seq<Pod>, c0: Cluster, c: Cluster, c': Cluster,
                 gone: set<PodId>, fresh_: set<PodId>, gone1: set<PodId>, fresh1: set<PodId>)
    requires SoundSets(reps) && i < |reps| && Shown(matched, reps[i], c)
    requires Halfway(reps, i, c0, c, gone, fresh_)
    requires gone1 == IdsOf(matched[Cut(matched, reps[i].replicas)..]) && gone1 <= Members(reps[i], c)
    requires |fresh1| == Started(ToStart(matched, reps[i].replicas))
    requires SetStep(c, reps[i], c', gone1, fresh1)
    ensures Halfway(reps, i + 1, c0, c', gone + gone1, fresh_ + fresh1)
  {
    SetConverges(matched, reps[i], c, c', gone1, fresh1);
    OthersKeep(reps, i, c, c', gone1, fresh1);
    forall r | i < r < |reps| ensures SamePods(reps[r], c0, c') {
      SamePodsTwice(reps[r], c0, c, c');
    }
    if Steady(reps, c0) {
      QuietStep(reps[i], matched, c0, c, gone, gone1, fresh1);
    }
  }

  lemma OthersKeep(reps: seq<ReplicaSet>, i: nat, c: Cluster, c': Cluster, gone: set<PodId>, fresh_: set<PodId>)
    requires SoundSets(reps) && i < |reps| && SetStep(c, reps[i], c', gone, fresh_) && gone <= Members(reps[i], c)
    ensures forall r :: 0 <= r < |reps| && r != i ==> Replicas(reps[r], c') == Replicas(reps[r], c) && SamePods(reps[r], c, c')
  {
    forall r | 0 <= r < |reps| && r != i
      ensures Replicas(reps[r], c') == Replicas(reps[r], c) && SamePods(reps[r], c, c')
    {
      OtherSetsKeep(reps[i], reps[r], c, c', gone, fresh_);
    }
  }

  lemma QuietStep(rep: ReplicaSet, matched: seq<Pod>, c0: Cluster, c: Cluster, gone: set<PodId>, gone1: set<PodId>, fresh1: set<PodId>)
    requires rep.replicas >= 0 && Shown(matched, rep, c) && SamePods(rep, c0, c) && |Replicas(rep, c0)| == rep.replicas
    requires QuietlyGone(c0, gone)
    requires gone1 == IdsOf(matched[Cut(matched, rep.replicas)..])
    requires |fresh1| == Started(ToStart(matched, rep.replicas))
    ensures fresh1 == {} && QuietlyGone(c0, gone + gone1)
  {
    SameReplicas(rep, c0, c);
    SteadySetIsQuiet(matched, rep, c, gone1, fresh1);
    GoneFromOwn(rep, c0, c, gone1);
  }

  lemma SamePodsTwice(rep: ReplicaSet, a: Cluster, b: Cluster, c: Cluster)
    requires SamePods(rep, a, b) && SamePods(rep, b, c)
    ensures SamePods(rep, a, c)
  {
  }

  lemma GoneFromOwn(rep: ReplicaSet, c0: Cluster, c: Cluster, gone: set<PodId>)
    requires SamePods(rep, c0, c)
    requires forall id :: id in gone ==> id in c && id in Members(rep, c) && !Counted(c[id].phase)
    ensures QuietlyGone(c0, gone)
  {
  }

  lemma SameReplicas(rep: ReplicaSet, c: Cluster, c': Cluster)
    requires SamePods(rep, c, c')
    ensures Replicas(rep, c') == Replicas(rep, c)
  {
    forall id ensures id in Replicas(rep, c') <==> id in Replicas(rep, c) {
      assert id in Members(rep, c) <==> id in Members(rep, c');
    }
  }

  /** A set that has what it wants starts nothing and deletes nothing that counts. */
  lemma SteadySetIsQuiet(matched: seq<Pod>, rep: ReplicaSet, c: Cluster, gone: set<PodId>, fresh_: set<PodId>)
    requires rep.replicas >= 0 && Shown(matched, rep, c) && |Replicas(rep, c)| == rep.replicas
    requires gone == IdsOf(matched[Cut(matched, rep.replicas)..])
    requires |fresh_| == Started(ToStart(matched, rep.replicas))
    ensures fresh_ == {}
    ensures forall id :: id in gone ==> id in c && id in Members(rep, c) && !Counted(c[id].phase)
  {
    var tail := matched[Cut(matched, rep.replicas)..];
    CountedShown(matched, rep, c);
    CountIsSize(matched);
    ScanBalances(matched, rep.replicas);
    DistinctTail(matched, Cut(matched, rep.replicas));
    CountIsSize(tail);
    assert CountedIds(tail) == {};
    forall id | id in gone ensures id in c && id in Members(rep, c) && !Counted(c[id].phase) {
      var p :| p in tail && p.id == id;
      assert p in matched && p.id in IdsOf(matched);
      assert Counted(p.info.phase) ==> p.id in CountedIds(tail);
    }
  }

  lemma TailIds(pods: seq<Pod>, i: nat)
    requires i <= |pods|
    ensures IdsOf(pods[i..]) <= IdsOf(pods)
  {
  }

  lemma DeletedThenStarted(c0: Cluster, rep: ReplicaSet, c1: Cluster, c2: Cluster, gone: set<PodId>, fresh_: set<PodId>)
    requires gone <= c0.Keys && c1 == c0 - gone && SetStep(c1, rep, c2, {}, fresh_) && fresh_ !! c0.Keys
    ensures SetStep(c0, rep, c2, gone, fresh_)
  {
  }

  lemma MoreFresh(c0: Cluster, rep: ReplicaSet, c: Cluster, fresh_: set<PodId>, id: PodId)
    requires SetStep(c0, rep, c, {}, fresh_) && id !in c && NamedAfter(rep, id)
    ensures SetStep(c0, rep, c[id := Template(rep)], {}, fresh_ + {id}) && id !in fresh_
  {
  }

  lemma ScanStep(pods: seq<Pod>, i: nat, wanted: int)
    requires i < |pods|
    ensures var c := Cut(pods[..i], wanted);
            if c < i || CountIn(pods[..i]) == wanted then
              && Cut(pods[..i + 1], wanted) == c
              && IdsOf(pods[..i + 1][c..]) == IdsOf(pods[..i][c..]) + {pods[i].id}
            else
              Cut(pods[..i + 1], wanted) == i + 1 && pods[..i + 1][i + 1..] == [] && pods[..i][c..] == []
    ensures CountIn(pods[..i + 1]) == CountIn(pods[..i]) + if Counted(pods[i].info.phase) then 1 else 0
  {
    assert pods[..i + 1][..i] == pods[..i];
    var c := Cut(pods[..i], wanted);
    assert pods[..i + 1][c..] == pods[..i][c..] + [pods[i]];
  }
}
