/** Pods, nodes and the map between them in the API server's store (pkg/kubeapiserver/app/routine.go). */
module Placement {
  import opened Wrappers
  import opened Strings
  import opened BitmapAllocator
  import Decimal

  type Uid = string

  datatype Pod = Pod(namespace: string, name: string, uid: Uid)

  datatype Node = Node(name: string, uid: Uid, address: string)

  datatype PodKey = PodKey(namespace: string, name: string)

  const DEFAULT_NAMESPACE := "default"
  const DEFAULT_POD_NAME := "example-pod"

  /** What the store holds; the node-to-pod mappings are kept under their real keys. */
  datatype Store = Store(
    podNames: map<PodKey, Uid>, pods: map<Uid, Pod>, hostNodes: map<string, Uid>,
    nodeNames: map<string, Uid>, nodes: map<Uid, Node>, nodeBitmap: Option<seq<bv8>>)

  datatype Response = Created | StatusOk | BadRequest | NotFound | Conflict | ServerError

  function NodePrefix(node: string): string {
    "/registry/host-nodes/" + node + "/pods"
  }

  /** The part of a mapping's key that stands for the pod. */
  function JoinedName(pod: Pod): string {
    pod.namespace + "_" + pod.name
  }

  function HostKey(node: string, pod: Pod): string {
    NodePrefix(node) + "/" + JoinedName(pod)
  }

  /** etcd's prefix scan and prefix delete. */
  function SubKeysValues(m: map<string, Uid>, prefix: string): map<string, Uid> {
    map k | k in m && prefix <= k :: m[k]
  }

  function WithoutSubKeys(m: map<string, Uid>, prefix: string): map<string, Uid> {
    map k | k in m && !(prefix <= k) :: m[k]
  }

  function WithoutValue(m: map<string, Uid>, uid: Uid): map<string, Uid> {
    map k | k in m && m[k] != uid :: m[k]
  }

  // ---------------------------------------------------------------------------
  // Steps
  // ---------------------------------------------------------------------------

  function PodNameOf(pod: Pod): string {
    if pod.name == "" then DEFAULT_POD_NAME else pod.name
  }

  /** A nameless pod is indexed under the default name but keeps its empty one. */
  function AddPodResult(s: Store, namespace: string, pod: Pod, uid: Uid): (Store, Response) {
    if namespace == "" then (s, BadRequest)
    else if pod.namespace != namespace && !(pod.namespace == "" && namespace == DEFAULT_NAMESPACE) then (s, BadRequest)
    else
      var key := PodKey(namespace, PodNameOf(pod));
      if key in s.podNames then (s, Conflict)
      else (s.(podNames := s.podNames[key := uid], pods := s.pods[uid := Pod(namespace, pod.name, uid)]), Created)
  }

  function DeletePodResult(s: Store, namespace: string, name: string): (Store, Response) {
    var key := PodKey(namespace, name);
    if key !in s.podNames then (s, NotFound)
    else
      var uid := s.podNames[key];
      var s1 := s.(podNames := s.podNames - {key});
      if uid !in s.pods then (s1, NotFound) else (s1.(pods := s.pods - {uid}), StatusOk)
  }

  function ScheduleResult(s: Store, uid: Uid, node: string): (Store, Response) {
    if uid == "" || node == "" then (s, BadRequest)
    else if uid !in s.pods then (s, NotFound)
    else (s.(hostNodes := WithoutValue(s.hostNodes, uid)[HostKey(node, s.pods[uid]) := uid]), StatusOk)
  }

  /** Asking for a node's pods drops the mappings of dead ones. */
  function Pruned(s: Store, node: string): Store {
    s.(hostNodes := map k | k in s.hostNodes && (NodePrefix(node) <= k ==> s.hostNodes[k] in s.pods) :: s.hostNodes[k])
  }

  class Server {
    var store: Store

    constructor ()
      ensures store == Store(map[], map[], map[], map[], map[], None)
    {
      store := Store(map[], map[], map[], map[], map[], None);
    }

    method AddPod(namespace: string, pod: Pod, uid: Uid) returns (r: Response)
      modifies this
      ensures (store, r) == AddPodResult(old(store), namespace, pod, uid)
    {
      var podName := pod.name;
      if podName == "" {
        podName := DEFAULT_POD_NAME;
      }
      if namespace == "" {
        return BadRequest;
      }
      if pod.namespace == "" {
        if namespace != DEFAULT_NAMESPACE {
          return BadRequest;
        }
      } else if pod.namespace != namespace {
        return BadRequest;
      }
      var key := PodKey(namespace, podName);
      if key in store.podNames {
        return Conflict;
      }
      store := store.(podNames := store.podNames[key := uid]);
      store := store.(pods := store.pods[uid := Pod(namespace, pod.name, uid)]);
      return Created;
    }

    method DeletePod(namespace: string, name: string) returns (r: Response)
      modifies this
      ensures (store, r) == DeletePodResult(old(store), namespace, name)
    {
      var key := PodKey(namespace, name);
      if key !in store.podNames {
        return NotFound;
      }
      var podId := store.podNames[key];
      store := store.(podNames := store.podNames - {key});
      if podId !in store.pods {
        return NotFound;
      }
      store := store.(pods := store.pods - {podId});
      return StatusOk;
    }

    method SchedulePodToNode(podUid: Uid, nodeName: string) returns (r: Response)
      modifies this
      ensures (store, r) == ScheduleResult(old(store), podUid, nodeName)
    {
      if podUid == "" || nodeName == "" {
        return BadRequest;
      }
      if podUid !in store.pods {
        return NotFound;
      }
      var pod := store.pods[podUid];
      var mappings := store.hostNodes;
      var left := mappings;
      var rest := mappings.Keys;
      while rest != {}
        invariant rest <= mappings.Keys
        invariant left == map k | k in mappings && (k in rest || mappings[k] != podUid) :: mappings[k]
        invariant store == old(store)
        decreases rest
      {
        var k :| k in rest;
        rest := rest - {k};
        if mappings[k] == podUid {
          left := left - {k};
        }
      }
      assert left == WithoutValue(mappings, podUid);
      store := store.(hostNodes := left);
      store := store.(hostNodes := store.hostNodes[HostKey(nodeName, pod) := podUid]);
      return StatusOk;
    }

    /** The node's live pods, one per mapping; dead ones' mappings are collected first and deleted afterwards. */
    method GetPodsByNode(nodeName: string) returns (r: Response, pods: seq<Pod>)
      modifies this
      ensures nodeName == "" ==> r == NotFound && store == old(store)
      ensures nodeName != "" ==>
                && r == StatusOk && store == Pruned(old(store), nodeName)
                && ReportsPods(old(store), nodeName, pods)
    {
      if nodeName == "" {
        return NotFound, [];
      }
      var res := SubKeysValues(store.hostNodes, NodePrefix(nodeName));
      var keysToDelete;
      pods, keysToDelete := SplitLive(res, store.pods);
      var left := store.hostNodes;
      for i := 0 to |keysToDelete|
        invariant left == map k | k in store.hostNodes && k !in keysToDelete[..i] :: store.hostNodes[k]
        invariant store == old(store)
      {
        assert keysToDelete[..i + 1] == keysToDelete[..i] + [keysToDelete[i]];
        left := left - {keysToDelete[i]};
      }
      assert keysToDelete[..|keysToDelete|] == keysToDelete;
      store := store.(hostNodes := left);
      r := StatusOk;
    }

    static method SplitLive(res: map<string, Uid>, table: map<Uid, Pod>) returns (pods: seq<Pod>, dead: seq<string>)
      ensures forall k :: k in dead <==> k in res && res[k] !in table
      ensures ListsLive(res, table, pods)
    {
      pods, dead := [], [];
      ghost var order: seq<string> := [];
      var rest := res.Keys;
      while rest != {}
        invariant rest <= res.Keys
        invariant forall k :: k in dead <==> k in res && k !in rest && res[k] !in table
        invariant ListsKeys(res, table, pods, order)
        invariant forall k :: k in order <==> k in res && k !in rest && res[k] in table
        decreases rest
      {
        var k :| k in rest;
        rest := rest - {k};
        var podId := res[k];
        if podId !in table {
          dead := dead + [k];
          continue;
        }
        pods := pods + [table[podId]];
        order := order + [k];
      }
    }

    method GetUnscheduledPods() returns (pods: seq<Pod>)
      ensures forall p :: p in pods <==> exists u :: u in store.pods && store.pods[u] == p && p.uid !in store.hostNodes.Values
    {
      pods := [];
      var scheduledUidSet := store.hostNodes.Values;
      var rest := store.pods.Keys;
      while rest != {}
        invariant rest <= store.pods.Keys
        invariant forall p :: p in pods <==>
                    exists u :: u in store.pods && u !in rest && store.pods[u] == p && p.uid !in store.hostNodes.Values
        decreases rest
      {
        var u :| u in rest;
        rest := rest - {u};
        if store.pods[u].uid !in scheduledUidSet {
          pods := pods + [store.pods[u]];
        }
      }
    }

    /** An invalid address is reported, but the request is carried out all the same. */
    method RegisterNode(address: string, validAddress: bool, uid: Uid) returns (responses: seq<Response>)
      modifies this
      ensures RegisterStep(old(store), address, validAddress, uid, store, responses)
    {
      responses := [];
      if !validAddress {
        responses := responses + [BadRequest];
      }
      var stored := BitmapOf(store);
      store := store.(nodeBitmap := Some(stored));
      var bitmap := new bv8[|stored|](i requires 0 <= i < |stored| => stored[i]);
      assert bitmap[..] == stored;
      var nodeName := AllocNode(bitmap);
      if nodeName.Err? {
        return responses + [ServerError];
      }
      store := store.(nodeBitmap := Some(bitmap[..]));
      store := store.(nodes := store.nodes[uid := Node(nodeName.value, uid, address)]);
      store := store.(nodeNames := store.nodeNames[nodeName.value := uid]);
      responses := responses + [Created];
      assert Registers(old(store), SlotNamed(NODE_PREFIX, nodeName).value, address, uid, store);
    }

    method UnregisterNode(nodeName: string) returns (r: Response)
      modifies this
      ensures UnregisterStep(old(store), nodeName, store, r)
    {
      if nodeName == "" {
        return BadRequest;
      }
      if nodeName !in store.nodeNames {
        return NotFound;
      }
      var uid := store.nodeNames[nodeName];
      store := store.(hostNodes := WithoutSubKeys(store.hostNodes, NodePrefix(nodeName)));
      store := store.(nodeNames := store.nodeNames - {nodeName});
      store := store.(nodes := store.nodes - {uid});
      if store.nodeBitmap.None? {
        return ServerError;
      }
      var stored := store.nodeBitmap.value;
      var bitmap := new bv8[|stored|](i requires 0 <= i < |stored| => stored[i]);
      assert bitmap[..] == stored;
      var error := FreeNode(nodeName, bitmap);
      if error.Some? {
        return ServerError;
      }
      store := store.(nodeBitmap := Some(bitmap[..]));
      return StatusOk;
    }
  }

  /** One pod per key of `order`, in that order, each key once. */
  predicate ListsKeys(res: map<string, Uid>, table: map<Uid, Pod>, pods: seq<Pod>, order: seq<string>) {
    && |order| == |pods|
    && (forall i, j :: 0 <= i < j < |order| ==> order[i] != order[j])
    && forall i :: 0 <= i < |order| ==> order[i] in res && res[order[i]] in table && pods[i] == table[res[order[i]]]
  }

  ghost predicate ListsLive(res: map<string, Uid>, table: map<Uid, Pod>, pods: seq<Pod>) {
    exists order :: ListsKeys(res, table, pods, order) && forall k :: k in order <==> k in res && res[k] in table
  }

  ghost predicate ReportsPods(s: Store, node: string, pods: seq<Pod>) {
    ListsLive(SubKeysValues(s.hostNodes, NodePrefix(node)), s.pods, pods)
  }

  function NoNodes(): (r: seq<bv8>)
    ensures |r| == NODE_POOL_SIZE / 8 && Bits(r) == {}
  {
    seq(NODE_POOL_SIZE / 8, _ => 0)
  }

  function BitmapOf(s: Store): seq<bv8> {
    if s.nodeBitmap.None? then NoNodes() else s.nodeBitmap.value
  }

  function NodeName(k: nat): string {
    NODE_PREFIX + Decimal.Render(k)
  }

  predicate Registers(s: Store, k: nat, address: string, uid: Uid, s': Store) {
    && k < 8 * |BitmapOf(s)|
    && s' == s.(nodeBitmap := Some(WithBit(BitmapOf(s), k)),
                nodes := s.nodes[uid := Node(NodeName(k), uid, address)],
                nodeNames := s.nodeNames[NodeName(k) := uid])
  }

  ghost predicate RegisterStep(s: Store, address: string, validAddress: bool, uid: Uid, s': Store, responses: seq<Response>) {
    var bitmap := BitmapOf(s);
    var first := if validAddress then [] else [BadRequest];
    if |bitmap| != NODE_POOL_SIZE / 8 || Full(bitmap) then s' == s.(nodeBitmap := Some(bitmap)) && responses == first + [ServerError]
    else responses == first + [Created] && exists k :: LeastFree(bitmap, k) && Registers(s, k, address, uid, s')
  }

  function FreeableNode(bitmap: seq<bv8>, node: string): Option<nat> {
    match Decimal.ScanAfter(NODE_PREFIX, node)
    case None => None
    case Some(n) => if |bitmap| == NODE_POOL_SIZE / 8 && 0 <= n < NODE_POOL_SIZE && n in Bits(bitmap) then Some(n) else None
  }

  predicate UnregisterStep(s: Store, node: string, s': Store, r: Response) {
    if node == "" then s' == s && r == BadRequest
    else if node !in s.nodeNames then s' == s && r == NotFound
    else
      var gone := s.(hostNodes := WithoutSubKeys(s.hostNodes, NodePrefix(node)),
                     nodeNames := s.nodeNames - {node}, nodes := s.nodes - {s.nodeNames[node]});
      if s.nodeBitmap.None? then s' == gone && r == ServerError
      else
        var slot := FreeableNode(s.nodeBitmap.value, node);
        if slot.None? then s' == gone && r == ServerError
        else s' == gone.(nodeBitmap := Some(WithoutBit(s.nodeBitmap.value, slot.value))) && r == StatusOk
  }

  // ---------------------------------------------------------------------------
  // Which node reports a pod
  // ---------------------------------------------------------------------------

  predicate SlashFree(node: string) {
    node != "" && '/' !in node
  }

  /** A key of the node's mappings, told by its first segment. */
  predicate KeyOfNode(k: string, node: string) {
    NodePrefix(node) + "/" <= k
  }

  /** No slash-free name's prefix covers another one's keys: node-1 reads nothing of node-10. */
  lemma PrefixTellsNode(k: string, m: string, n: string)
    requires SlashFree(m) && SlashFree(n) && KeyOfNode(k, m)
    ensures NodePrefix(n) <= k <==> m == n
  {
    assert NodePrefix(m) <= NodePrefix(m) + "/";
    if NodePrefix(n) <= k {
      var root := "/registry/host-nodes/";
      var tail := k[|root|..];
      var a, b := tail[|m| + 1..], tail[|n| + 1..];
      assert NodePrefix(m) + "/" == root + m + "/pods" + "/";
      assert k[..|root|] == root && tail[..|m|] == m && tail[|m|] == '/' && tail == m + ['/'] + a;
      assert NodePrefix(n) == root + n + "/pods";
      assert tail[..|n|] == n && tail[|n|] == '/' && tail == n + ['/'] + b;
      IndexAfter(m, a, '/');
      IndexAfter(n, b, '/');
    }
  }

  /** The pod is alive and asking for the node's pods reports it. */
  ghost predicate ReportedBy(s: Store, node: string, uid: Uid) {
    uid in s.pods && exists k :: k in s.hostNodes && NodePrefix(node) <= k && s.hostNodes[k] == uid
  }

  predicate Unscheduled(s: Store, uid: Uid) {
    uid in s.pods && uid !in s.hostNodes.Values
  }

  /** A pod has at most one mapping, and every mapping belongs to a node with a slash-free name. */
  ghost predicate Placed(s: Store) {
    && (forall j, k :: j in s.hostNodes && k in s.hostNodes && s.hostNodes[j] == s.hostNodes[k] ==> j == k)
    && (forall k :: k in s.hostNodes ==> exists node :: SlashFree(node) && KeyOfNode(k, node))
    && (forall u :: u in s.pods ==> s.pods[u].uid == u)
  }

  /** Every live pod is reported unscheduled, or by exactly one node and not unscheduled. */
  ghost predicate Partitioned(s: Store, uid: Uid) {
    if Unscheduled(s, uid) then forall n :: SlashFree(n) ==> !ReportedBy(s, n, uid)
    else exists n :: SlashFree(n) && ReportedBy(s, n, uid) && forall m :: SlashFree(m) && ReportedBy(s, m, uid) ==> m == n
  }

  lemma PlacedPartitions(s: Store, uid: Uid)
    requires Placed(s) && uid in s.pods
    ensures Partitioned(s, uid)
  {
    if !Unscheduled(s, uid) {
      var k :| k in s.hostNodes && s.hostNodes[k] == uid;
      var n :| SlashFree(n) && KeyOfNode(k, n);
      PrefixTellsNode(k, n, n);
      assert ReportedBy(s, n, uid);
      forall m | SlashFree(m) && ReportedBy(s, m, uid) ensures m == n {
        var j :| j in s.hostNodes && NodePrefix(m) <= j && s.hostNodes[j] == uid;
        assert j == k;
        PrefixTellsNode(k, n, m);
      }
    }
  }

  lemma ScheduleKeepsPlaced(s: Store, uid: Uid, node: string)
    requires Placed(s) && SlashFree(node)
    ensures Placed(ScheduleResult(s, uid, node).0)
    ensures ScheduleResult(s, uid, node).1 == StatusOk ==> ReportedBy(ScheduleResult(s, uid, node).0, node, uid)
  {
    if uid in s.pods && uid != "" {
      var key := HostKey(node, s.pods[uid]);
      var s' := ScheduleResult(s, uid, node).0;
      assert KeyOfNode(key, node) && NodePrefix(node) <= key;
      assert key in s'.hostNodes && s'.hostNodes[key] == uid;
      forall k | k in s'.hostNodes ensures exists n :: SlashFree(n) && KeyOfNode(k, n) {
        if k != key { assert k in s.hostNodes; }
      }
    }
  }

  lemma PodStepsKeepPlaced(s: Store, namespace: string, pod: Pod, name: string, uid: Uid)
    requires Placed(s)
    ensures Placed(AddPodResult(s, namespace, pod, uid).0) && Placed(DeletePodResult(s, namespace, name).0)
  {
  }

  lemma PruneKeepsPlaced(s: Store, node: string)
    requires Placed(s)
    ensures Placed(Pruned(s, node))
  {
  }

  /** Lazy deletion drops only mappings of dead pods, so nobody's report changes. */
  lemma PruningIsInvisible(s: Store, node: string)
    ensures forall k :: k in s.hostNodes && k !in Pruned(s, node).hostNodes ==> NodePrefix(node) <= k && s.hostNodes[k] !in s.pods
    ensures forall k :: k in Pruned(s, node).hostNodes ==> k in s.hostNodes && Pruned(s, node).hostNodes[k] == s.hostNodes[k]
    ensures forall n, uid :: ReportedBy(Pruned(s, node), n, uid) <==> ReportedBy(s, n, uid)
    ensures forall uid :: Unscheduled(Pruned(s, node), uid) <==> Unscheduled(s, uid)
  {
    var s' := Pruned(s, node);
    forall n, uid ensures ReportedBy(s', n, uid) <==> ReportedBy(s, n, uid) {
      if uid in s.pods {
        if k :| k in s.hostNodes && NodePrefix(n) <= k && s.hostNodes[k] == uid {
          assert k in s'.hostNodes && s'.hostNodes[k] == uid;
        }
        if k :| k in s'.hostNodes && NodePrefix(n) <= k && s'.hostNodes[k] == uid {
          assert k in s.hostNodes && s.hostNodes[k] == uid;
        }
      }
    }
    forall uid ensures Unscheduled(s', uid) <==> Unscheduled(s, uid) {
      if k :| k in s.hostNodes && s.hostNodes[k] == uid && uid in s.pods {
        assert k in s'.hostNodes && s'.hostNodes[k] == uid;
      }
      if k :| k in s'.hostNodes && s'.hostNodes[k] == uid {
        assert k in s.hostNodes && s.hostNodes[k] == uid;
      }
    }
  }

  /** Unregistering a node unschedules exactly its own pods and changes no other node's report. */
  lemma UnregisterFreesOwnPods(s: Store, node: string, s': Store, r: Response)
    requires Placed(s) && SlashFree(node) && node in s.nodeNames && UnregisterStep(s, node, s', r)
    ensures Placed(s')
    ensures forall uid :: Unscheduled(s', uid) <==> Unscheduled(s, uid) || ReportedBy(s, node, uid)
    ensures forall m, uid :: SlashFree(m) ==> (ReportedBy(s', m, uid) <==> m != node && ReportedBy(s, m, uid))
  {
    assert s'.hostNodes == WithoutSubKeys(s.hostNodes, NodePrefix(node)) && s'.pods == s.pods;
    forall uid ensures Unscheduled(s', uid) <==> Unscheduled(s, uid) || ReportedBy(s, node, uid) {
      UnregisteredPod(s, node, s', uid);
    }
    forall m, uid | SlashFree(m) ensures ReportedBy(s', m, uid) <==> m != node && ReportedBy(s, m, uid) {
      UnregisteredReport(s, node, s', m, uid);
    }
  }

  lemma UnregisteredPod(s: Store, node: string, s': Store, uid: Uid)
    requires Placed(s) && s'.pods == s.pods && s'.hostNodes == WithoutSubKeys(s.hostNodes, NodePrefix(node))
    ensures Unscheduled(s', uid) <==> Unscheduled(s, uid) || ReportedBy(s, node, uid)
  {
    if k :| k in s'.hostNodes && s'.hostNodes[k] == uid {
      assert k in s.hostNodes && s.hostNodes[k] == uid && !(NodePrefix(node) <= k);
    }
    if k :| k in s.hostNodes && s.hostNodes[k] == uid {
      if !(NodePrefix(node) <= k) {
        assert k in s'.hostNodes && s'.hostNodes[k] == uid;
      }
    }
  }

  lemma UnregisteredReport(s: Store, node: string, s': Store, m: string, uid: Uid)
    requires Placed(s) && SlashFree(node) && SlashFree(m)
    requires s'.pods == s.pods && s'.hostNodes == WithoutSubKeys(s.hostNodes, NodePrefix(node))
    ensures ReportedBy(s', m, uid) <==> m != node && ReportedBy(s, m, uid)
  {
    if k :| k in s.hostNodes && NodePrefix(m) <= k && s.hostNodes[k] == uid {
      var n :| SlashFree(n) && KeyOfNode(k, n);
      PrefixTellsNode(k, n, m);
      PrefixTellsNode(k, n, node);
      if m != node { assert k in s'.hostNodes && s'.hostNodes[k] == uid; }
    }
    if k :| k in s'.hostNodes && NodePrefix(m) <= k && s'.hostNodes[k] == uid {
      assert k in s.hostNodes && s.hostNodes[k] == uid && !(NodePrefix(node) <= k);
    }
  }

  // ---------------------------------------------------------------------------
  // Node names
  // ---------------------------------------------------------------------------

  function Names(slots: set<nat>): set<string> {
    set k | k in slots :: NodeName(k)
  }

  /** The registered names are those whose bit is set. */
  ghost predicate NodesNamed(s: Store) {
    && |BitmapOf(s)| == NODE_POOL_SIZE / 8
    && s.nodeNames.Keys == Names(Bits(BitmapOf(s)))
  }

  lemma NamesWith(slots: set<nat>, k: nat)
    ensures Names(slots + {k}) == Names(slots) + {NodeName(k)}
    ensures k !in slots ==> NodeName(k) !in Names(slots)
    ensures Names(slots - {k}) == Names(slots) - {NodeName(k)}
  {
    forall j: nat | NodeName(j) == NodeName(k) ensures j == k { NodeNameInjective(j, k); }
  }

  lemma NodeNameReads(k: nat)
    ensures Decimal.ScanAfter(NODE_PREFIX, NodeName(k)) == Some(k)
    ensures SlashFree(NodeName(k))
  {
    Decimal.ScanReadsRender(NODE_PREFIX, k);
    var digits := Decimal.Render(k);
    assert forall i :: 0 <= i < |digits| ==> Decimal.IsDigit(digits[i]);
  }

  lemma NodeNameInjective(j: nat, k: nat)
    requires NodeName(j) == NodeName(k)
    ensures j == k
  {
    NodeNameReads(j);
    NodeNameReads(k);
  }

  /** A registration takes the least free name, valid address or not, and keeps every other name. */
  lemma RegisterKeepsNames(s: Store, address: string, validAddress: bool, uid: Uid, s': Store, responses: seq<Response>)
    requires NodesNamed(s) && RegisterStep(s, address, validAddress, uid, s', responses)
    ensures NodesNamed(s')
    ensures Created in responses <==> !Full(BitmapOf(s))
    ensures Created in responses ==>
              exists k :: LeastFree(BitmapOf(s), k) && NodeName(k) !in s.nodeNames && s'.nodeNames == s.nodeNames[NodeName(k) := uid]
    ensures BadRequest in responses <==> !validAddress
  {
    if !Full(BitmapOf(s)) {
      var k :| LeastFree(BitmapOf(s), k) && Registers(s, k, address, uid, s');
      BitsWithBit(BitmapOf(s), k);
      NamesWith(Bits(BitmapOf(s)), k);
      assert LeastFree(BitmapOf(s), k) && NodeName(k) !in s.nodeNames && s'.nodeNames == s.nodeNames[NodeName(k) := uid];
    }
  }

  /** A registered name can always be freed. */
  lemma UnregisterKeepsNames(s: Store, node: string, s': Store, r: Response)
    requires NodesNamed(s) && UnregisterStep(s, node, s', r)
    ensures NodesNamed(s')
    ensures node in s.nodeNames && node != "" ==> SlashFree(node) && r == StatusOk && s'.nodeNames == s.nodeNames - {node}
  {
    if node in s.nodeNames && node != "" {
      var k: nat :| k in Bits(BitmapOf(s)) && node == NodeName(k);
      NodeNameReads(k);
      BitsWithoutBit(BitmapOf(s), k);
      NamesWith(Bits(BitmapOf(s)), k);
    }
  }

  // ---------------------------------------------------------------------------
  // Names and tables
  // ---------------------------------------------------------------------------

  function KeyOf(pod: Pod): PodKey {
    PodKey(pod.namespace, PodNameOf(pod))
  }

  /** Pods and their names lead to each other. */
  predicate PodsIndexed(podNames: map<PodKey, Uid>, pods: map<Uid, Pod>) {
    && (forall u :: u in pods ==> KeyOf(pods[u]) in podNames && podNames[KeyOf(pods[u])] == u)
    && (forall k :: k in podNames ==> podNames[k] in pods && KeyOf(pods[podNames[k]]) == k)
  }

  /** Nodes and their names lead to each other. */
  predicate NodesIndexed(nodeNames: map<string, Uid>, nodes: map<Uid, Node>) {
    && (forall u :: u in nodes ==> nodes[u].name in nodeNames && nodeNames[nodes[u].name] == u)
    && (forall n :: n in nodeNames ==> nodeNames[n] in nodes && nodes[nodeNames[n]].name == n)
  }

  predicate Indexed(s: Store) {
    PodsIndexed(s.podNames, s.pods) && NodesIndexed(s.nodeNames, s.nodes)
  }

  /** The identifier a request brings is new: nothing stored mentions it. */
  predicate FreshUid(s: Store, q: Request) {
    (q.AddPodRequest? ==> q.uid !in s.pods && q.uid !in s.hostNodes.Values) && (q.RegisterRequest? ==> q.uid !in s.nodes)
  }

  lemma StepKeepsIndexed(s: Store, q: Request, s': Store)
    requires Indexed(s) && NodesNamed(s) && FreshUid(s, q) && Handled(s, q, s')
    ensures Indexed(s')
  {
    match q
    case AddPodRequest(namespace, pod, uid) => AddPodKeepsIndexed(s, namespace, pod, uid);
    case DeletePodRequest(namespace, name) => DeletePodKeepsIndexed(s, namespace, name);
    case RegisterRequest(address, validAddress, uid) =>
      var responses :| RegisterStep(s, address, validAddress, uid, s', responses);
      RegisterKeepsIndexed(s, address, validAddress, uid, s', responses);
    case UnregisterRequest(node) =>
      var r :| UnregisterStep(s, node, s', r);
      UnregisterKeepsIndexed(s, node, s', r);
    case _ =>
  }

  lemma AddPodKeepsIndexed(s: Store, namespace: string, pod: Pod, uid: Uid)
    requires Indexed(s) && uid !in s.pods
    ensures Indexed(AddPodResult(s, namespace, pod, uid).0)
  {
  }

  lemma DeletePodKeepsIndexed(s: Store, namespace: string, name: string)
    requires Indexed(s)
    ensures Indexed(DeletePodResult(s, namespace, name).0)
  {
  }

  lemma UnregisterKeepsIndexed(s: Store, node: string, s': Store, r: Response)
    requires Indexed(s) && UnregisterStep(s, node, s', r)
    ensures Indexed(s')
  {
  }

  lemma RegisterKeepsIndexed(s: Store, address: string, validAddress: bool, uid: Uid, s': Store, responses: seq<Response>)
    requires Indexed(s) && NodesNamed(s) && uid !in s.nodes && RegisterStep(s, address, validAddress, uid, s', responses)
    ensures Indexed(s')
  {
    if !Full(BitmapOf(s)) {
      var k :| LeastFree(BitmapOf(s), k) && Registers(s, k, address, uid, s');
      NamesWith(Bits(BitmapOf(s)), k);
      NewNodeIndexed(s.nodeNames, s.nodes, Node(NodeName(k), uid, address));
    }
  }

  lemma NewNodeIndexed(nodeNames: map<string, Uid>, nodes: map<Uid, Node>, n: Node)
    requires NodesIndexed(nodeNames, nodes) && n.name !in nodeNames && n.uid !in nodes
    ensures NodesIndexed(nodeNames[n.name := n.uid], nodes[n.uid := n])
  {
  }

  // ---------------------------------------------------------------------------
  // Runs
  // ---------------------------------------------------------------------------

  datatype Request =
    | AddPodRequest(namespace: string, pod: Pod, uid: Uid)
    | DeletePodRequest(namespace: string, name: string)
    | ScheduleRequest(uid: Uid, node: string)
    | PodsByNodeRequest(node: string)
    | RegisterRequest(address: string, validAddress: bool, uid: Uid)
    | UnregisterRequest(node: string)

  ghost predicate Handled(s: Store, q: Request, s': Store) {
    match q
    case AddPodRequest(namespace, pod, uid) => s' == AddPodResult(s, namespace, pod, uid).0
    case DeletePodRequest(namespace, name) => s' == DeletePodResult(s, namespace, name).0
    case ScheduleRequest(uid, node) => s' == ScheduleResult(s, uid, node).0
    case PodsByNodeRequest(node) => s' == if node == "" then s else Pruned(s, node)
    case RegisterRequest(address, validAddress, uid) =>
      exists responses :: RegisterStep(s, address, validAddress, uid, s', responses)
    case UnregisterRequest(node) => exists r :: UnregisterStep(s, node, s', r)
  }

  /** Pods are scheduled to nodes with slash-free names, as the registered ones are. */
  predicate Sound(q: Request) {
    q.ScheduleRequest? ==> SlashFree(q.node) || q.node == ""
  }

  ghost predicate IsRun(states: seq<Store>, requests: seq<Request>) {
    && |states| == |requests| + 1
    && states[0] == Store(map[], map[], map[], map[], map[], None)
    && forall i :: 0 <= i < |requests| ==> Sound(requests[i]) && FreshUid(states[i], requests[i]) && Handled(states[i], requests[i], states[i + 1])
  }

  lemma StepKeepsInvariants(s: Store, q: Request, s': Store)
    requires Placed(s) && NodesNamed(s) && Sound(q) && Handled(s, q, s')
    ensures Placed(s') && NodesNamed(s')
  {
    if q.RegisterRequest? {
      var responses :| RegisterStep(s, q.address, q.validAddress, q.uid, s', responses);
      RegisterKeepsBoth(s, q.address, q.validAddress, q.uid, s', responses);
    } else if q.UnregisterRequest? {
      var r :| UnregisterStep(s, q.node, s', r);
      UnregisterKeepsBoth(s, q.node, s', r);
    } else {
      PodRequestsKeepPlaced(s, q, s');
      SameNodes(s, s');
    }
  }

  lemma SameNodes(s: Store, s': Store)
    requires NodesNamed(s) && s'.nodeNames == s.nodeNames && s'.nodeBitmap == s.nodeBitmap
    ensures NodesNamed(s')
  {
  }

  lemma PodRequestsKeepPlaced(s: Store, q: Request, s': Store)
    requires Placed(s) && Sound(q) && Handled(s, q, s') && !q.RegisterRequest? && !q.UnregisterRequest?
    ensures Placed(s') && s'.nodeNames == s.nodeNames && s'.nodeBitmap == s.nodeBitmap
  {
    if q.AddPodRequest? {
      PodStepsKeepPlaced(s, q.namespace, q.pod, "", q.uid);
    } else if q.DeletePodRequest? {
      PodStepsKeepPlaced(s, q.namespace, Pod("", "", ""), q.name, "");
    } else if q.ScheduleRequest? {
      ScheduleRequestKeeps(s, q.uid, q.node);
    } else {
      PruneKeepsPlaced(s, q.node);
    }
  }

  lemma ScheduleRequestKeeps(s: Store, uid: Uid, node: string)
    requires Placed(s) && (SlashFree(node) || node == "")
    ensures var s' := ScheduleResult(s, uid, node).0;
            Placed(s') && s'.nodeNames == s.nodeNames && s'.nodeBitmap == s.nodeBitmap
  {
    if node != "" { ScheduleKeepsPlaced(s, uid, node); }
  }

  lemma RegisterKeepsBoth(s: Store, address: string, validAddress: bool, uid: Uid, s': Store, responses: seq<Response>)
    requires Placed(s) && NodesNamed(s) && RegisterStep(s, address, validAddress, uid, s', responses)
    ensures Placed(s') && NodesNamed(s')
  {
    RegisterKeepsNames(s, address, validAddress, uid, s', responses);
    assert s'.hostNodes == s.hostNodes && s'.pods == s.pods;
  }

  lemma UnregisterKeepsBoth(s: Store, node: string, s': Store, r: Response)
    requires Placed(s) && NodesNamed(s) && UnregisterStep(s, node, s', r)
    ensures Placed(s') && NodesNamed(s')
  {
    UnregisterKeepsNames(s, node, s', r);
    if node in s.nodeNames && node != "" {
      UnregisterFreesOwnPods(s, node, s', r);
    }
  }

  lemma {:induction false} RunKeepsInvariants(states: seq<Store>, requests: seq<Request>, n: nat)
    requires IsRun(states, requests) && n < |states|
    ensures Placed(states[n]) && NodesNamed(states[n])
  {
    if n > 0 {
      RunKeepsInvariants(states, requests, n - 1);
      StepKeepsInvariants(states[n - 1], requests[n - 1], states[n]);
    }
  }

  /** In every reachable state a pod or node is stored exactly when its name leads to it. */
  lemma {:induction false} NamesLeadToTables(states: seq<Store>, requests: seq<Request>, n: nat)
    requires IsRun(states, requests) && n < |states|
    ensures Indexed(states[n])
  {
    if n > 0 {
      NamesLeadToTables(states, requests, n - 1);
      RunKeepsInvariants(states, requests, n - 1);
      StepKeepsIndexed(states[n - 1], requests[n - 1], states[n]);
    }
  }

  /** In every reachable state each live pod is reported unscheduled or by exactly one node. */
  lemma LivePodsArePartitioned(states: seq<Store>, requests: seq<Request>, n: nat, uid: Uid)
    requires IsRun(states, requests) && n < |states| && uid in states[n].pods
    ensures Partitioned(states[n], uid)
  {
    RunKeepsInvariants(states, requests, n);
    PlacedPartitions(states[n], uid);
  }

  // ---------------------------------------------------------------------------
  // Two pods under one key
  // ---------------------------------------------------------------------------

  /** A live pod's mapping sits under a key made of a node's name and its own. */
  ghost predicate MappedByName(s: Store) {
    forall k :: k in s.hostNodes && s.hostNodes[k] in s.pods ==> HasHostKey(k, s.pods[s.hostNodes[k]])
  }

  ghost predicate HasHostKey(k: string, pod: Pod) {
    exists n :: SlashFree(n) && k == HostKey(n, pod)
  }

  lemma StepKeepsMapped(s: Store, q: Request, s': Store)
    requires MappedByName(s) && Sound(q) && FreshUid(s, q) && Handled(s, q, s')
    ensures MappedByName(s')
  {
    if q.ScheduleRequest? && q.uid in s.pods && q.uid != "" && q.node != "" {
      assert HasHostKey(HostKey(q.node, s.pods[q.uid]), s.pods[q.uid]);
    }
    forall k | k in s'.hostNodes && s'.hostNodes[k] in s'.pods ensures HasHostKey(k, s'.pods[s'.hostNodes[k]]) {
      if k in s.hostNodes && s.hostNodes[k] == s'.hostNodes[k] {
        assert s.hostNodes[k] in s.hostNodes.Values;
      }
    }
  }

  lemma {:induction false} RunKeepsMapped(states: seq<Store>, requests: seq<Request>, n: nat)
    requires IsRun(states, requests) && n < |states|
    ensures MappedByName(states[n])
  {
    if n > 0 {
      RunKeepsMapped(states, requests, n - 1);
      StepKeepsMapped(states[n - 1], requests[n - 1], states[n]);
    }
  }

  /** Whoever asks gets the same answer about the pod. */
  ghost predicate SameReports(s: Store, s': Store, uid: Uid) {
    && (Unscheduled(s', uid) <==> Unscheduled(s, uid))
    && forall n :: SlashFree(n) ==> (ReportedBy(s', n, uid) <==> ReportedBy(s, n, uid))
  }

  /** Scheduling a pod overwrites exactly the mapping under its new key. */
  lemma ScheduleDisplacesIff(s: Store, uid: Uid, node: string, other: Uid)
    requires Placed(s) && SlashFree(node) && uid != "" && uid in s.pods && other in s.pods && other != uid
    ensures var s', key := ScheduleResult(s, uid, node).0, HostKey(node, s.pods[uid]);
            && (SameReports(s, s', other) <==> !(key in s.hostNodes && s.hostNodes[key] == other))
            && (SameReports(s, s', other) || Unscheduled(s', other))
  {
    var s', key := ScheduleResult(s, uid, node).0, HostKey(node, s.pods[uid]);
    if key in s.hostNodes && s.hostNodes[key] == other {
      forall k | k in s'.hostNodes ensures s'.hostNodes[k] != other {
        if k != key { assert k in s.hostNodes && s.hostNodes[k] == s'.hostNodes[k]; }
      }
      NowUnscheduled(s, s', key, other);
    } else {
      forall k ensures k in s.hostNodes && s.hostNodes[k] == other <==> k in s'.hostNodes && s'.hostNodes[k] == other {
      }
      SameMappingsSameReports(s, s', other);
    }
  }

  lemma NowUnscheduled(s: Store, s': Store, key: string, other: Uid)
    requires s'.pods == s.pods && other in s.pods && key in s.hostNodes && s.hostNodes[key] == other
    requires forall k :: k in s'.hostNodes ==> s'.hostNodes[k] != other
    ensures Unscheduled(s', other) && !SameReports(s, s', other)
  {
    assert other in s.hostNodes.Values;
  }

  lemma SameMappingsSameReports(s: Store, s': Store, other: Uid)
    requires s'.pods == s.pods
    requires forall k :: k in s.hostNodes && s.hostNodes[k] == other <==> k in s'.hostNodes && s'.hostNodes[k] == other
    ensures SameReports(s, s', other)
  {
    forall n ensures ReportedBy(s', n, other) <==> ReportedBy(s, n, other) {
    }
  }

  /** A reported pod's mapping is the one its name leads to. */
  lemma ReportedAtKey(s: Store, node: string, uid: Uid)
    requires MappedByName(s) && SlashFree(node) && uid in s.pods
    ensures ReportedBy(s, node, uid) <==> HostKey(node, s.pods[uid]) in s.hostNodes && s.hostNodes[HostKey(node, s.pods[uid])] == uid
  {
    var key := HostKey(node, s.pods[uid]);
    assert NodePrefix(node) <= NodePrefix(node) + "/" <= key;
    if k :| k in s.hostNodes && NodePrefix(node) <= k && s.hostNodes[k] == uid {
      var n :| SlashFree(n) && k == HostKey(n, s.pods[uid]);
      assert KeyOfNode(k, n);
      PrefixTellsNode(k, n, node);
    }
  }

  lemma KeysAgreeIff(node: string, p: Pod, q: Pod)
    ensures HostKey(node, p) == HostKey(node, q) <==> JoinedName(p) == JoinedName(q)
  {
    var n := |NodePrefix(node) + "/"|;
    assert HostKey(node, p)[n..] == JoinedName(p) && HostKey(node, q)[n..] == JoinedName(q);
  }

  /**
    In every reachable state, scheduling a pod to a node changes what is reported about another live pod if and
    only if that node has it and both have the same joined name; the other one is then unscheduled.
  */
  lemma SchedulingDisplacesIff(states: seq<Store>, requests: seq<Request>, n: nat, uid: Uid, node: string, other: Uid)
    requires IsRun(states, requests) && n < |states| && SlashFree(node)
    requires uid in states[n].pods && other in states[n].pods && uid != "" && uid != other
    ensures var s := states[n];
            var s' := ScheduleResult(s, uid, node).0;
            && (!SameReports(s, s', other) <==> ReportedBy(s, node, other) && JoinedName(s.pods[uid]) == JoinedName(s.pods[other]))
            && (SameReports(s, s', other) || Unscheduled(s', other))
  {
    var s := states[n];
    RunKeepsInvariants(states, requests, n);
    RunKeepsMapped(states, requests, n);
    ScheduleDisplacesIff(s, uid, node, other);
    ReportedAtKey(s, node, other);
    KeysAgreeIff(node, s.pods[uid], s.pods[other]);
    SharedKey(s, node, uid, other);
  }

  lemma SharedKey(s: Store, node: string, uid: Uid, other: Uid)
    requires MappedByName(s) && SlashFree(node) && uid in s.pods && other in s.pods
    ensures var key := HostKey(node, s.pods[uid]);
            key in s.hostNodes && s.hostNodes[key] == other ==> key == HostKey(node, s.pods[other])
  {
    var key := HostKey(node, s.pods[uid]);
    if key in s.hostNodes && s.hostNodes[key] == other {
      var n :| SlashFree(n) && key == HostKey(n, s.pods[other]);
      assert NodePrefix(node) <= NodePrefix(node) + "/" <= key && KeyOfNode(key, n);
      PrefixTellsNode(key, n, node);
    }
  }

  /** Joined names tell pods apart as long as no namespace has an underscore, and not in general. */
  lemma JoinedNameTells(p: Pod, q: Pod)
    ensures '_' !in p.namespace && '_' !in q.namespace ==>
              (JoinedName(p) == JoinedName(q) <==> p.namespace == q.namespace && p.name == q.name)
    ensures JoinedName(Pod("a_b", "c", p.uid)) == JoinedName(Pod("a", "b_c", q.uid))
  {
    assert JoinedName(Pod("a_b", "c", p.uid)) == "a_b_c" == JoinedName(Pod("a", "b_c", q.uid));
    if '_' !in p.namespace && '_' !in q.namespace {
      IndexAfter(p.namespace, p.name, '_');
      IndexAfter(q.namespace, q.name, '_');
      assert JoinedName(p) == p.namespace + ['_'] + p.name && JoinedName(q) == q.namespace + ['_'] + q.name;
      assert JoinedName(p)[..|p.namespace|] == p.namespace && JoinedName(q)[..|q.namespace|] == q.namespace;
      assert JoinedName(p)[|p.namespace| + 1..] == p.name && JoinedName(q)[|q.namespace| + 1..] == q.name;
    }
  }
}
