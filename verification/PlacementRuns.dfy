/** Pods and nodes over runs of requests: what is stored was asked for, and a pod is where it was scheduled last. */
module PlacementRuns {
  import opened BitmapAllocator
  import opened Placement
  import Decimal

  // ---------------------------------------------------------------------------
  // What is stored was asked for
  // ---------------------------------------------------------------------------

  /** The request added this pod: its name, under the UID and in the namespace of the request. */
  predicate AddsPod(q: Request, uid: Uid, stored: Pod) {
    && q.AddPodRequest? && q.uid == uid && stored == Pod(q.namespace, q.pod.name, uid) && q.namespace != ""
    && (q.pod.namespace == q.namespace || (q.pod.namespace == "" && q.namespace == "default"))
  }

  /** The request registered this node, with the address it gave, under a name of the node pool. */
  predicate AddsNode(q: Request, uid: Uid, stored: Node) {
    && q.RegisterRequest? && q.uid == uid && stored.uid == uid && stored.address == q.address
    && exists k: nat :: k < 64 && stored.name == "node-" + Decimal.Render(k)
  }

  lemma StepStores(s: Store, q: Request, s': Store, uid: Uid)
    requires Handled(s, q, s')
    ensures uid in s'.pods ==> AddsPod(q, uid, s'.pods[uid]) || (uid in s.pods && s.pods[uid] == s'.pods[uid])
    ensures uid in s'.nodes ==> AddsNode(q, uid, s'.nodes[uid]) || (uid in s.nodes && s.nodes[uid] == s'.nodes[uid])
  {
    if q.RegisterRequest? {
      RegisterStores(s, q, s', uid);
    } else if q.UnregisterRequest? {
      var r :| UnregisterStep(s, q.node, s', r);
    }
  }

  lemma RegisterStores(s: Store, q: Request, s': Store, uid: Uid)
    requires q.RegisterRequest? && Handled(s, q, s')
    ensures s'.pods == s.pods
    ensures uid in s'.nodes ==> AddsNode(q, uid, s'.nodes[uid]) || (uid in s.nodes && s.nodes[uid] == s'.nodes[uid])
  {
    var responses :| RegisterStep(s, q.address, q.validAddress, q.uid, s', responses);
    var bitmap := BitmapOf(s);
    if |bitmap| == NODE_POOL_SIZE / 8 && !Full(bitmap) {
      var k :| LeastFree(bitmap, k) && Registers(s, k, q.address, q.uid, s');
      assert k < 64 && s'.nodes[q.uid].name == "node-" + Decimal.Render(k);
    }
  }

  /** Every stored pod and every stored node is one that an earlier request brought. */
  lemma {:induction false} StoredWasAsked(states: seq<Store>, requests: seq<Request>, n: nat, uid: Uid)
    requires IsRun(states, requests) && n < |states|
    ensures uid in states[n].pods ==> exists i :: 0 <= i < n && AddsPod(requests[i], uid, states[n].pods[uid])
    ensures uid in states[n].nodes ==> exists i :: 0 <= i < n && AddsNode(requests[i], uid, states[n].nodes[uid])
  {
    if n > 0 {
      StoredWasAsked(states, requests, n - 1, uid);
      assert Handled(states[n - 1], requests[n - 1], states[n]);
      StepStores(states[n - 1], requests[n - 1], states[n], uid);
    }
  }

  /** A pod is added if and only if its namespace fits and nobody has its name, a nameless one being "example-pod". */
  lemma PodAddedIff(s: Store, namespace: string, pod: Pod, uid: Uid)
    ensures var (s', r) := AddPodResult(s, namespace, pod, uid);
            && (r == Created <==>
                  && namespace != "" && (pod.namespace == namespace || (pod.namespace == "" && namespace == "default"))
                  && PodKey(namespace, if pod.name == "" then "example-pod" else pod.name) !in s.podNames)
            && (r == Created ==> s'.pods == s.pods[uid := Pod(namespace, pod.name, uid)])
            && (r != Created ==> s' == s)
  {
  }

  // ---------------------------------------------------------------------------
  // A pod is where it was scheduled last
  // ---------------------------------------------------------------------------

  /** The request schedules the pod to the node. */
  predicate Assigns(s: Store, q: Request, uid: Uid, node: string) {
    q == ScheduleRequest(uid, node) && uid != "" && node != "" && uid in s.pods
  }

  predicate SameJoinedName(p: Pod, q: Pod) {
    p.namespace + "_" + p.name == q.namespace + "_" + q.name
  }

  /** The request takes the pod away from the node: it moves it, unregisters the node, or gives its key to another pod. */
  predicate Loses(s: Store, q: Request, uid: Uid, node: string)
    requires uid in s.pods
  {
    || (q.ScheduleRequest? && q.uid == uid && uid != "" && q.node != "" && q.node != node)
    || (q.UnregisterRequest? && q.node == node && node in s.nodeNames)
    || (q.ScheduleRequest? && q.uid != uid && q.uid != "" && q.node == node && q.uid in s.pods && SameJoinedName(s.pods[q.uid], s.pods[uid]))
  }

  lemma ScheduleMoves(s: Store, uid: Uid, q: Request, node: string)
    requires Placed(s) && MappedByName(s) && SlashFree(node) && uid in s.pods && q.ScheduleRequest? && Sound(q)
    ensures var s' := ScheduleResult(s, q.uid, q.node).0;
            ReportedBy(s', node, uid) <==> Assigns(s, q, uid, node) || (ReportedBy(s, node, uid) && !Loses(s, q, uid, node))
  {
    if q.uid != "" && q.node != "" && q.uid in s.pods {
      if q.uid == uid {
        MovedHere(s, uid, q.node, node);
      } else {
        OtherMoved(s, uid, q.uid, q.node, node);
      }
    }
  }

  lemma MovedHere(s: Store, uid: Uid, to: string, node: string)
    requires Placed(s) && SlashFree(node) && SlashFree(to) && uid in s.pods && uid != ""
    ensures ReportedBy(ScheduleResult(s, uid, to).0, node, uid) <==> node == to
  {
    ScheduleKeepsPlaced(s, uid, to);
    PlacedPartitions(ScheduleResult(s, uid, to).0, uid);
    var s' := ScheduleResult(s, uid, to).0;
    assert ReportedBy(s', to, uid);
    assert uid in s'.hostNodes.Values;
  }

  lemma OtherMoved(s: Store, uid: Uid, other: Uid, to: string, node: string)
    requires Placed(s) && MappedByName(s) && SlashFree(node) && SlashFree(to)
    requires uid in s.pods && other in s.pods && other != uid && other != ""
    ensures ReportedBy(ScheduleResult(s, other, to).0, node, uid) <==>
              ReportedBy(s, node, uid) && !(to == node && SameJoinedName(s.pods[other], s.pods[uid]))
  {
    var s' := ScheduleResult(s, other, to).0;
    ScheduleDisplacesIff(s, other, to, uid);
    ReportedAtKey(s, to, uid);
    KeysAgreeIff(to, s.pods[other], s.pods[uid]);
    SharedKey(s, to, other, uid);
    if !SameReports(s, s', uid) {
      assert ReportedBy(s, to, uid) && SameJoinedName(s.pods[other], s.pods[uid]);
      PlacedPartitions(s, uid);
      assert !Unscheduled(s, uid);
      assert ReportedBy(s, node, uid) ==> node == to;
      ScheduleKeepsPlaced(s, other, to);
      PlacedPartitions(s', uid);
    } else if to == node && SameJoinedName(s.pods[other], s.pods[uid]) {
      assert !ReportedBy(s, node, uid);
    }
  }

  /** One request: the pod is where it is scheduled now, or where it was unless it is taken away. */
  lemma StepReports(s: Store, q: Request, s': Store, uid: Uid, node: string)
    requires Placed(s) && MappedByName(s) && NodesNamed(s) && SlashFree(node) && Sound(q) && FreshUid(s, q) && Handled(s, q, s')
    requires uid in s'.pods
    ensures uid in s.pods ==>
              (ReportedBy(s', node, uid) <==> Assigns(s, q, uid, node) || (ReportedBy(s, node, uid) && !Loses(s, q, uid, node)))
    ensures uid !in s.pods ==> !ReportedBy(s', node, uid)
  {
    if q.ScheduleRequest? {
      ScheduleMoves(s, uid, q, node);
    } else if q.PodsByNodeRequest? {
      if q.node != "" { PruningIsInvisible(s, q.node); }
    } else if q.UnregisterRequest? {
      UnregisterReports(s, q.node, s', uid, node);
    } else {
      SameHosts(s, q, s', uid);
      SameMappings(s, s', uid, node);
    }
  }

  lemma SameHosts(s: Store, q: Request, s': Store, uid: Uid)
    requires (q.AddPodRequest? || q.DeletePodRequest? || q.RegisterRequest?) && FreshUid(s, q) && Handled(s, q, s') && uid in s'.pods
    ensures s'.hostNodes == s.hostNodes && (uid !in s.pods ==> uid !in s.hostNodes.Values)
  {
    if q.RegisterRequest? {
      var responses :| RegisterStep(s, q.address, q.validAddress, q.uid, s', responses);
    }
  }

  lemma SameMappings(s: Store, s': Store, uid: Uid, node: string)
    requires s'.hostNodes == s.hostNodes && uid in s'.pods
    ensures uid in s.pods ==> (ReportedBy(s', node, uid) <==> ReportedBy(s, node, uid))
    ensures uid !in s.hostNodes.Values ==> !ReportedBy(s', node, uid)
  {
  }

  lemma UnregisterReports(s: Store, n: string, s': Store, uid: Uid, node: string)
    requires Placed(s) && NodesNamed(s) && SlashFree(node) && uid in s'.pods && Handled(s, UnregisterRequest(n), s')
    ensures uid in s.pods
    ensures ReportedBy(s', node, uid) <==> ReportedBy(s, node, uid) && !(n == node && node in s.nodeNames)
  {
    var r :| UnregisterStep(s, n, s', r);
    assert s'.pods == s.pods;
    if n in s.nodeNames && n != "" {
      UnregisterKeepsNames(s, n, s', r);
      UnregisterFreesOwnPods(s, n, s', r);
    }
  }

  /** The i-th request scheduled the pod to the node; it has lived since and was not taken away before the n-th. */
  ghost predicate ScheduledSince(states: seq<Store>, requests: seq<Request>, i: int, n: nat, uid: Uid, node: string)
    requires |states| == |requests| + 1 && n < |states|
  {
    && 0 <= i < n && Assigns(states[i], requests[i], uid, node)
    && (forall j :: i < j <= n ==> uid in states[j].pods)
    && forall j :: i < j < n ==> !Loses(states[j], requests[j], uid, node)
  }

  /** One more request, for the history of one pod. */
  lemma SinceMore(states: seq<Store>, requests: seq<Request>, n: nat, m: nat, uid: Uid, node: string)
    requires |states| == |requests| + 1 && m == n + 1 < |states| && uid in states[m].pods
    ensures uid in states[n].pods ==>
              (Since(states, requests, m, uid, node) <==>
                 || Assigns(states[n], requests[n], uid, node)
                 || (Since(states, requests, n, uid, node) && !Loses(states[n], requests[n], uid, node)))
    ensures uid !in states[n].pods ==> !Since(states, requests, m, uid, node)
  {
    forall i | i != n
      ensures ScheduledSince(states, requests, i, m, uid, node) <==>
                (uid in states[n].pods && ScheduledSince(states, requests, i, n, uid, node) && !Loses(states[n], requests[n], uid, node))
    {
      assert ScheduledSince(states, requests, i, m, uid, node) ==> uid in states[n].pods;
    }
    assert ScheduledSince(states, requests, n, m, uid, node) <==> Assigns(states[n], requests[n], uid, node);
  }

  ghost predicate Since(states: seq<Store>, requests: seq<Request>, n: nat, uid: Uid, node: string)
    requires |states| == |requests| + 1 && n < |states|
  {
    exists i :: ScheduledSince(states, requests, i, n, uid, node)
  }

  /** What one request of a run does to the report of one pod. */
  ghost predicate Accounted(states: seq<Store>, requests: seq<Request>, n: nat, m: nat, uid: Uid, node: string)
    requires |states| == |requests| + 1 && m == n + 1 < |states|
  {
    uid in states[m].pods ==>
      && (uid in states[n].pods ==>
            (ReportedBy(states[m], node, uid) <==>
               || Assigns(states[n], requests[n], uid, node)
               || (ReportedBy(states[n], node, uid) && !Loses(states[n], requests[n], uid, node))))
      && (uid !in states[n].pods ==> !ReportedBy(states[m], node, uid))
  }

  lemma RequestAccounted(states: seq<Store>, requests: seq<Request>, n: nat, m: nat, uid: Uid, node: string)
    requires IsRun(states, requests) && m == n + 1 < |states| && SlashFree(node)
    ensures Accounted(states, requests, n, m, uid, node)
  {
    RunKeepsInvariants(states, requests, n);
    RunKeepsMapped(states, requests, n);
    assert Sound(requests[n]) && FreshUid(states[n], requests[n]) && Handled(states[n], requests[n], states[n + 1]);
    if uid in states[m].pods {
      StepReports(states[n], requests[n], states[m], uid, node);
    }
  }

  lemma {:induction false} AccountedIffScheduled(states: seq<Store>, requests: seq<Request>, n: nat, uid: Uid, node: string)
    requires |states| == |requests| + 1 && n < |states| && states[0].pods == map[] && uid in states[n].pods
    requires forall i: nat, j: nat :: i < n && j == i + 1 ==> Accounted(states, requests, i, j, uid, node)
    ensures ReportedBy(states[n], node, uid) <==> Since(states, requests, n, uid, node)
  {
    if n > 0 {
      var m := n - 1;
      assert Accounted(states, requests, m, n, uid, node);
      SinceMore(states, requests, m, n, uid, node);
      if uid in states[m].pods {
        AccountedIffScheduled(states, requests, m, uid, node);
      }
    }
  }

  /**
    In every reachable state a node reports a live pod if and only if some request scheduled the pod to it, after
    which the pod has not been deleted, nor moved, nor displaced by one with the same joined name, nor the node
    unregistered.
  */
  lemma ReportedIffScheduled(states: seq<Store>, requests: seq<Request>, n: nat, uid: Uid, node: string)
    requires IsRun(states, requests) && n < |states| && uid in states[n].pods && SlashFree(node)
    ensures ReportedBy(states[n], node, uid) <==> exists i :: ScheduledSince(states, requests, i, n, uid, node)
  {
    forall i: nat, j: nat | i < n && j == i + 1 ensures Accounted(states, requests, i, j, uid, node) {
      RequestAccounted(states, requests, i, j, uid, node);
    }
    AccountedIffScheduled(states, requests, n, uid, node);
  }

  /** What a node is told is exactly the live pods it reports, each once. */
  lemma ReportIsExact(states: seq<Store>, requests: seq<Request>, n: nat, node: string, pods: seq<Pod>)
    requires IsRun(states, requests) && n < |states| && ReportsPods(states[n], node, pods)
    ensures forall uid :: uid in states[n].pods ==> (states[n].pods[uid] in pods <==> ReportedBy(states[n], node, uid))
    ensures forall p :: p in pods ==> p.uid in states[n].pods && states[n].pods[p.uid] == p
    ensures forall i, j :: 0 <= i < j < |pods| ==> pods[i] != pods[j]
  {
    RunKeepsInvariants(states, requests, n);
    ReportOfPlaced(states[n], node, pods);
  }

  lemma ReportOfPlaced(s: Store, node: string, pods: seq<Pod>)
    requires Placed(s) && ReportsPods(s, node, pods)
    ensures forall uid :: uid in s.pods ==> (s.pods[uid] in pods <==> ReportedBy(s, node, uid))
    ensures forall p :: p in pods ==> p.uid in s.pods && s.pods[p.uid] == p
    ensures forall i, j :: 0 <= i < j < |pods| ==> pods[i] != pods[j]
  {
    var res := SubKeysValues(s.hostNodes, NodePrefix(node));
    var order :| ListsKeys(res, s.pods, pods, order) && forall k :: k in order <==> k in res && res[k] in s.pods;
    forall uid | uid in s.pods ensures s.pods[uid] in pods <==> ReportedBy(s, node, uid) {
      if s.pods[uid] in pods {
        var i :| 0 <= i < |pods| && pods[i] == s.pods[uid];
        assert res[order[i]] == uid && order[i] in s.hostNodes && s.hostNodes[order[i]] == uid;
      }
      if ReportedBy(s, node, uid) {
        var k :| k in s.hostNodes && NodePrefix(node) <= k && s.hostNodes[k] == uid;
        assert k in order;
        var i :| 0 <= i < |order| && order[i] == k;
        assert pods[i] == s.pods[uid];
      }
    }
  }
}
