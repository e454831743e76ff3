/** Which sequences of polls can deadlock the kubelet: exactly those in which a pod UID comes back. */
module KubeletDeadlock {
  import opened KubeletTypes
  import opened PodWorkers

  // ---- Stuck states ------------------------------------------------------------------------------

  /** The main loop waits for room in a channel whose worker waits for the mutex the main loop holds. */
  predicate Stuck(s: State) {
    Blocked(s) && s.lock.ByMain? && s.workers[s.main.pc.worker].pc.AwaitLock?
  }

  lemma StepKeepsLockOk(s: State, a: Action)
    requires LockOk(s) && Enabled(s, a)
    ensures LockOk(Fire(s, a))
  {
    if a.WorkerTake? || a.WorkerFinish? || a.WorkerLock? || a.WorkerRetire? {
      WorkerKeepsLockOk(s, a);
    }
  }

  lemma WorkerKeepsLockOk(s: State, a: Action)
    requires LockOk(s) && Enabled(s, a) && (a.WorkerTake? || a.WorkerFinish? || a.WorkerLock? || a.WorkerRetire?)
    ensures LockOk(Fire(s, a))
  {
  }

  lemma StepKeepsStuck(s: State, a: Action)
    requires LockOk(s) && Stuck(s) && Enabled(s, a)
    ensures Stuck(Fire(s, a)) && Fire(s, a).main == s.main
  {
  }

  lemma {:induction false} StuckStays(s: State, acts: seq<Action>)
    requires LockOk(s) && ValidRun(s, acts)
    ensures LockOk(After(s, acts))
    ensures Stuck(s) ==> Stuck(After(s, acts)) && After(s, acts).main == s.main
    decreases |acts|
  {
    if acts != [] {
      StepKeepsLockOk(s, acts[0]);
      if Stuck(s) {
        StepKeepsStuck(s, acts[0]);
      }
      StuckStays(Fire(s, acts[0]), acts[1..]);
    }
  }

  /** Once the kubelet is stuck, after whatever run, no step of anybody ever frees it. */
  lemma StuckForever(acts: seq<Action>, more: seq<Action>)
    requires ValidRun(Initial, acts) && Stuck(After(Initial, acts)) && ValidRun(After(Initial, acts), more)
    ensures Stuck(After(After(Initial, acts), more))
    ensures After(After(Initial, acts), more).main == After(Initial, acts).main
  {
    StuckStays(Initial, acts);
    StuckStays(After(Initial, acts), more);
  }

  // ---- Runs and the polls they take --------------------------------------------------------------

  lemma {:induction false} PollsAppend(a: seq<Action>, b: seq<Action>)
    ensures PollsOf(a + b) == PollsOf(a) + PollsOf(b)
  {
    if a == [] {
      assert a + b == b;
    } else {
      PollsAppend(a[1..], b);
      assert (a + b)[1..] == a[1..] + b;
      Regroup(PollOf(a[0]), PollsOf(a[1..]), PollsOf(b));
    }
  }

  /** Some run from s takes exactly these polls and ends in t. */
  ghost predicate Reaches(s: State, polls: seq<seq<Pod>>, t: State) {
    exists acts :: ValidRun(s, acts) && After(s, acts) == t && PollsOf(acts) == polls
  }

  lemma Stay(s: State)
    ensures Reaches(s, [], s)
  {
    assert ValidRun(s, []) && After(s, []) == s && PollsOf([]) == [];
  }

  lemma Step(s: State, a: Action)
    requires Enabled(s, a)
    ensures Reaches(s, PollOf(a), Fire(s, a))
  {
    assert [a][1..] == [];
    assert ValidRun(Fire(s, a), []) && After(Fire(s, a), []) == Fire(s, a) && PollsOf([]) == [];
    assert ValidRun(s, [a]) && After(s, [a]) == Fire(s, a);
    assert PollsOf([a]) == PollOf(a) + [];
  }

  lemma Then(s: State, p: seq<seq<Pod>>, t: State, q: seq<seq<Pod>>, u: State)
    requires Reaches(s, p, t) && Reaches(t, q, u)
    ensures Reaches(s, p + q, u)
  {
    var a :| ValidRun(s, a) && After(s, a) == t && PollsOf(a) == p;
    var b :| ValidRun(t, b) && After(t, b) == u && PollsOf(b) == q;
    Concatenated(s, a, b);
    PollsAppend(a, b);
  }

  /** One more step that is not a poll. */
  lemma ThenStep(s: State, p: seq<seq<Pod>>, t: State, a: Action)
    requires Reaches(s, p, t) && Enabled(t, a) && !a.Poll?
    ensures Reaches(s, p, Fire(t, a))
  {
    Step(t, a);
    Then(s, p, t, [], Fire(t, a));
    assert p + [] == p;
  }

  // ---- Polls in which a UID comes back -----------------------------------------------------------

  predicate ComesBack(polls: seq<seq<Pod>>, i: nat, j: nat, k: nat, u: Uid) {
    i < j < k < |polls| && u in UidsOf(polls[i]) && u !in UidsOf(polls[j]) && u in UidsOf(polls[k])
  }

  /** Some UID is listed, then missing, then listed again. */
  ghost predicate Returns(polls: seq<seq<Pod>>) {
    exists i: nat, j: nat, k: nat, u :: ComesBack(polls, i, j, k, u)
  }

  ghost predicate NoDuplicates(polls: seq<seq<Pod>>) {
    forall i :: 0 <= i < |polls| ==> Distinct(polls[i])
  }

  function Ever(polls: seq<seq<Pod>>): set<Uid> {
    set p, q | p in polls && q in p :: q.uid
  }

  function Last(polls: seq<seq<Pod>>): seq<Pod> {
    if polls == [] then [] else polls[|polls| - 1]
  }

  lemma EverStep(h: seq<seq<Pod>>, p: seq<Pod>)
    ensures Ever(h + [p]) == Ever(h) + UidsOf(p)
  {
    assert forall x :: x in h + [p] <==> x in h || x == p;
  }

  lemma EverAt(h: seq<seq<Pod>>, u: Uid) returns (i: nat)
    requires u in Ever(h)
    ensures i < |h| && u in UidsOf(h[i])
  {
    var p, q :| p in h && q in p && q.uid == u;
    i :| 0 <= i < |h| && h[i] == p;
  }

  lemma PrefixReturns(h: seq<seq<Pod>>, more: seq<seq<Pod>>)
    ensures Returns(h) ==> Returns(h + more)
  {
    if Returns(h) {
      var i: nat, j: nat, k: nat, u :| ComesBack(h, i, j, k, u);
      assert ComesBack(h + more, i, j, k, u);
    }
  }

  /** A UID listed before, but not in the last poll, comes back with a poll that lists it. */
  lemma ListedAgain(h: seq<seq<Pod>>, p: seq<Pod>, u: Uid)
    ensures u in Ever(h) && u !in UidsOf(Last(h)) && u in UidsOf(p) ==> Returns(h + [p])
  {
    if u in Ever(h) && u !in UidsOf(Last(h)) && u in UidsOf(p) {
      var i := EverAt(h, u);
      var all := h + [p];
      assert all[i] == h[i] && all[|h| - 1] == Last(h) && all[|h|] == p;
      assert ComesBack(all, i, |h| - 1, |h|, u);
    }
  }

  /** Without returns a poll keeps the UIDs fresh. */
  lemma NoReturnIsFresh(s: State, h: seq<seq<Pod>>, p: seq<Pod>, q: seq<seq<Pod>>)
    requires s.latest == Last(h) && s.announced == Ever(h) && Distinct(p)
    requires !Returns(h + [p] + q)
    ensures PollKeepsUidsFresh(s, Poll(p))
  {
    PrefixReturns(h + [p], q);
    forall u | u in UidsOf(p) && u in s.announced ensures u in UidsOf(s.latest) {
      ListedAgain(h, p, u);
    }
  }

  lemma {:induction false} NoReturnBehavesWell(s: State, h: seq<seq<Pod>>, acts: seq<Action>, q: seq<seq<Pod>>)
    requires ValidRun(s, acts) && s.latest == Last(h) && s.announced == Ever(h)
    requires PollsOf(acts) <= q && NoDuplicates(q) && !Returns(h + q)
    ensures WellBehaved(s, acts)
    decreases |acts|
  {
    if acts != [] {
      var a := acts[0];
      if a.Poll? {
        assert q[0] == a.pods && q == [a.pods] + q[1..];
        assert h + q == h + [a.pods] + q[1..];
        NoReturnIsFresh(s, h, a.pods, q[1..]);
        EverStep(h, a.pods);
        NoReturnBehavesWell(Fire(s, a), h + [a.pods], acts[1..], q[1..]);
      } else {
        SamePolls(s, a);
        NoReturnBehavesWell(Fire(s, a), h, acts[1..], q);
      }
    }
  }

  lemma SamePolls(s: State, a: Action)
    requires Enabled(s, a) && !a.Poll?
    ensures Fire(s, a).latest == s.latest && Fire(s, a).announced == s.announced
  {
  }

  /** As long as no UID comes back, no interleaving is ever stuck. */
  lemma NoReturnNoDeadlock(acts: seq<Action>, polls: seq<seq<Pod>>)
    requires ValidRun(Initial, acts) && PollsOf(acts) <= polls && NoDuplicates(polls) && !Returns(polls)
    ensures !Stuck(After(Initial, acts))
  {
    assert [] + polls == polls;
    NoReturnBehavesWell(Initial, [], acts, polls);
    BlockedWorkerCanStep(acts);
  }

  // ---- The main loop alone -----------------------------------------------------------------------

  /** Everything in the channel table is a worker that has not started yet. */
  ghost predicate Unstarted(s: State) {
    forall u :: u in s.podUpdates ==>
      && s.podUpdates[u] < |s.workers|
      && s.workers[s.podUpdates[u]].uid == u
      && s.workers[s.podUpdates[u]].pc.Receiving?
  }

  datatype Slot = NoSlot | Queue(items: seq<Item>)

  /** What waits in the channel of a UID. */
  function SlotOf(s: State, u: Uid): Slot {
    if u in s.podUpdates && s.podUpdates[u] < |s.workers| then Queue(s.workers[s.podUpdates[u]].queue) else NoSlot
  }

  /** What UpdatePod(Create) and UpdatePod(Kill) leave in it. */
  function SlotAfter(batch: BatchOp, u: Uid, slot: Slot): Slot {
    match batch
    case Add => if slot.NoSlot? then Queue([Item(Create, u)]) else slot
    case Delete => if slot.NoSlot? then slot else Queue(slot.items + [Item(Kill, u)])
  }

  /** Between two pods of a batch, or between two events, with the mutex free. */
  predicate Between(s: State) {
    s.lock.Free? && (if s.main.rest == [] then s.main.pc.Select? else s.main.pc.NextPod?)
  }

  /** The parts of the state that handling a batch leaves alone. */
  predicate SameInputs(s: State, t: State) {
    t.latest == s.latest && t.adds == s.adds && t.dels == s.dels && t.announced == s.announced
  }

  ghost predicate PodHandled(s: State, t: State) {
    && s.main.rest != []
    && var u := s.main.rest[0].uid;
       && t.main == Main(if s.main.rest[1..] == [] then Select else NextPod, s.main.batch, s.main.rest[1..])
       && t.lock.Free? && SameInputs(s, t) && Unstarted(t)
       && t.podManager.Keys == (if s.main.batch.Add? then s.podManager.Keys + {u} else s.podManager.Keys - {u})
       && forall v :: SlotOf(t, v) == if v == u then SlotAfter(s.main.batch, u, SlotOf(s, u)) else SlotOf(s, v)
  }

  function UpdateItem(batch: BatchOp, u: Uid): Item {
    Item(if batch.Add? then Create else Kill, u)
  }

  /** The main loop has taken the pod and looked up its channel, with the mutex in its hand. */
  ghost predicate PodLookedUp(s: State, c: State) {
    && s.main.rest != []
    && var u, item := s.main.rest[0].uid, UpdateItem(s.main.batch, s.main.rest[0].uid);
       && c.main.rest == s.main.rest[1..] && c.main.batch == s.main.batch && c.lock.ByMain?
       && SameInputs(s, c) && Unstarted(c)
       && c.podManager.Keys == (if s.main.batch.Add? then s.podManager.Keys + {u} else s.podManager.Keys - {u})
       && (forall v :: v != u ==> SlotOf(c, v) == SlotOf(s, v))
       && (c.main.pc.Unlocking? || c.main.pc.Sending?)
       && (c.main.pc.Unlocking? ==> SlotOf(c, u) == SlotAfter(s.main.batch, u, SlotOf(s, u)))
       && (c.main.pc.Sending? ==>
             && c.main.pc.item == item && u in c.podUpdates && c.main.pc.worker == c.podUpdates[u] < |c.workers|
             && |SlotOf(c, u).items| < QUEUE_CAPACITY
             && SlotAfter(s.main.batch, u, SlotOf(s, u)) == Queue(SlotOf(c, u).items + [item]))
  }

  /** Taking a pod, the mutex and the look into the table are enabled one after the other. */
  lemma LookUpPod(s: State)
    requires Between(s) && Unstarted(s) && s.main.rest != []
    requires var slot := SlotOf(s, s.main.rest[0].uid); slot.Queue? ==> |slot.items| < QUEUE_CAPACITY
    ensures Enabled(s, MainNext) && Enabled(Fire(s, MainNext), MainLock)
    ensures var b := Fire(Fire(s, MainNext), MainLock);
            Enabled(b, MainLookup) && PodLookedUp(s, Fire(b, MainLookup))
  {
    var b := Fire(Fire(s, MainNext), MainLock);
    LookedUp(s, b, s.main.rest[0].uid);
  }

  /** The worker the main loop is about to send to is the one of the UID, freshly started if there was none. */
  lemma LookedUp(s: State, b: State, u: Uid)
    requires Unstarted(s) && b.main.pc.Locked? && b.main.pc.item.uid == u
    requires b.podUpdates == s.podUpdates && b.workers == s.workers
    ensures var c := Lookup(b);
            && Unstarted(c)
            && (forall v :: v != u ==> SlotOf(c, v) == SlotOf(s, v))
            && (c.main.pc.Unlocking? ==>
                  SlotOf(c, u) == SlotOf(s, u) && (b.main.pc.item.op.Create? <==> SlotOf(s, u).Queue?))
            && (c.main.pc.Sending? ==>
                  && u in c.podUpdates && c.main.pc.worker == c.podUpdates[u] < |c.workers|
                  && (b.main.pc.item.op.Create? <==> SlotOf(s, u).NoSlot?)
                  && SlotOf(c, u) == (if SlotOf(s, u).NoSlot? then Queue([]) else SlotOf(s, u)))
  {
  }

  /** Sending, if there is a channel to send to, and releasing the mutex finish the pod. */
  lemma FinishPod(s: State, c: State)
    requires PodLookedUp(s, c)
    ensures c.main.pc.Unlocking? ==> Enabled(c, MainUnlock) && PodHandled(s, Fire(c, MainUnlock))
    ensures c.main.pc.Sending? ==>
              && Enabled(c, MainSend) && Enabled(Fire(c, MainSend), MainUnlock)
              && PodHandled(s, Fire(Fire(c, MainSend), MainUnlock))
  {
    if c.main.pc.Sending? {
      SentTo(c, Fire(c, MainSend), s.main.rest[0].uid);
    }
  }

  lemma ThreeSteps(s: State)
    requires Enabled(s, MainNext) && Enabled(Fire(s, MainNext), MainLock)
    requires Enabled(Fire(Fire(s, MainNext), MainLock), MainLookup)
    ensures Reaches(s, [], Fire(Fire(Fire(s, MainNext), MainLock), MainLookup))
  {
    Step(s, MainNext);
    ThenStep(s, [], Fire(s, MainNext), MainLock);
    ThenStep(s, [], Fire(Fire(s, MainNext), MainLock), MainLookup);
  }

  /** The main loop handles one pod of its batch without any help from the workers. */
  lemma HandlePod(s: State) returns (t: State)
    requires Between(s) && Unstarted(s) && s.main.rest != []
    requires var slot := SlotOf(s, s.main.rest[0].uid); slot.Queue? ==> |slot.items| < QUEUE_CAPACITY
    ensures Reaches(s, [], t) && PodHandled(s, t)
  {
    LookUpPod(s);
    ThreeSteps(s);
    var c := Fire(Fire(Fire(s, MainNext), MainLock), MainLookup);
    FinishPod(s, c);
    t := Released(s, c);
  }

  lemma Released(s: State, c: State) returns (t: State)
    requires Reaches(s, [], c)
    requires c.main.pc.Unlocking? || c.main.pc.Sending?
    requires c.main.pc.Unlocking? ==> Enabled(c, MainUnlock)
    requires c.main.pc.Sending? ==> Enabled(c, MainSend) && Enabled(Fire(c, MainSend), MainUnlock)
    ensures Reaches(s, [], t)
    ensures c.main.pc.Unlocking? ==> t == Fire(c, MainUnlock)
    ensures c.main.pc.Sending? ==> t == Fire(Fire(c, MainSend), MainUnlock)
  {
    if c.main.pc.Sending? {
      ThenStep(s, [], c, MainSend);
      ThenStep(s, [], Fire(c, MainSend), MainUnlock);
      t := Fire(Fire(c, MainSend), MainUnlock);
    } else {
      ThenStep(s, [], c, MainUnlock);
      t := Fire(c, MainUnlock);
    }
  }

  lemma SentTo(c: State, d: State, u: Uid)
    requires Unstarted(c) && c.main.pc.Sending? && u in c.podUpdates && c.main.pc.worker == c.podUpdates[u] < |c.workers|
    requires |c.workers[c.main.pc.worker].queue| < QUEUE_CAPACITY && d == Fire(c, MainSend)
    ensures Unstarted(d) && SlotOf(d, u) == Queue(SlotOf(c, u).items + [c.main.pc.item])
    ensures forall v :: v != u ==> SlotOf(d, v) == SlotOf(c, v)
  {
  }

  // ---- Whole batches -----------------------------------------------------------------------------

  /** The batch is handled: one Create or Kill per pod, as the table allows, and nothing else has moved. */
  ghost predicate BatchHandled(s: State, batch: BatchOp, pods: seq<Pod>, t: State) {
    && t.main.pc.Select? && t.main.rest == [] && t.lock.Free? && SameInputs(s, t) && Unstarted(t)
    && t.podManager.Keys == (if batch.Add? then s.podManager.Keys + UidsOf(pods) else s.podManager.Keys - UidsOf(pods))
    && forall v :: SlotOf(t, v) == if v in UidsOf(pods) then SlotAfter(batch, v, SlotOf(s, v)) else SlotOf(s, v)
  }

  ghost predicate Room(s: State, pods: seq<Pod>) {
    forall v :: v in UidsOf(pods) && SlotOf(s, v).Queue? ==> |SlotOf(s, v).items| < QUEUE_CAPACITY
  }

  lemma FirstOf(pods: seq<Pod>)
    requires pods != [] && Distinct(pods)
    ensures UidsOf(pods) == {pods[0].uid} + UidsOf(pods[1..])
    ensures pods[0].uid !in UidsOf(pods[1..]) && Distinct(pods[1..])
  {
    assert pods == [pods[0]] + pods[1..];
  }

  lemma BatchStep(s: State, t1: State, t: State)
    requires s.main.rest != [] && Distinct(s.main.rest) && PodHandled(s, t1)
    requires BatchHandled(t1, s.main.batch, s.main.rest[1..], t)
    ensures BatchHandled(s, s.main.batch, s.main.rest, t)
  {
    FirstOf(s.main.rest);
    forall v ensures SlotOf(t, v) ==
        if v in UidsOf(s.main.rest) then SlotAfter(s.main.batch, v, SlotOf(s, v)) else SlotOf(s, v) {
      SlotStep(s, t1, t, v);
    }
  }

  lemma SlotStep(s: State, t1: State, t: State, v: Uid)
    requires s.main.rest != [] && Distinct(s.main.rest) && PodHandled(s, t1)
    requires BatchHandled(t1, s.main.batch, s.main.rest[1..], t)
    ensures SlotOf(t, v) == if v in UidsOf(s.main.rest) then SlotAfter(s.main.batch, v, SlotOf(s, v)) else SlotOf(s, v)
  {
    FirstOf(s.main.rest);
  }

  lemma RestHasRoom(s: State, t1: State)
    requires s.main.rest != [] && Distinct(s.main.rest) && PodHandled(s, t1) && Room(s, s.main.rest)
    ensures Room(t1, s.main.rest[1..]) && Between(t1) && Distinct(t1.main.rest)
  {
    FirstOf(s.main.rest);
  }

  lemma HeadHasRoom(s: State)
    requires s.main.rest != [] && Room(s, s.main.rest)
    ensures var slot := SlotOf(s, s.main.rest[0].uid); slot.Queue? ==> |slot.items| < QUEUE_CAPACITY
  {
    assert s.main.rest[0].uid in UidsOf(s.main.rest);
  }

  /** The main loop handles a whole batch by itself, as long as the channels have room. */
  lemma {:induction false} HandleBatch(s: State) returns (t: State)
    requires Between(s) && Unstarted(s) && Distinct(s.main.rest) && Room(s, s.main.rest)
    ensures Reaches(s, [], t) && BatchHandled(s, s.main.batch, s.main.rest, t)
    decreases |s.main.rest|
  {
    if s.main.rest == [] {
      t := s;
      Stay(s);
    } else {
      HeadHasRoom(s);
      var t1 := HandlePod(s);
      RestHasRoom(s, t1);
      t := HandleBatch(t1);
      BatchStep(s, t1, t);
      ThenQuietly(s, [], t1, t);
    }
  }

  lemma ThenQuietly(s: State, p: seq<seq<Pod>>, t: State, u: State)
    requires Reaches(s, p, t) && Reaches(t, [], u)
    ensures Reaches(s, p, u)
  {
    Then(s, p, t, [], u);
    assert p + [] == p;
  }

  function InsertPod(p: Pod, pods: seq<Pod>): seq<Pod> {
    if pods == [] || p.created <= pods[0].created then [p] + pods else [pods[0]] + InsertPod(p, pods[1..])
  }

  function SortPods(pods: seq<Pod>): seq<Pod> {
    if pods == [] then [] else InsertPod(pods[0], SortPods(pods[1..]))
  }

  lemma {:induction false} InsertPodKeeps(p: Pod, pods: seq<Pod>)
    ensures multiset(InsertPod(p, pods)) == multiset(pods) + multiset{p}
  {
    if pods != [] && p.created > pods[0].created {
      InsertPodKeeps(p, pods[1..]);
      assert pods == [pods[0]] + pods[1..];
    }
  }

  lemma {:induction false} InsertPodSorts(p: Pod, pods: seq<Pod>)
    requires SortedByCreation(pods)
    ensures SortedByCreation(InsertPod(p, pods))
  {
    if pods != [] && p.created > pods[0].created {
      var rest := InsertPod(p, pods[1..]);
      InsertPodSorts(p, pods[1..]);
      InsertPodKeeps(p, pods[1..]);
      forall i | 0 <= i < |rest| ensures pods[0].created <= rest[i].created {
        assert rest[i] in multiset(rest);
        assert rest[i] == p || rest[i] in pods[1..];
      }
    }
  }

  lemma {:induction false} SortPodsSorts(pods: seq<Pod>)
    ensures SortedByCreation(SortPods(pods)) && multiset(SortPods(pods)) == multiset(pods)
  {
    if pods != [] {
      SortPodsSorts(pods[1..]);
      InsertPodSorts(pods[0], SortPods(pods[1..]));
      InsertPodKeeps(pods[0], SortPods(pods[1..]));
      assert pods == [pods[0]] + pods[1..];
    }
  }

  /** The main loop waits for input with the mutex free. */
  predicate Waiting(s: State) {
    s.main.pc.Select? && s.main.rest == [] && s.lock.Free?
  }

  /** What is left after all additions of a poll are received and handled. */
  ghost predicate AddsHandled(s: State, t: State) {
    && BatchHandled(s.(adds := []), Add, s.adds, t)
  }

  lemma TakeAdds(s: State) returns (t: State)
    requires Waiting(s) && Unstarted(s) && Distinct(s.adds) && Room(s, s.adds)
    ensures Reaches(s, [], t) && AddsHandled(s, t)
  {
    if s.adds == [] {
      t := s;
      Stay(s);
    } else {
      var order := SortPods(s.adds);
      SortPodsSorts(s.adds);
      SameMultisetSameUids(order, s.adds);
      ReorderDistinct(s.adds, order);
      SameEmptiness(order, s.adds);
      Step(s, ReceiveAdds(order));
      var a := Fire(s, ReceiveAdds(order));
      SameSlots(s, a);
      t := HandleBatch(a);
      SameBatch(s.(adds := []), a, Add, order, s.adds, t);
      ThenQuietly(s, [], a, t);
    }
  }

  lemma SameEmptiness(a: seq<Pod>, b: seq<Pod>)
    requires multiset(a) == multiset(b)
    ensures a == [] <==> b == []
  {
    assert |multiset(a)| == |a| && |multiset(b)| == |b|;
  }

  lemma SameSlots(s: State, a: State)
    requires a.podUpdates == s.podUpdates && a.workers == s.workers
    ensures Unstarted(s) ==> Unstarted(a)
    ensures forall v :: SlotOf(a, v) == SlotOf(s, v)
  {
  }

  /** A batch handled from a is handled from every state with the same table, whatever the order of its pods. */
  lemma SameBatch(s: State, a: State, batch: BatchOp, order: seq<Pod>, pods: seq<Pod>, t: State)
    requires BatchHandled(a, batch, order, t) && UidsOf(order) == UidsOf(pods)
    requires SameInputs(s, a) && a.podUpdates == s.podUpdates && a.workers == s.workers && a.podManager == s.podManager
    ensures BatchHandled(s, batch, pods, t)
  {
    SameSlots(s, a);
  }

  lemma TakeDels(s: State) returns (t: State)
    requires Waiting(s) && Unstarted(s) && s.adds == [] && Distinct(s.dels) && Room(s, s.dels)
    ensures Reaches(s, [], t) && BatchHandled(s.(dels := []), Delete, s.dels, t)
  {
    if s.dels == [] {
      t := s;
      Stay(s);
    } else {
      Step(s, ReceiveDels);
      var a := Fire(s, ReceiveDels);
      SameSlots(s, a);
      t := HandleBatch(a);
      SameBatch(s.(dels := []), a, Delete, s.dels, s.dels, t);
      ThenQuietly(s, [], a, t);
    }
  }

  // ---- A kubelet whose workers do not get to run -------------------------------------------------

  /** What the main loop has put into a UID's channel after the polls h, none of which brought a UID back. */
  function SlotFor(h: seq<seq<Pod>>, u: Uid): Slot {
    if u !in Ever(h) then NoSlot
    else if u in UidsOf(Last(h)) then Queue([Item(Create, u)])
    else Queue([Item(Create, u), Item(Kill, u)])
  }

  ghost predicate Lazy(s: State, h: seq<seq<Pod>>) {
    && Waiting(s) && Unstarted(s) && s.adds == [] && s.dels == []
    && s.latest == Last(h) && s.podManager.Keys == UidsOf(Last(h))
    && forall u :: SlotOf(s, u) == SlotFor(h, u)
  }

  lemma LastIsEver(h: seq<seq<Pod>>)
    ensures UidsOf(Last(h)) <= Ever(h)
  {
    if h != [] {
      assert Last(h) in h;
    }
  }

  /** The channel of one UID after one more poll without returns. */
  lemma NextSlot(h: seq<seq<Pod>>, p: seq<Pod>, u: Uid)
    requires !Returns(h + [p])
    ensures var added := if u in UidsOf(p) - UidsOf(Last(h)) then SlotAfter(Add, u, SlotFor(h, u)) else SlotFor(h, u);
            SlotFor(h + [p], u) == if u in UidsOf(Last(h)) - UidsOf(p) then SlotAfter(Delete, u, added) else added
  {
    EverStep(h, p);
    LastIsEver(h);
    ListedAgain(h, p, u);
  }

  lemma LazyHasRoom(s: State, h: seq<seq<Pod>>, pods: seq<Pod>)
    requires forall u :: SlotOf(s, u) == SlotFor(h, u)
    ensures Room(s, pods)
  {
    assert forall u :: SlotFor(h, u).Queue? ==> |SlotFor(h, u).items| <= 2;
  }

  /** One more poll, handled by the main loop while no worker runs. */
  lemma LazyPoll(s: State, h: seq<seq<Pod>>, p: seq<Pod>) returns (t: State)
    requires Lazy(s, h) && Distinct(p) && Distinct(Last(h)) && !Returns(h + [p])
    ensures Reaches(s, [p], t) && Lazy(t, h + [p])
  {
    Step(s, Poll(p));
    var a := Fire(s, Poll(p));
    SameSlots(s, a);
    WithoutUids(p, s.latest);
    WithoutUids(s.latest, p);
    LazyHasRoom(a, h, a.adds);
    var b := TakeAdds(a);
    DelsHaveRoom(a, b, h);
    t := TakeDels(b);
    ThenQuietly(s, [p], a, b);
    ThenQuietly(s, [p], b, t);
    StillLazy(s, h, p, b, t);
  }

  lemma StillLazy(s: State, h: seq<seq<Pod>>, p: seq<Pod>, b: State, t: State)
    requires Lazy(s, h) && !Returns(h + [p])
    requires AddsHandled(Fire(s, Poll(p)), b) && BatchHandled(b.(dels := []), Delete, b.dels, t)
    ensures Lazy(t, h + [p])
  {
    LazyShape(s, h, p, b, t);
    forall u ensures SlotOf(t, u) == SlotFor(h + [p], u) {
      SlotAfterPoll(s, h, p, b, t, u);
    }
  }

  lemma LazyShape(s: State, h: seq<seq<Pod>>, p: seq<Pod>, b: State, t: State)
    requires s.adds == [] && s.dels == [] && s.latest == Last(h) && s.podManager.Keys == UidsOf(Last(h))
    requires AddsHandled(Fire(s, Poll(p)), b) && BatchHandled(b.(dels := []), Delete, b.dels, t)
    ensures Waiting(t) && Unstarted(t) && t.adds == [] && t.dels == []
    ensures t.latest == p && t.podManager.Keys == UidsOf(p)
  {
    WithoutUids(p, s.latest);
    WithoutUids(s.latest, p);
    assert t.podManager.Keys == UidsOf(Last(h)) + (UidsOf(p) - UidsOf(Last(h))) - (UidsOf(Last(h)) - UidsOf(p));
  }

  lemma SlotAfterPoll(s: State, h: seq<seq<Pod>>, p: seq<Pod>, b: State, t: State, u: Uid)
    requires s.adds == [] && s.dels == [] && s.latest == Last(h) && SlotOf(s, u) == SlotFor(h, u) && !Returns(h + [p])
    requires AddsHandled(Fire(s, Poll(p)), b) && BatchHandled(b.(dels := []), Delete, b.dels, t)
    ensures SlotOf(t, u) == SlotFor(h + [p], u)
  {
    WithoutUids(p, s.latest);
    WithoutUids(s.latest, p);
    NextSlot(h, p, u);
    assert SlotOf(Fire(s, Poll(p)).(adds := []), u) == SlotOf(s, u);
    assert SlotOf(b.(dels := []), u) == SlotOf(b, u);
  }

  lemma DelsHaveRoom(a: State, b: State, h: seq<seq<Pod>>)
    requires AddsHandled(a, b) && forall u :: SlotOf(a, u) == SlotFor(h, u)
    ensures Room(b, b.dels)
  {
    forall u | SlotOf(b, u).Queue? ensures |SlotOf(b, u).items| < QUEUE_CAPACITY {
      assert SlotFor(h, u).Queue? ==> |SlotFor(h, u).items| <= 2;
      assert SlotOf(a.(adds := []), u) == SlotOf(a, u);
    }
  }

  /** The polls h can all be taken without a single step of a worker. */
  lemma {:induction false} LazyRun(h: seq<seq<Pod>>) returns (t: State)
    requires NoDuplicates(h) && !Returns(h)
    ensures Reaches(Initial, h, t) && Lazy(t, h)
  {
    if h == [] {
      t := Initial;
      Stay(Initial);
    } else {
      var n := |h| - 1;
      assert h == h[..n] + [h[n]];
      PrefixReturns(h[..n], [h[n]]);
      var s := LazyRun(h[..n]);
      t := LazyPoll(s, h[..n], h[n]);
      Then(Initial, h[..n], s, [h[n]], t);
    }
  }

  // ---- The poll that brings a UID back -----------------------------------------------------------

  /** The first poll that brings a UID back, and that UID. */
  lemma {:induction false} FirstReturn(polls: seq<seq<Pod>>) returns (k: nat, u: Uid)
    requires Returns(polls)
    ensures k < |polls| && !Returns(polls[..k])
    ensures u in Ever(polls[..k]) && u !in UidsOf(Last(polls[..k])) && u in UidsOf(polls[k])
  {
    var i: nat, j: nat, m: nat, v :| ComesBack(polls, i, j, m, v);
    var n := |polls| - 1;
    var before := polls[..n];
    if Returns(before) {
      k, u := FirstReturn(before);
      assert before[..k] == polls[..k];
    } else {
      assert !ComesBack(before, i, j, m, v) && !ComesBack(before, i, j, n - 1, v);
      assert before[i] in before && before[j] == polls[j] && Last(before) == polls[n - 1];
      k, u := n, v;
    }
  }

  /** The worker of a pod that is back still has to create it and to kill it. */
  ghost predicate Primed(s: State, u: Uid) {
    && Waiting(s) && u in s.podManager && u in s.podUpdates && s.podUpdates[u] < |s.workers|
    && s.workers[s.podUpdates[u]].pc.Receiving?
    && s.workers[s.podUpdates[u]].queue == [Item(Create, u), Item(Kill, u)]
  }

  /** That worker kills the pod; n items wait behind the Kill. */
  ghost predicate Cornered(s: State, u: Uid, n: nat) {
    && Waiting(s) && u in s.podManager && u in s.podUpdates && s.podUpdates[u] < |s.workers|
    && s.workers[s.podUpdates[u]].pc == Processing(Item(Kill, u))
    && |s.workers[s.podUpdates[u]].queue| == n
  }

  lemma BringBack(s: State, h: seq<seq<Pod>>, p: seq<Pod>, u: Uid) returns (t: State)
    requires Lazy(s, h) && Distinct(p) && u in Ever(h) && u !in UidsOf(Last(h)) && u in UidsOf(p)
    ensures Reaches(s, [p], t) && Primed(t, u)
  {
    Step(s, Poll(p));
    var a := Fire(s, Poll(p));
    SameSlots(s, a);
    WithoutUids(p, s.latest);
    LazyHasRoom(a, h, a.adds);
    t := TakeAdds(a);
    ThenQuietly(s, [p], a, t);
    BackIsPrimed(s, h, p, u, t);
  }

  lemma BackIsPrimed(s: State, h: seq<seq<Pod>>, p: seq<Pod>, u: Uid, t: State)
    requires Lazy(s, h) && u in Ever(h) && u !in UidsOf(Last(h)) && u in UidsOf(p)
    requires AddsHandled(Fire(s, Poll(p)), t)
    ensures Primed(t, u)
  {
    WithoutUids(p, s.latest);
    assert SlotOf(s, u) == Queue([Item(Create, u), Item(Kill, u)]);
    assert SlotOf(t, u) == SlotOf(s, u);
  }

  /** The worker creates the pod and begins to kill it. */
  lemma BeginKill(s: State, u: Uid) returns (t: State)
    requires Primed(s, u)
    ensures Reaches(s, [], t) && Cornered(t, u, 0)
  {
    var w := s.podUpdates[u];
    Step(s, WorkerTake(w));
    var a := Fire(s, WorkerTake(w));
    ThenStep(s, [], a, WorkerFinish(w));
    var b := Fire(a, WorkerFinish(w));
    ThenStep(s, [], b, WorkerTake(w));
    t := Fire(b, WorkerTake(w));
  }

  /** The main loop takes an event of the pod as far as the send. */
  lemma TakeOneEvent(s: State, u: Uid, n: nat) returns (t: State)
    requires Cornered(s, u, n)
    ensures Reaches(s, [], t)
    ensures t == s.(main := s.main.(pc := Sending(Item(Sync, u), s.podUpdates[u])), lock := ByMain)
  {
    var e := LifecycleEvent(u, false);
    Step(s, e);
    ThenStep(s, [], Fire(s, e), MainLock);
    var b := Fire(Fire(s, e), MainLock);
    ThenStep(s, [], b, MainLookup);
    t := Fire(b, MainLookup);
  }

  lemma QueueOneEvent(s: State, u: Uid, n: nat) returns (t: State)
    requires Cornered(s, u, n) && n < QUEUE_CAPACITY
    ensures Reaches(s, [], t) && Cornered(t, u, n + 1)
  {
    var c := TakeOneEvent(s, u, n);
    ThenStep(s, [], c, MainSend);
    var d := Fire(c, MainSend);
    ThenStep(s, [], d, MainUnlock);
    t := Fire(d, MainUnlock);
  }

  lemma {:induction false} QueueEvents(s: State, u: Uid, n: nat) returns (t: State)
    requires Cornered(s, u, n) && n <= QUEUE_CAPACITY
    ensures Reaches(s, [], t) && Cornered(t, u, QUEUE_CAPACITY)
    decreases QUEUE_CAPACITY - n
  {
    if n == QUEUE_CAPACITY {
      t := s;
      Stay(s);
    } else {
      var a := QueueOneEvent(s, u, n);
      t := QueueEvents(a, u, n + 1);
      ThenQuietly(s, [], a, t);
    }
  }

  /** The eleventh event blocks the main loop; the worker then asks for the mutex. */
  lemma Collide(s: State, u: Uid) returns (t: State)
    requires Cornered(s, u, QUEUE_CAPACITY)
    ensures Reaches(s, [], t) && Stuck(t)
  {
    var c := TakeOneEvent(s, u, QUEUE_CAPACITY);
    ThenStep(s, [], c, WorkerFinish(s.podUpdates[u]));
    t := Fire(c, WorkerFinish(s.podUpdates[u]));
  }

  lemma Corner(s: State, u: Uid) returns (t: State)
    requires Primed(s, u)
    ensures Reaches(s, [], t) && Stuck(t)
  {
    var a := BeginKill(s, u);
    var b := QueueEvents(a, u, 0);
    t := Collide(b, u);
    ThenQuietly(s, [], a, b);
    ThenQuietly(s, [], b, t);
  }

  /** When a UID comes back some interleaving gets the kubelet stuck with the poll that lists it again. */
  lemma ReturnCanDeadlock(polls: seq<seq<Pod>>) returns (acts: seq<Action>)
    requires NoDuplicates(polls) && Returns(polls)
    ensures ValidRun(Initial, acts) && PollsOf(acts) <= polls && Stuck(After(Initial, acts))
  {
    var k, u := FirstReturn(polls);
    var h, p := polls[..k], polls[k];
    var t := ReachStuck(h, p, u);
    acts := RunTo(h + [p], t);
    assert h + [p] <= polls;
  }

  lemma ReachStuck(h: seq<seq<Pod>>, p: seq<Pod>, u: Uid) returns (t: State)
    requires NoDuplicates(h) && !Returns(h) && Distinct(p)
    requires u in Ever(h) && u !in UidsOf(Last(h)) && u in UidsOf(p)
    ensures Reaches(Initial, h + [p], t) && Stuck(t)
  {
    var s := LazyRun(h);
    var a := BringBack(s, h, p, u);
    t := Corner(a, u);
    ThenPoll(s, h, a, p, t);
  }

  lemma ThenPoll(s: State, h: seq<seq<Pod>>, a: State, p: seq<Pod>, t: State)
    requires Reaches(Initial, h, s) && Reaches(s, [p], a) && Reaches(a, [], t)
    ensures Reaches(Initial, h + [p], t)
  {
    Then(Initial, h, s, [p], a);
    ThenQuietly(Initial, h + [p], a, t);
  }

  lemma RunTo(polls: seq<seq<Pod>>, t: State) returns (acts: seq<Action>)
    requires Reaches(Initial, polls, t)
    ensures ValidRun(Initial, acts) && After(Initial, acts) == t && PollsOf(acts) == polls
  {
    acts :| ValidRun(Initial, acts) && After(Initial, acts) == t && PollsOf(acts) == polls;
  }

  /** Some run that takes a prefix of these polls gets stuck. */
  ghost predicate CanDeadlock(polls: seq<seq<Pod>>) {
    exists acts :: ValidRun(Initial, acts) && PollsOf(acts) <= polls && Stuck(After(Initial, acts))
  }

  /** Polls without duplicates can deadlock the kubelet if and only if some UID is listed, missing and listed again. */
  lemma DeadlockIffUidReturns(polls: seq<seq<Pod>>)
    requires NoDuplicates(polls)
    ensures CanDeadlock(polls) <==> Returns(polls)
  {
    if Returns(polls) {
      var acts := ReturnCanDeadlock(polls);
    } else {
      forall acts | ValidRun(Initial, acts) && PollsOf(acts) <= polls ensures !Stuck(After(Initial, acts)) {
        NoReturnNoDeadlock(acts, polls);
      }
    }
  }
}
