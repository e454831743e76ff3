/**
  The kubelet's pod workers as interleaved steps: the watcher that polls the API server, the main sync
  loop, one worker per pod with a channel of capacity 10, and the mutex that guards the channel table
  (pkg/kubelet/pod_workers.go, pkg/kubelet/kubelet.go, pkg/kubelet/app/server.go).

  A goroutine never does more in one step than it does between two points where another goroutine can
  interfere: taking the mutex, sending, receiving and releasing the mutex are steps of their own.
*/
module PodWorkers {
  import opened KubeletTypes

  datatype RestartPolicy = Always | OnFailure | Never

  datatype Pod = Pod(uid: Uid, created: int, policy: RestartPolicy)

  // UpdatePodOptions: what travels through a worker's channel.
  datatype Item = Item(op: SyncOp, uid: Uid)

  const QUEUE_CAPACITY := 10

  /** Where a worker goroutine is. `Processing` covers SyncPod and the cache lookup before it. */
  datatype WorkerPc =
    | Receiving
    | Processing(item: Item)
    | AwaitLock(item: Item)
    | HoldLock(item: Item)
    | Stopped

  /** One worker goroutine and its channel; `history` is every item the channel ever accepted. */
  datatype Worker = Worker(uid: Uid, queue: seq<Item>, pc: WorkerPc, history: seq<Item>)

  datatype BatchOp = Add | Delete

  /** Where the main loop is: in its select, between two pods of a batch, or inside UpdatePod. */
  datatype MainPc =
    | Select
    | NextPod
    | Locking(item: Item)
    | Locked(item: Item)
    | Sending(item: Item, worker: nat)
    | Unlocking

  datatype Main = Main(pc: MainPc, batch: BatchOp, rest: seq<Pod>)

  datatype Lock = Free | ByMain | ByWorker(worker: nat)

  /**
    `adds` and `dels` are the two updates of the last poll that the watcher still has to send;
    `announced` collects every UID a poll has ever listed.
  */
  datatype State = State(
    latest: seq<Pod>,
    adds: seq<Pod>,
    dels: seq<Pod>,
    announced: set<Uid>,
    podManager: map<Uid, Pod>,
    main: Main,
    lock: Lock,
    podUpdates: map<Uid, nat>,
    workers: seq<Worker>)

  datatype Action =
    | Poll(pods: seq<Pod>)
    | ReceiveAdds(order: seq<Pod>)
    | ReceiveDels
    | LifecycleEvent(uid: Uid, died: bool)
    | MainNext
    | MainLock
    | MainLookup
    | MainSend
    | MainUnlock
    | WorkerTake(worker: nat)
    | WorkerFinish(worker: nat)
    | WorkerLock(worker: nat)
    | WorkerRetire(worker: nat)

  const Initial := State([], [], [], {}, map[], Main(Select, Add, []), Free, map[], [])

  function UidsOf(pods: seq<Pod>): set<Uid> {
    set p | p in pods :: p.uid
  }

  /** The pods of `pods` whose UID does not occur in `others`, in order: one half of the poll's diff. */
  function Without(pods: seq<Pod>, others: seq<Pod>): seq<Pod> {
    if pods == [] then []
    else if pods[0].uid in UidsOf(others) then Without(pods[1..], others)
    else [pods[0]] + Without(pods[1..], others)
  }

  ghost predicate SortedByCreation(pods: seq<Pod>) {
    forall i, j :: 0 <= i < j < |pods| ==> pods[i].created <= pods[j].created
  }

  predicate InFlight(pc: MainPc) {
    pc.Locking? || pc.Locked? || pc.Sending?
  }

  // ---- Steps -------------------------------------------------------------------------------------

  ghost predicate Enabled(s: State, a: Action) {
    match a
    case Poll(pods) => s.adds == [] && s.dels == []
    case ReceiveAdds(order) =>
      s.main.pc.Select? && s.adds != [] && multiset(order) == multiset(s.adds) && SortedByCreation(order)
    case ReceiveDels => s.main.pc.Select? && s.adds == [] && s.dels != []
    case LifecycleEvent(uid, died) => s.main.pc.Select?
    case MainNext => s.main.pc.NextPod? && s.main.rest != []
    case MainLock => s.main.pc.Locking? && s.lock.Free?
    case MainLookup => s.main.pc.Locked?
    case MainSend =>
      && s.main.pc.Sending?
      && s.main.pc.worker < |s.workers|
      && |s.workers[s.main.pc.worker].queue| < QUEUE_CAPACITY
    case MainUnlock => s.main.pc.Unlocking?
    case WorkerTake(w) => w < |s.workers| && s.workers[w].pc.Receiving? && s.workers[w].queue != []
    case WorkerFinish(w) => w < |s.workers| && s.workers[w].pc.Processing?
    case WorkerLock(w) => w < |s.workers| && s.workers[w].pc.AwaitLock? && s.lock.Free?
    case WorkerRetire(w) => w < |s.workers| && s.workers[w].pc.HoldLock?
  }

  /** The effect of one step. */
  ghost function Fire(s: State, a: Action): State
    requires Enabled(s, a)
  {
    match a
    case Poll(pods) =>
      s.(latest := pods, adds := Without(pods, s.latest), dels := Without(s.latest, pods),
      announced := s.announced + UidsOf(pods))
    case ReceiveAdds(order) => s.(adds := [], main := Main(NextPod, Add, order))
    case ReceiveDels => s.(dels := [], main := Main(NextPod, Delete, s.dels))
    case LifecycleEvent(uid, died) => TakeEvent(s, uid, died)
    case MainNext => BeginPod(s)
    case MainLock => s.(lock := ByMain, main := s.main.(pc := Locked(s.main.pc.item)))
    case MainLookup => Lookup(s)
    case MainSend =>
      var w := s.main.pc.worker;
      var x := s.workers[w];
      s.(workers := s.workers[w := x.(queue := x.queue + [s.main.pc.item], history := x.history + [s.main.pc.item])],
      main := s.main.(pc := Unlocking))
    case MainUnlock => s.(lock := Free, main := s.main.(pc := if s.main.rest == [] then Select else NextPod))
    case WorkerTake(w) =>
      var x := s.workers[w];
      s.(workers := s.workers[w := x.(queue := x.queue[1..], pc := Processing(x.queue[0]))])
    case WorkerFinish(w) =>
      var x := s.workers[w];
      s.(workers := s.workers[w := x.(pc := if x.pc.item.op.Kill? then AwaitLock(x.pc.item) else Receiving)])
    case WorkerLock(w) =>
      var x := s.workers[w];
      s.(lock := ByWorker(w), workers := s.workers[w := x.(pc := HoldLock(x.pc.item))])
    case WorkerRetire(w) =>
      var x := s.workers[w];
      s.(lock := Free, podUpdates := s.podUpdates - {x.pc.item.uid}, workers := s.workers[w := x.(pc := Stopped)])
  }

  /** syncLoopIteration's PLEG case: an event of a pod the manager does not know is dropped. */
  function TakeEvent(s: State, uid: Uid, died: bool): State {
    if uid !in s.podManager then s
    else if died && s.podManager[uid].policy.Always? then s.(main := s.main.(pc := Locking(Item(Recreate, uid))))
    else s.(main := s.main.(pc := Locking(Item(Sync, uid))))
  }

  /** One turn of the loops in HandlePodAdditions and HandlePodDeletions, up to the call of UpdatePod. */
  function BeginPod(s: State): State
    requires s.main.rest != []
  {
    var pod := s.main.rest[0];
    match s.main.batch
    case Add =>
      s.(podManager := s.podManager[pod.uid := pod],
      main := s.main.(pc := Locking(Item(Create, pod.uid)), rest := s.main.rest[1..]))
    case Delete =>
      s.(podManager := s.podManager - {pod.uid},
      main := s.main.(pc := Locking(Item(Kill, pod.uid)), rest := s.main.rest[1..]))
  }

  /** UpdatePod between taking the mutex and sending. */
  function Lookup(s: State): State
    requires s.main.pc.Locked?
  {
    var item := s.main.pc.item;
    if item.uid !in s.podUpdates then
      if !item.op.Create? then s.(main := s.main.(pc := Unlocking))
      else
        s.(podUpdates := s.podUpdates[item.uid := |s.workers|],
        workers := s.workers + [Worker(item.uid, [], Receiving, [])],
        main := s.main.(pc := Sending(item, |s.workers|)))
    else if item.op.Create? then s.(main := s.main.(pc := Unlocking))
    else s.(main := s.main.(pc := Sending(item, s.podUpdates[item.uid])))
  }

  // ---- Runs --------------------------------------------------------------------------------------

  ghost predicate ValidRun(s: State, acts: seq<Action>)
    decreases |acts|
  {
    acts != [] ==> Enabled(s, acts[0]) && ValidRun(Fire(s, acts[0]), acts[1..])
  }

  ghost function After(s: State, acts: seq<Action>): State
    requires ValidRun(s, acts)
    decreases |acts|
  {
    if acts == [] then s else After(Fire(s, acts[0]), acts[1..])
  }

  function PollOf(a: Action): seq<seq<Pod>> {
    if a.Poll? then [a.pods] else []
  }

  /** The polls of a run, in order. */
  function PollsOf(acts: seq<Action>): seq<seq<Pod>> {
    if acts == [] then [] else PollOf(acts[0]) + PollsOf(acts[1..])
  }

  lemma Regroup<T>(a: seq<T>, b: seq<T>, c: seq<T>)
    ensures a + (b + c) == a + b + c
  {
  }

  ghost predicate Distinct(pods: seq<Pod>) {
    forall i, j :: 0 <= i < j < |pods| ==> pods[i].uid != pods[j].uid
  }

  /** The hypothesis on the API server: no UID twice in one list, and no UID comes back once it has left. */
  ghost predicate PollKeepsUidsFresh(s: State, a: Action) {
    a.Poll? ==>
      && Distinct(a.pods)
      && UidsOf(a.pods) * s.announced <= UidsOf(s.latest)
  }

  ghost predicate WellBehaved(s: State, acts: seq<Action>)
    requires ValidRun(s, acts)
    decreases |acts|
  {
    acts != [] ==> PollKeepsUidsFresh(s, acts[0]) && WellBehaved(Fire(s, acts[0]), acts[1..])
  }

  /** Steps taken by goroutines inside the kubelet, without a new poll, batch or event. */
  predicate Internal(a: Action) {
    !a.Poll? && !a.ReceiveAdds? && !a.ReceiveDels? && !a.LifecycleEvent?
  }

  /** Steps of one worker that touch neither the mutex nor another goroutine's state. */
  predicate LockFreeStepOf(a: Action, w: nat) {
    (a.WorkerTake? || a.WorkerFinish?) && a.worker == w
  }

  // ---- The invariant -----------------------------------------------------------------------------

  /** Create first, Kill at most once and only at the end, every item for the same pod. */
  ghost predicate HistoryShape(uid: Uid, h: seq<Item>) {
    forall i :: 0 <= i < |h| ==>
      h[i].uid == uid && (h[i].op.Create? <==> i == 0) && (h[i].op.Kill? ==> i == |h| - 1)
  }

  predicate Closed(x: Worker) {
    x.history != [] && x.history[|x.history| - 1].op.Kill?
  }

  /** The items the worker has already taken from its channel. */
  function Taken(x: Worker): seq<Item>
    requires |x.queue| <= |x.history|
  {
    x.history[..|x.history| - |x.queue|]
  }

  ghost predicate WorkerOk(x: Worker) {
    && HistoryShape(x.uid, x.history)
    && |x.queue| <= QUEUE_CAPACITY
    && |x.queue| <= |x.history|
    && x.history == Taken(x) + x.queue
    && (x.pc.Receiving? ==> forall i :: 0 <= i < |Taken(x)| ==> !Taken(x)[i].op.Kill?)
    && (x.pc.Processing? || x.pc.AwaitLock? || x.pc.HoldLock? ==>
          Taken(x) != [] && Taken(x)[|Taken(x)| - 1] == x.pc.item)
    && (x.pc.AwaitLock? || x.pc.HoldLock? ==> x.pc.item.op.Kill?)
    && (x.pc.Stopped? ==> Closed(x) && x.queue == [])
  }

  ghost predicate NoWorker(s: State, u: Uid) {
    forall w :: 0 <= w < |s.workers| ==> s.workers[w].uid != u
  }

  predicate NotInFlight(s: State, u: Uid) {
    InFlight(s.main.pc) ==> s.main.pc.item.uid != u
  }

  ghost predicate Unborn(s: State, u: Uid) {
    u !in s.podManager && NoWorker(s, u) && NotInFlight(s, u)
  }

  /** Nothing addressed to `u` is, or ever will be, on its way again. */
  ghost predicate Finished(s: State, u: Uid) {
    && u !in s.podManager
    && u !in UidsOf(s.latest)
    && u !in UidsOf(s.adds)
    && u !in UidsOf(s.dels)
    && u !in UidsOf(s.main.rest)
  }

  ghost predicate PollsOk(s: State) {
    && Distinct(s.latest) && Distinct(s.adds) && Distinct(s.dels) && Distinct(s.main.rest)
    && UidsOf(s.latest) <= s.announced
    && UidsOf(s.adds) <= UidsOf(s.latest)
    && UidsOf(s.dels) <= s.announced
    && UidsOf(s.dels) !! UidsOf(s.latest)
    && UidsOf(s.main.rest) <= s.announced
    && UidsOf(s.main.rest) !! UidsOf(s.adds)
    && (s.main.batch.Delete? ==> UidsOf(s.main.rest) !! UidsOf(s.latest) && UidsOf(s.main.rest) !! UidsOf(s.dels))
    && (s.main.pc.Select? ==> s.main.rest == [])
    && (s.main.pc.NextPod? ==> s.main.rest != [])
    && s.podManager.Keys <= s.announced
  }

  ghost predicate PhasesOk(s: State) {
    && (forall u :: u in UidsOf(s.adds) ==> Unborn(s, u))
    && (s.main.batch.Add? ==> forall u :: u in UidsOf(s.main.rest) ==> Unborn(s, u))
    && (forall w :: 0 <= w < |s.workers| ==> s.workers[w].uid in s.announced)
    && (forall w :: 0 <= w < |s.workers| && Closed(s.workers[w]) ==>
          Finished(s, s.workers[w].uid) && NotInFlight(s, s.workers[w].uid))
  }

  ghost predicate FlightOk(s: State) {
    InFlight(s.main.pc) ==>
      var item := s.main.pc.item;
      && item.uid in s.announced
      && (item.op.Create? ==> item.uid in s.podManager && s.main.batch.Add? && (!s.main.pc.Sending? ==> NoWorker(s, item.uid)))
      && (item.op.Kill? ==> Finished(s, item.uid))
      && (item.op.Sync? || item.op.Recreate? ==> item.uid in s.podManager && s.main.rest == [])
      && (s.main.pc.Sending? ==>
            && item.uid in s.podUpdates
            && s.podUpdates[item.uid] == s.main.pc.worker < |s.workers|
            && (item.op.Create? <==> s.workers[s.main.pc.worker].history == []))
  }

  ghost predicate TableOk(s: State) {
    && (forall u :: u in s.podUpdates ==>
          s.podUpdates[u] < |s.workers| && s.workers[s.podUpdates[u]].uid == u && !s.workers[s.podUpdates[u]].pc.Stopped?)
    && (forall w :: 0 <= w < |s.workers| && !s.workers[w].pc.Stopped? ==>
          s.workers[w].uid in s.podUpdates && s.podUpdates[s.workers[w].uid] == w)
    && (forall v, w :: 0 <= v < w < |s.workers| ==> s.workers[v].uid != s.workers[w].uid)
    && (forall w :: 0 <= w < |s.workers| && s.workers[w].history == [] ==>
          s.main.pc.Sending? && s.main.pc.worker == w && s.main.pc.item.op.Create?)
  }

  ghost predicate LockOk(s: State) {
    && (s.lock.ByMain? <==> s.main.pc.Locked? || s.main.pc.Sending? || s.main.pc.Unlocking?)
    && (forall w :: 0 <= w < |s.workers| ==> (s.workers[w].pc.HoldLock? <==> s.lock == ByWorker(w)))
    && (s.lock.ByWorker? ==> s.lock.worker < |s.workers|)
  }

  ghost predicate WorkersOk(workers: seq<Worker>) {
    forall w :: 0 <= w < |workers| ==> WorkerOk(workers[w])
  }

  /** Everything but the workers' own queues. */
  ghost predicate Core(s: State) {
    PollsOk(s) && PhasesOk(s) && FlightOk(s) && TableOk(s) && LockOk(s)
  }

  ghost predicate Inv(s: State) {
    Core(s) && WorkersOk(s.workers)
  }

  // ---- The poll's diff ---------------------------------------------------------------------------

  lemma {:induction false} WithoutUids(pods: seq<Pod>, others: seq<Pod>)
    ensures UidsOf(Without(pods, others)) == UidsOf(pods) - UidsOf(others)
    ensures Distinct(pods) ==> Distinct(Without(pods, others))
  {
    if pods != [] {
      WithoutUids(pods[1..], others);
      assert UidsOf(pods) == {pods[0].uid} + UidsOf(pods[1..]);
      if Distinct(pods) {
        assert Distinct(pods[1..]);
        assert pods[0].uid !in UidsOf(pods[1..]);
      }
      if pods[0].uid !in UidsOf(others) {
        var rest := Without(pods[1..], others);
        assert UidsOf([pods[0]] + rest) == {pods[0].uid} + UidsOf(rest);
      }
    }
  }

  lemma SameMultisetSameUids(a: seq<Pod>, b: seq<Pod>)
    requires multiset(a) == multiset(b)
    ensures UidsOf(a) == UidsOf(b)
  {
    forall p ensures p in a <==> p in b {
      assert p in a <==> p in multiset(a);
      assert p in b <==> p in multiset(b);
    }
  }

  lemma {:induction false} DistinctCount(a: seq<Pod>, p: Pod)
    requires Distinct(a)
    ensures multiset(a)[p] <= 1
  {
    if a != [] {
      assert a == [a[0]] + a[1..];
      DistinctCount(a[1..], p);
      if a[0] == p {
        assert p !in a[1..];
      }
    }
  }

  lemma ReorderDistinct(a: seq<Pod>, b: seq<Pod>)
    requires multiset(a) == multiset(b) && Distinct(a)
    ensures Distinct(b)
  {
    forall i, j | 0 <= i < j < |b| ensures b[i].uid != b[j].uid {
      assert b[i] in multiset(b) && b[j] in multiset(b);
      if b[i] == b[j] {
        assert b == b[..i] + [b[i]] + b[i + 1..j] + [b[j]] + b[j + 1..];
        assert multiset(b)[b[i]] >= 2;
        DistinctCount(a, b[i]);
        assert false;
      } else {
        assert b[i] in a && b[j] in a;
        var k, l :| 0 <= k < |a| && 0 <= l < |a| && a[k] == b[i] && a[l] == b[j];
        assert k < l || l < k;
      }
    }
  }

  // ---- Every step keeps the invariant ------------------------------------------------------------

  lemma PollKeepsCore(s: State, a: Action)
    requires Core(s) && a.Poll? && Enabled(s, a) && PollKeepsUidsFresh(s, a)
    ensures Core(Fire(s, a))
  {
    WithoutUids(a.pods, s.latest);
    WithoutUids(s.latest, a.pods);
  }

  lemma ReceiveKeepsCore(s: State, a: Action)
    requires Core(s) && (a.ReceiveAdds? || a.ReceiveDels?) && Enabled(s, a)
    ensures Core(Fire(s, a))
  {
    if a.ReceiveAdds? {
      SameMultisetSameUids(a.order, s.adds);
      ReorderDistinct(s.adds, a.order);
      assert |multiset(a.order)| == |multiset(s.adds)|;
    }
  }

  lemma EventKeepsCore(s: State, a: Action)
    requires Core(s) && a.LifecycleEvent? && Enabled(s, a)
    ensures Core(Fire(s, a))
  {
  }

  lemma NextKeepsCore(s: State)
    requires Core(s) && Enabled(s, MainNext)
    ensures Core(Fire(s, MainNext))
  {
    var rest := s.main.rest;
    var tail := rest[1..];
    assert UidsOf(rest) == {rest[0].uid} + UidsOf(tail);
    assert rest[0].uid !in UidsOf(tail);
    NextKeepsPhases(s, Fire(s, MainNext));
  }

  lemma NextKeepsPhases(s: State, t: State)
    requires PollsOk(s) && PhasesOk(s) && s.main.pc.NextPod? && s.main.rest != []
    requires t == BeginPod(s)
    requires UidsOf(s.main.rest) == {s.main.rest[0].uid} + UidsOf(t.main.rest)
    requires s.main.rest[0].uid !in UidsOf(t.main.rest)
    ensures PhasesOk(t)
  {
  }

  lemma LockKeepsCore(s: State)
    requires Core(s) && Enabled(s, MainLock)
    ensures Core(Fire(s, MainLock))
  {
  }

  lemma UnlockKeepsCore(s: State)
    requires Core(s) && Enabled(s, MainUnlock)
    ensures Core(Fire(s, MainUnlock))
  {
  }

  lemma SpawnKeepsCore(s: State)
    requires Core(s) && s.main.pc.Locked? && s.main.pc.item.uid !in s.podUpdates && s.main.pc.item.op.Create?
    ensures Core(Lookup(s))
  {
    var y := Worker(s.main.pc.item.uid, [], Receiving, []);
    SpawnKeepsPhases(s, Lookup(s), y);
    SpawnKeepsTable(s, Lookup(s), y);
  }

  lemma SpawnKeepsPhases(s: State, t: State, y: Worker)
    requires PhasesOk(s) && s.main.pc.Locked? && !Closed(y) && y.uid == s.main.pc.item.uid && y.uid in s.announced
    requires t == s.(podUpdates := t.podUpdates, workers := s.workers + [y],
                     main := s.main.(pc := Sending(s.main.pc.item, |s.workers|)))
    ensures PhasesOk(t)
  {
  }

  lemma SpawnKeepsTable(s: State, t: State, y: Worker)
    requires TableOk(s) && s.main.pc.Locked? && s.main.pc.item.op.Create? && NoWorker(s, s.main.pc.item.uid)
    requires y == Worker(s.main.pc.item.uid, [], Receiving, [])
    requires t == s.(podUpdates := s.podUpdates[y.uid := |s.workers|], workers := s.workers + [y],
                     main := s.main.(pc := Sending(s.main.pc.item, |s.workers|)))
    ensures TableOk(t)
  {
  }

  lemma LookupKeepsCore(s: State)
    requires Core(s) && Enabled(s, MainLookup)
    ensures Core(Fire(s, MainLookup))
  {
    var item := s.main.pc.item;
    if item.uid !in s.podUpdates && item.op.Create? {
      SpawnKeepsCore(s);
    } else {
      FoundKeepsCore(s, Fire(s, MainLookup));
    }
  }

  /** Without a new worker only the place of the main loop changes. */
  lemma FoundKeepsCore(s: State, t: State)
    requires Core(s) && s.main.pc.Locked? && t == s.(main := s.main.(pc := t.main.pc))
    requires t == Lookup(s) && !(s.main.pc.item.uid !in s.podUpdates && s.main.pc.item.op.Create?)
    ensures Core(t)
  {
  }

  /** What sending on a channel does to its worker. */
  function Pushed(x: Worker, item: Item): Worker {
    x.(queue := x.queue + [item], history := x.history + [item])
  }

  lemma PushKeepsWorkerOk(x: Worker, item: Item)
    requires WorkerOk(x) && |x.queue| < QUEUE_CAPACITY && item.uid == x.uid && !Closed(x) && !x.pc.Stopped?
    requires item.op.Create? <==> x.history == []
    ensures WorkerOk(Pushed(x, item))
  {
    assert Taken(Pushed(x, item)) == Taken(x);
    PushKeepsShape(x.uid, x.history, item);
    assert Taken(x) + x.queue + [item] == Taken(x) + (x.queue + [item]);
  }

  lemma PushKeepsShape(uid: Uid, h: seq<Item>, item: Item)
    requires HistoryShape(uid, h) && item.uid == uid && (item.op.Create? <==> h == [])
    requires h != [] ==> !h[|h| - 1].op.Kill?
    ensures HistoryShape(uid, h + [item])
  {
  }

  /** The worker the main loop is sending to is alive, for the right pod, and has not been sent a Kill. */
  lemma ReceiverIsOpen(s: State)
    requires Core(s) && s.main.pc.Sending?
    ensures var w, item := s.main.pc.worker, s.main.pc.item;
            && w < |s.workers|
            && s.workers[w].uid == item.uid
            && !s.workers[w].pc.Stopped?
            && !Closed(s.workers[w])
            && (item.op.Create? <==> s.workers[w].history == [])
            && s.lock.ByMain?
  {
  }

  lemma SendKeepsCore(s: State)
    requires Core(s) && Enabled(s, MainSend)
    ensures Core(Fire(s, MainSend))
  {
    ReceiverIsOpen(s);
    var t := Fire(s, MainSend);
    var w := s.main.pc.worker;
    var y := Pushed(s.workers[w], s.main.pc.item);
    SendKeepsPhases(s, t, w, y);
    SendKeepsTable(s, t, w, y);
  }

  lemma SendKeepsPhases(s: State, t: State, w: nat, y: Worker)
    requires PhasesOk(s) && s.main.pc.Sending? && w < |s.workers|
    requires y.uid == s.workers[w].uid == s.main.pc.item.uid && (Closed(y) ==> Finished(s, y.uid))
    requires t == s.(workers := s.workers[w := y], main := s.main.(pc := Unlocking))
    ensures PhasesOk(t)
  {
  }

  lemma SendKeepsTable(s: State, t: State, w: nat, y: Worker)
    requires TableOk(s) && s.main.pc.Sending? && s.main.pc.worker == w < |s.workers|
    requires y.uid == s.workers[w].uid && y.pc == s.workers[w].pc && y.history != []
    requires t == s.(workers := s.workers[w := y], main := s.main.(pc := Unlocking))
    ensures TableOk(t)
  {
  }

  /** Of a worker the core sees its UID, its history, whether it stopped and its hold on the mutex. */
  lemma SwapKeepsCore(s: State, w: nat, y: Worker)
    requires Core(s) && w < |s.workers|
    requires y.uid == s.workers[w].uid && y.history == s.workers[w].history
    requires !y.pc.Stopped? && !y.pc.HoldLock? && !s.workers[w].pc.Stopped? && !s.workers[w].pc.HoldLock?
    ensures Core(s.(workers := s.workers[w := y]))
  {
    var t := s.(workers := s.workers[w := y]);
    SwapKeepsPhases(s, t, w, y);
    SwapKeepsTable(s, t, w, y);
  }

  lemma SwapKeepsPhases(s: State, t: State, w: nat, y: Worker)
    requires PhasesOk(s) && w < |s.workers| && y.uid == s.workers[w].uid && y.history == s.workers[w].history
    requires t == s.(workers := s.workers[w := y], lock := t.lock, podUpdates := t.podUpdates)
    ensures PhasesOk(t)
  {
  }

  lemma SwapKeepsTable(s: State, t: State, w: nat, y: Worker)
    requires TableOk(s) && w < |s.workers| && y.uid == s.workers[w].uid && y.history == s.workers[w].history
    requires y.pc.Stopped? <==> s.workers[w].pc.Stopped?
    requires t == s.(workers := s.workers[w := y], lock := t.lock)
    ensures TableOk(t)
  {
  }

  lemma WorkerLockKeepsCore(s: State, w: nat)
    requires Core(s) && Enabled(s, WorkerLock(w))
    ensures Core(Fire(s, WorkerLock(w)))
  {
    var t := Fire(s, WorkerLock(w));
    var y := s.workers[w].(pc := HoldLock(s.workers[w].pc.item));
    SwapKeepsPhases(s, t, w, y);
    SwapKeepsTable(s, t, w, y);
  }

  lemma RetireKeepsCore(s: State, w: nat)
    requires Core(s) && Enabled(s, WorkerRetire(w)) && s.workers[w].pc.item.uid == s.workers[w].uid
    requires s.workers[w].history != []
    ensures Core(Fire(s, WorkerRetire(w)))
  {
    var t := Fire(s, WorkerRetire(w));
    var y := s.workers[w].(pc := Stopped);
    SwapKeepsPhases(s, t, w, y);
    RetireKeepsTable(s, t, w, y);
  }

  lemma RetireKeepsTable(s: State, t: State, w: nat, y: Worker)
    requires TableOk(s) && w < |s.workers| && y == s.workers[w].(pc := Stopped) && !s.workers[w].pc.Stopped?
    requires t == s.(workers := s.workers[w := y], lock := Free, podUpdates := s.podUpdates - {y.uid})
    ensures TableOk(t)
  {
  }

  /** A worker whose last taken item is a Kill has drained its channel. */
  lemma KilledIsDrained(x: Worker)
    requires WorkerOk(x) && (x.pc.AwaitLock? || x.pc.HoldLock?)
    ensures x.queue == [] && Closed(x) && x.pc.item.uid == x.uid
  {
    var k := |Taken(x)| - 1;
    assert x.history[k] == Taken(x)[k];
  }

  lemma TakeKeepsWorkerOk(x: Worker)
    requires WorkerOk(x) && x.pc.Receiving? && x.queue != []
    ensures WorkerOk(x.(queue := x.queue[1..], pc := Processing(x.queue[0])))
  {
    var y := x.(queue := x.queue[1..], pc := Processing(x.queue[0]));
    assert Taken(y) == Taken(x) + [x.queue[0]];
  }

  lemma FinishKeepsWorkerOk(x: Worker)
    requires WorkerOk(x) && x.pc.Processing?
    ensures WorkerOk(x.(pc := if x.pc.item.op.Kill? then AwaitLock(x.pc.item) else Receiving))
  {
    var y := x.(pc := if x.pc.item.op.Kill? then AwaitLock(x.pc.item) else Receiving);
    assert Taken(y) == Taken(x);
    forall i | 0 <= i < |Taken(x)| && Taken(x)[i].op.Kill? ensures i == |Taken(x)| - 1 {
      assert x.history[i] == Taken(x)[i];
    }
  }

  lemma LockKeepsWorkerOk(x: Worker)
    requires WorkerOk(x)
    ensures x.pc.AwaitLock? ==> WorkerOk(x.(pc := HoldLock(x.pc.item)))
    ensures x.pc.HoldLock? ==> WorkerOk(x.(pc := Stopped))
  {
    if x.pc.HoldLock? {
      KilledIsDrained(x);
      assert Taken(x.(pc := Stopped)) == Taken(x);
    } else if x.pc.AwaitLock? {
      assert Taken(x.(pc := HoldLock(x.pc.item))) == Taken(x);
    }
  }

  lemma StepKeepsCore(s: State, a: Action)
    requires Core(s) && WorkersOk(s.workers) && Enabled(s, a) && PollKeepsUidsFresh(s, a)
    ensures Core(Fire(s, a))
  {
    match a
    case Poll(_) => PollKeepsCore(s, a);
    case ReceiveAdds(_) => ReceiveKeepsCore(s, a);
    case ReceiveDels => ReceiveKeepsCore(s, a);
    case LifecycleEvent(_, _) => EventKeepsCore(s, a);
    case MainNext => NextKeepsCore(s);
    case MainLock => LockKeepsCore(s);
    case MainLookup => LookupKeepsCore(s);
    case MainSend => SendKeepsCore(s);
    case MainUnlock => UnlockKeepsCore(s);
    case WorkerTake(w) => SwapKeepsCore(s, w, Fire(s, a).workers[w]);
    case WorkerFinish(w) => SwapKeepsCore(s, w, Fire(s, a).workers[w]);
    case WorkerLock(w) => WorkerLockKeepsCore(s, w);
    case WorkerRetire(w) =>
      KilledIsDrained(s.workers[w]);
      RetireKeepsCore(s, w);
  }

  lemma SwapKeepsWorkersOk(workers: seq<Worker>, w: nat, y: Worker)
    requires WorkersOk(workers) && w < |workers| && WorkerOk(y)
    ensures WorkersOk(workers[w := y])
  {
  }

  /** Each step changes at most one worker, or starts one; what it leaves behind is well-formed. */
  lemma StepKeepsWorkers(s: State, a: Action)
    requires Core(s) && WorkersOk(s.workers) && Enabled(s, a)
    ensures WorkersOk(Fire(s, a).workers)
  {
    if a.MainSend? {
      var w := s.main.pc.worker;
      ReceiverIsOpen(s);
      PushKeepsWorkerOk(s.workers[w], s.main.pc.item);
      SwapKeepsWorkersOk(s.workers, w, Pushed(s.workers[w], s.main.pc.item));
    } else if a.WorkerTake? || a.WorkerFinish? || a.WorkerLock? || a.WorkerRetire? {
      WorkerStepKeepsWorkers(s, a);
    } else if a.MainLookup? {
      SpawnKeepsWorkersOk(s.workers, Worker(s.main.pc.item.uid, [], Receiving, []));
    }
  }

  lemma SpawnKeepsWorkersOk(workers: seq<Worker>, y: Worker)
    requires WorkersOk(workers) && y == Worker(y.uid, [], Receiving, [])
    ensures WorkersOk(workers + [y])
  {
  }

  lemma WorkerStepKeepsWorkers(s: State, a: Action)
    requires WorkersOk(s.workers) && Enabled(s, a)
    requires a.WorkerTake? || a.WorkerFinish? || a.WorkerLock? || a.WorkerRetire?
    ensures WorkersOk(Fire(s, a).workers)
  {
    var w := a.worker;
    match a {
      case WorkerTake(_) => TakeKeepsWorkerOk(s.workers[w]);
      case WorkerFinish(_) => FinishKeepsWorkerOk(s.workers[w]);
      case WorkerLock(_) => LockKeepsWorkerOk(s.workers[w]);
      case WorkerRetire(_) => LockKeepsWorkerOk(s.workers[w]);
    }
    SwapKeepsWorkersOk(s.workers, w, Fire(s, a).workers[w]);
  }

  lemma StepKeepsInv(s: State, a: Action)
    requires Inv(s) && Enabled(s, a) && PollKeepsUidsFresh(s, a)
    ensures Inv(Fire(s, a))
  {
    StepKeepsCore(s, a);
    StepKeepsWorkers(s, a);
  }

  lemma {:induction false} RunKeepsInv(s: State, acts: seq<Action>)
    requires Inv(s) && ValidRun(s, acts) && WellBehaved(s, acts)
    ensures Inv(After(s, acts))
    decreases |acts|
  {
    if acts != [] {
      StepKeepsInv(s, acts[0]);
      RunKeepsInv(Fire(s, acts[0]), acts[1..]);
    }
  }

  lemma ReachableInv(acts: seq<Action>)
    requires ValidRun(Initial, acts) && WellBehaved(Initial, acts)
    ensures Inv(After(Initial, acts))
  {
    RunKeepsInv(Initial, acts);
  }

  // ---- What holds in every reachable state -------------------------------------------------------

  /** The main loop holds the mutex and cannot send because the channel is full. */
  predicate Blocked(s: State) {
    && s.main.pc.Sending?
    && s.main.pc.worker < |s.workers|
    && |s.workers[s.main.pc.worker].queue| == QUEUE_CAPACITY
  }

  /** One or two mutex-free steps of the worker behind the full channel make room for the send. */
  ghost predicate UnblocksBy(s: State, more: seq<Action>)
    requires Blocked(s)
  {
    && 1 <= |more| <= 2
    && (forall a :: a in more ==> LockFreeStepOf(a, s.main.pc.worker))
    && ValidRun(s, more)
    && Enabled(After(s, more), MainSend)
  }

  /**
    Deadlock freedom: whenever the main loop is blocked on a full channel with the mutex in its hand,
    the worker behind that channel has a step that needs no mutex, and within two such steps the
    send goes through.
  */
  lemma BlockedWorkerCanStep(acts: seq<Action>)
    requires ValidRun(Initial, acts) && WellBehaved(Initial, acts)
    ensures var s := After(Initial, acts);
            Blocked(s) ==>
              && s.lock.ByMain?
              && (s.workers[s.main.pc.worker].pc.Receiving? || s.workers[s.main.pc.worker].pc.Processing?)
              && exists more :: UnblocksBy(s, more)
  {
    ReachableInv(acts);
    var s := After(Initial, acts);
    if Blocked(s) {
      var _ := BlockedWorkerDrains(s);
    }
  }

  lemma BlockedWorkerDrains(s: State) returns (more: seq<Action>)
    requires Core(s) && Blocked(s) && WorkerOk(s.workers[s.main.pc.worker])
    ensures s.lock.ByMain?
    ensures s.workers[s.main.pc.worker].pc.Receiving? || s.workers[s.main.pc.worker].pc.Processing?
    ensures UnblocksBy(s, more)
  {
    var w := s.main.pc.worker;
    var x := s.workers[w];
    ReceiverIsOpen(s);
    OpenWorkerIsFree(x);
    if x.pc.Receiving? {
      more := [WorkerTake(w)];
      OneStep(s, WorkerTake(w));
    } else {
      more := [WorkerFinish(w), WorkerTake(w)];
      TwoSteps(s, WorkerFinish(w), WorkerTake(w));
    }
  }

  lemma OneStep(s: State, a: Action)
    requires Enabled(s, a)
    ensures ValidRun(s, [a]) && After(s, [a]) == Fire(s, a)
  {
    assert [a][1..] == [];
  }

  lemma TwoSteps(s: State, a: Action, b: Action)
    requires Enabled(s, a) && Enabled(Fire(s, a), b)
    ensures ValidRun(s, [a, b]) && After(s, [a, b]) == Fire(Fire(s, a), b)
  {
    OneStep(Fire(s, a), b);
    assert [a, b][1..] == [b];
  }

  /** Nothing has been sent behind a Kill, so a worker without one neither holds nor wants the mutex. */
  lemma OpenWorkerIsFree(x: Worker)
    requires WorkerOk(x) && !Closed(x) && !x.pc.Stopped?
    ensures x.pc.Receiving? || (x.pc.Processing? && !x.pc.item.op.Kill?)
  {
    if x.pc.AwaitLock? || x.pc.HoldLock? {
      KilledIsDrained(x);
    }
    if x.pc.Processing? {
      var k := |Taken(x)| - 1;
      assert x.history[k] == Taken(x)[k];
    }
  }

  /**
    A UID never gets a second worker, its channel accepts Create first and Kill at most once and last,
    what is still queued is exactly the part of the history not yet taken, the channel table lists the
    workers that have not stopped, and a worker that has stopped took everything its channel accepted.
  */
  ghost predicate HistoriesOk(s: State) {
    && (forall v, w :: 0 <= v < w < |s.workers| ==> s.workers[v].uid != s.workers[w].uid)
    && (forall w :: 0 <= w < |s.workers| ==> HistoryOk(s, s.workers[w]))
  }

  ghost predicate HistoryOk(s: State, x: Worker) {
    && HistoryShape(x.uid, x.history)
    && |x.queue| <= |x.history|
    && x.queue == x.history[|x.history| - |x.queue|..]
    && (x.pc.Stopped? ==> x.queue == [] && Closed(x))
    && (x.pc.Stopped? <==> x.uid !in s.podUpdates)
  }

  lemma WorkerHistories(acts: seq<Action>)
    requires ValidRun(Initial, acts) && WellBehaved(Initial, acts)
    ensures HistoriesOk(After(Initial, acts))
  {
    ReachableInv(acts);
    var s := After(Initial, acts);
    forall w | 0 <= w < |s.workers| ensures HistoryOk(s, s.workers[w]) {
      WorkerHasHistory(s, w);
    }
  }

  lemma WorkerHasHistory(s: State, w: nat)
    requires TableOk(s) && w < |s.workers| && WorkerOk(s.workers[w])
    ensures HistoryOk(s, s.workers[w])
  {
  }

  // ---- The kubelet can always finish what it has accepted ----------------------------------------

  lemma {:induction false} Concatenated(s: State, a: seq<Action>, b: seq<Action>)
    requires ValidRun(s, a) && ValidRun(After(s, a), b)
    ensures ValidRun(s, a + b) && After(s, a + b) == After(After(s, a), b)
    decreases |a|
  {
    if a == [] {
      assert a + b == b;
    } else {
      Concatenated(Fire(s, a[0]), a[1..], b);
      assert (a + b)[1..] == a[1..] + b;
    }
  }

  /** How far the main loop is from its select, counting the step a full channel's worker owes it. */
  function MainRank(s: State): nat {
    20 * |s.main.rest| +
    match s.main.pc
    case Select => 0
    case NextPod => 1
    case Unlocking => 2
    case Sending(_, w) =>
      if w < |s.workers| && |s.workers[w].queue| == QUEUE_CAPACITY then
        if s.workers[w].pc.Processing? then 5 else 4
      else 3
    case Locked(_) => 6
    case Locking(_) => if s.lock.Free? then 7 else 8
  }

  lemma MainMakesProgress(s: State) returns (a: Action)
    requires Inv(s) && !s.main.pc.Select?
    ensures Internal(a) && Enabled(s, a)
    ensures MainRank(Fire(s, a)) < MainRank(s)
  {
    if Blocked(s) {
      assert WorkerOk(s.workers[s.main.pc.worker]);
      a := BlockedStep(s, s.main.pc.worker);
    } else {
      assert s.main.pc.Sending? ==> WorkerOk(s.workers[s.main.pc.worker]);
      a := UnblockedStep(s);
    }
  }

  lemma UnblockedStep(s: State) returns (a: Action)
    requires PollsOk(s) && LockOk(s) && FlightOk(s) && !Blocked(s) && !s.main.pc.Select?
    requires s.main.pc.Sending? ==> |s.workers[s.main.pc.worker].queue| <= QUEUE_CAPACITY
    ensures Internal(a) && Enabled(s, a)
    ensures MainRank(Fire(s, a)) < MainRank(s)
  {
    match s.main.pc
    case NextPod => a := MainNext;
    case Locking(_) => a := if s.lock.Free? then MainLock else WorkerRetire(s.lock.worker);
    case Locked(_) => a := MainLookup;
    case Unlocking => a := MainUnlock;
    case Sending(_, _) => a := MainSend;
  }

  lemma BlockedStep(s: State, w: nat) returns (a: Action)
    requires Core(s) && Blocked(s) && w == s.main.pc.worker && WorkerOk(s.workers[w])
    ensures Internal(a) && Enabled(s, a)
    ensures MainRank(Fire(s, a)) < MainRank(s)
  {
    var x := s.workers[w];
    ReceiverIsOpen(s);
    OpenWorkerIsFree(x);
    a := if x.pc.Receiving? then WorkerTake(w) else WorkerFinish(w);
    assert Fire(s, a).main == s.main;
  }

  lemma {:induction false} MainReturns(s: State) returns (acts: seq<Action>)
    requires Inv(s)
    ensures (forall a :: a in acts ==> Internal(a)) && ValidRun(s, acts)
    ensures Inv(After(s, acts)) && After(s, acts).main.pc.Select?
    decreases MainRank(s)
  {
    if s.main.pc.Select? {
      return [];
    }
    var a := MainMakesProgress(s);
    StepKeepsInv(s, a);
    var rest := MainReturns(Fire(s, a));
    acts := [a] + rest;
    assert acts[1..] == rest;
  }

  function Load(x: Worker): nat {
    4 * |x.queue| + if x.pc.Processing? then 3 else if x.pc.AwaitLock? then 2 else if x.pc.HoldLock? then 1 else 0
  }

  function TotalLoad(workers: seq<Worker>): nat {
    if workers == [] then 0 else Load(workers[0]) + TotalLoad(workers[1..])
  }

  lemma {:induction false} SwapChangesLoad(workers: seq<Worker>, w: nat, y: Worker)
    requires w < |workers|
    ensures TotalLoad(workers[w := y]) == TotalLoad(workers) - Load(workers[w]) + Load(y)
  {
    if w == 0 {
      assert workers[w := y][1..] == workers[1..];
    } else {
      SwapChangesLoad(workers[1..], w - 1, y);
      assert workers[w := y][1..] == workers[1..][w - 1 := y];
    }
  }

  /** Nothing is left to do until the next poll or event. */
  ghost predicate Quiet(s: State) {
    && s.main.pc.Select?
    && s.lock.Free?
    && forall w :: 0 <= w < |s.workers| ==>
         Resting(s.workers[w])
  }

  predicate Resting(x: Worker) {
    x.queue == [] && (x.pc.Receiving? || x.pc.Stopped?)
  }

  /** The only step worker `w` can take while nobody holds the mutex. */
  function StepOf(s: State, w: nat): Action
    requires w < |s.workers|
  {
    match s.workers[w].pc
    case Receiving => WorkerTake(w)
    case AwaitLock(_) => WorkerLock(w)
    case _ => WorkerFinish(w)
  }

  lemma BusyWorkerCanStep(s: State, w: nat)
    requires w < |s.workers| && WorkerOk(s.workers[w]) && !Resting(s.workers[w])
    requires s.lock.Free? && !s.workers[w].pc.HoldLock?
    ensures Internal(StepOf(s, w)) && Enabled(s, StepOf(s, w))
    ensures Load(Fire(s, StepOf(s, w)).workers[w]) < Load(s.workers[w])
  {
  }

  lemma HolderCanRetire(s: State)
    requires Core(s) && WorkersOk(s.workers) && s.lock.ByWorker? && s.main.pc.Select?
    ensures var w := s.lock.worker;
            && w < |s.workers| && Enabled(s, WorkerRetire(w))
            && Fire(s, WorkerRetire(w)).main == s.main
            && Fire(s, WorkerRetire(w)).workers == s.workers[w := Fire(s, WorkerRetire(w)).workers[w]]
            && Load(Fire(s, WorkerRetire(w)).workers[w]) < Load(s.workers[w])
  {
  }

  lemma OtherWorkersStay(s: State, w: nat)
    requires w < |s.workers| && Enabled(s, StepOf(s, w))
    ensures Fire(s, StepOf(s, w)).main == s.main
    ensures Fire(s, StepOf(s, w)).workers == s.workers[w := Fire(s, StepOf(s, w)).workers[w]]
  {
  }

  lemma BusyWorkerExists(s: State) returns (w: nat)
    requires Core(s) && s.main.pc.Select? && !Quiet(s) && !s.lock.ByWorker?
    ensures w < |s.workers| && !Resting(s.workers[w]) && s.lock.Free? && !s.workers[w].pc.HoldLock?
  {
    w :| w < |s.workers| && !Resting(s.workers[w]);
  }

  lemma WorkersMakeProgress(s: State) returns (a: Action)
    requires Inv(s) && s.main.pc.Select? && !Quiet(s)
    ensures Internal(a) && Enabled(s, a) && Fire(s, a).main.pc.Select?
    ensures TotalLoad(Fire(s, a).workers) < TotalLoad(s.workers)
  {
    var w: nat;
    if s.lock.ByWorker? {
      w := s.lock.worker;
      a := WorkerRetire(w);
      HolderCanRetire(s);
    } else {
      w := BusyWorkerExists(s);
      BusyWorkerCanStep(s, w);
      OtherWorkersStay(s, w);
      a := StepOf(s, w);
    }
    SwapChangesLoad(s.workers, w, Fire(s, a).workers[w]);
  }

  lemma {:induction false} WorkersDrain(s: State) returns (acts: seq<Action>)
    requires Inv(s) && s.main.pc.Select?
    ensures (forall a :: a in acts ==> Internal(a)) && ValidRun(s, acts) && Quiet(After(s, acts))
    decreases TotalLoad(s.workers)
  {
    if Quiet(s) {
      return [];
    }
    var a := WorkersMakeProgress(s);
    StepKeepsInv(s, a);
    var rest := WorkersDrain(Fire(s, a));
    acts := [a] + rest;
    assert acts[1..] == rest;
  }

  /**
    From every reachable state the goroutines can, by themselves, reach a state where the main loop is
    back in its select, the mutex is free and every accepted item has been handled.
  */
  lemma KubeletCanAlwaysDrain(acts: seq<Action>)
    requires ValidRun(Initial, acts) && WellBehaved(Initial, acts)
    ensures exists more :: DrainsBy(After(Initial, acts), more)
  {
    ReachableInv(acts);
    var s := After(Initial, acts);
    var first := MainReturns(s);
    var second := WorkersDrain(After(s, first));
    Concatenated(s, first, second);
    BothInternal(first, second);
    assert DrainsBy(s, first + second);
  }

  lemma BothInternal(first: seq<Action>, second: seq<Action>)
    requires (forall a :: a in first ==> Internal(a)) && (forall a :: a in second ==> Internal(a))
    ensures forall a :: a in first + second ==> Internal(a)
  {
  }

  ghost predicate DrainsBy(s: State, more: seq<Action>) {
    (forall a :: a in more ==> Internal(a)) && ValidRun(s, more) && Quiet(After(s, more))
  }
}
