/** What reaches a pod's worker: its creation, one item per event of the pod, and its end. */
module KubeletEvents {
  import opened KubeletTypes
  import opened PodWorkers
  import KubeletDeadlock

  // ---- What the kubelet is told ------------------------------------------------------------------

  /**
    The polls, additions, deletions and events so far, told from the actions alone: the last two polls, the UIDs ever
    received as added and as deleted, the pods known now, and what the events of known pods ask for.
  */
  datatype Tally = Tally(
    latest: seq<Pod>, before: seq<Pod>, added: set<Uid>, gone: set<Uid>, known: map<Uid, Pod>, events: seq<Item>)

  const Nothing := Tally([], [], {}, {}, map[], [])

  function Table(pods: seq<Pod>): map<Uid, Pod> {
    if pods == [] then map[] else map[pods[0].uid := pods[0]] + Table(pods[1..])
  }

  /** A pod that always restarts is re-created when a container died; anything else is a sync. */
  function Reaction(pod: Pod, died: bool): SyncOp {
    if died && pod.policy == Always then Recreate else Sync
  }

  function Heard(t: Tally, a: Action): Tally {
    match a
    case Poll(pods) => t.(latest := pods, before := t.latest)
    case ReceiveAdds(order) => t.(added := t.added + UidsOf(order), known := t.known + Table(order))
    case ReceiveDels =>
      var gone := UidsOf(t.before) - UidsOf(t.latest);
      t.(gone := t.gone + gone, known := t.known - gone)
    case LifecycleEvent(uid, died) =>
      if uid in t.known then t.(events := t.events + [Item(Reaction(t.known[uid], died), uid)]) else t
    case _ => t
  }

  function TallyOf(t: Tally, acts: seq<Action>): Tally
    decreases |acts|
  {
    if acts == [] then t else TallyOf(Heard(t, acts[0]), acts[1..])
  }

  /** The items for one pod, in order. */
  function ItemsOf(items: seq<Item>, u: Uid): seq<Item> {
    if items == [] then []
    else
      var n := |items| - 1;
      ItemsOf(items[..n], u) + if items[n].uid == u then [items[n]] else []
  }

  lemma ItemsAppend(items: seq<Item>, x: Item, u: Uid)
    ensures ItemsOf(items + [x], u) == ItemsOf(items, u) + if x.uid == u then [x] else []
  {
    assert (items + [x])[..|items|] == items;
  }

  lemma {:induction false} TableKeys(pods: seq<Pod>)
    ensures Table(pods).Keys == UidsOf(pods)
    ensures forall u :: u in Table(pods) ==> Table(pods)[u] in pods && Table(pods)[u].uid == u
  {
    if pods != [] {
      TableKeys(pods[1..]);
      assert pods == [pods[0]] + pods[1..];
    }
  }

  // ---- The main loop keeps up with it ------------------------------------------------------------

  /** The tally explains the main loop's pods, but for the part of a batch still to be handled. */
  ghost predicate Tracks(s: State, t: Tally) {
    && s.latest == t.latest && (s.dels == [] || UidsOf(s.dels) == UidsOf(t.before) - UidsOf(t.latest))
    && UidsOf(s.latest) <= s.announced <= t.added + UidsOf(s.adds)
    && UidsOf(t.before) <= s.announced
    && t.known.Keys <= t.added
    && (s.main.pc.Select? ==> s.main.rest == [])
    && match s.main.batch
       case Add => t.known == s.podManager + Table(s.main.rest) && UidsOf(s.main.rest) <= t.added
       case Delete => t.known == s.podManager - UidsOf(s.main.rest) && UidsOf(s.main.rest) <= t.gone
  }

  lemma SelectTracks(s: State, t: Tally)
    requires Tracks(s, t) && s.main.pc.Select?
    ensures t.known == s.podManager
  {
    assert Table([]) == map[] && UidsOf([]) == {};
  }

  lemma PollTracks(s: State, t: Tally, a: Action)
    requires Tracks(s, t) && a.Poll? && Enabled(s, a)
    ensures Tracks(Fire(s, a), Heard(t, a))
  {
    WithoutUids(a.pods, s.latest);
    WithoutUids(s.latest, a.pods);
  }

  lemma ReceiveTracks(s: State, t: Tally, a: Action)
    requires Tracks(s, t) && (a.ReceiveAdds? || a.ReceiveDels?) && Enabled(s, a)
    ensures Tracks(Fire(s, a), Heard(t, a))
  {
    SelectTracks(s, t);
    if a.ReceiveAdds? {
      SameMultisetSameUids(a.order, s.adds);
      TableKeys(a.order);
    }
  }

  lemma NextTracks(s: State, t: Tally)
    requires Tracks(s, t) && Enabled(s, MainNext)
    ensures Tracks(Fire(s, MainNext), t)
  {
    var rest := s.main.rest;
    assert rest == [rest[0]] + rest[1..];
    assert UidsOf(rest) == {rest[0].uid} + UidsOf(rest[1..]);
    FirstOfTable(s.podManager, rest);
  }

  /** Handling the first pod of a batch leaves what the batch leads to as it is. */
  lemma FirstOfTable(pods: map<Uid, Pod>, rest: seq<Pod>)
    requires rest != []
    ensures pods + Table(rest) == pods[rest[0].uid := rest[0]] + Table(rest[1..])
  {
    FirstOfSum(pods, rest[0].uid, rest[0], Table(rest[1..]));
  }

  lemma FirstOfSum(pods: map<Uid, Pod>, u: Uid, pod: Pod, rest: map<Uid, Pod>)
    ensures pods + (map[u := pod] + rest) == pods[u := pod] + rest
  {
  }

  lemma StepTracks(s: State, t: Tally, a: Action)
    requires Tracks(s, t) && Enabled(s, a)
    ensures Tracks(Fire(s, a), Heard(t, a))
  {
    if a.Poll? {
      PollTracks(s, t, a);
    } else if a.ReceiveAdds? || a.ReceiveDels? {
      ReceiveTracks(s, t, a);
    } else if a.MainNext? {
      NextTracks(s, t);
    } else {
      OtherFrame(s, t, a);
      OtherTracks(s, t, Fire(s, a), Heard(t, a));
    }
  }

  predicate SamePods(s: State, s': State) {
    && s'.latest == s.latest && s'.adds == s.adds && s'.dels == s.dels && s'.announced == s.announced
    && s'.podManager == s.podManager && s'.main.batch == s.main.batch && s'.main.rest == s.main.rest
  }

  lemma OtherFrame(s: State, t: Tally, a: Action)
    requires Enabled(s, a) && !a.Poll? && !a.ReceiveAdds? && !a.ReceiveDels? && !a.MainNext?
    ensures SamePods(s, Fire(s, a)) && Heard(t, a) == t.(events := Heard(t, a).events)
    ensures Fire(s, a).main.pc.Select? ==> s.main.pc.Select? || s.main.rest == []
  {
  }

  lemma OtherTracks(s: State, t: Tally, s': State, t': Tally)
    requires Tracks(s, t) && t' == t.(events := t'.events) && SamePods(s, s')
    requires s'.main.pc.Select? ==> s.main.rest == []
    ensures Tracks(s', t')
  {
  }

  // ---- What a worker has been sent ---------------------------------------------------------------

  /** The item the main loop has for the pod and has not sent yet. */
  function Flight(s: State, u: Uid): seq<Item> {
    if InFlight(s.main.pc) && s.main.pc.item.uid == u then [s.main.pc.item] else []
  }

  /** The main loop has come to the pod's addition. */
  predicate Begun(s: State, t: Tally, u: Uid) {
    u in t.added && !(s.main.batch.Add? && u in UidsOf(s.main.rest))
  }

  /** The main loop has come to its deletion. */
  predicate Ended(s: State, t: Tally, u: Uid) {
    u in t.gone && !(s.main.batch.Delete? && u in UidsOf(s.main.rest))
  }

  function Full(events: seq<Item>, u: Uid, begun: bool, ended: bool): seq<Item> {
    if !begun then [] else [Item(Create, u)] + events + if ended then [Item(Kill, u)] else []
  }

  /** A Create once the addition is handled, an item per event, and a Kill once the deletion is handled. */
  function Expected(s: State, t: Tally, u: Uid): seq<Item> {
    Full(ItemsOf(t.events, u), u, Begun(s, t, u), Ended(s, t, u))
  }

  /** The history of the pod's worker, with what is on its way, is exactly what is expected. */
  ghost predicate Posted(s: State, t: Tally, u: Uid) {
    && (forall w :: 0 <= w < |s.workers| && s.workers[w].uid == u ==> s.workers[w].history + Flight(s, u) == Expected(s, t, u))
    && (NoWorker(s, u) ==> Flight(s, u) == Expected(s, t, u))
  }

  /** Nothing was ever heard of a pod whose addition is still to come. */
  predicate Unheard(s: State, t: Tally, u: Uid) {
    && (!Begun(s, t, u) ==> ItemsOf(t.events, u) == [])
    && (u in t.gone ==> Begun(s, t, u))
  }

  ghost predicate Account(s: State, t: Tally) {
    forall u: Uid :: Posted(s, t, u)
  }

  ghost predicate Silent(s: State, t: Tally) {
    forall u: Uid :: Unheard(s, t, u)
  }

  ghost predicate Kept(s: State, t: Tally) {
    Inv(s) && Tracks(s, t) && Silent(s, t) && Account(s, t)
  }

  lemma FullEnds(events: seq<Item>, u: Uid, begun: bool, ended: bool)
    ensures var h := Full(events, u, begun, ended);
            && (begun <==> h != [])
            && (h != [] ==> h[0] == Item(Create, u))
            && (begun && ended ==> h[|h| - 1] == Item(Kill, u))
  {
  }

  lemma FullGrows(events: seq<Item>, u: Uid, x: Item)
    ensures Full(events + [x], u, true, false) == Full(events, u, true, false) + [x]
    ensures Full(events, u, true, true) == Full(events, u, true, false) + [Item(Kill, u)]
    ensures Full([], u, true, false) == [Item(Create, u)]
  {
    assert [Item(Create, u)] + events + [] == [Item(Create, u)] + events;
    assert [Item(Create, u)] + (events + [x]) + [] == [Item(Create, u)] + events + [x];
  }

  lemma HasWorker(s: State, u: Uid) returns (w: nat)
    requires !NoWorker(s, u)
    ensures w < |s.workers| && s.workers[w].uid == u
  {
    w :| 0 <= w < |s.workers| && s.workers[w].uid == u;
  }

  /** While nothing is on its way, a pod that was begun has a worker, and one that was also ended is finished. */
  lemma QuietPod(s: State, t: Tally, u: Uid)
    requires PhasesOk(s) && Posted(s, t, u) && !InFlight(s.main.pc)
    ensures Begun(s, t, u) ==> !NoWorker(s, u)
    ensures Begun(s, t, u) && Ended(s, t, u) ==> Finished(s, u)
  {
    FullEnds(ItemsOf(t.events, u), u, Begun(s, t, u), Ended(s, t, u));
    if !NoWorker(s, u) {
      var w := HasWorker(s, u);
      assert s.workers[w].history + [] == s.workers[w].history;
      assert Begun(s, t, u) && Ended(s, t, u) ==> Closed(s.workers[w]);
    }
  }

  lemma BegunAtSelect(s: State, t: Tally, u: Uid)
    requires s.main.rest == []
    ensures Begun(s, t, u) == (u in t.added) && Ended(s, t, u) == (u in t.gone)
  {
    assert UidsOf([]) == {};
  }

  lemma AddsAreNew(s: State, t: Tally)
    requires Kept(s, t) && s.main.pc.Select?
    ensures UidsOf(s.adds) !! t.added
  {
    forall u | u in UidsOf(s.adds) ensures u !in t.added {
      assert Unborn(s, u) && Posted(s, t, u);
      QuietPod(s, t, u);
      BegunAtSelect(s, t, u);
    }
  }

  lemma DelsAreNew(s: State, t: Tally)
    requires Kept(s, t) && s.main.pc.Select? && s.adds == []
    ensures UidsOf(s.dels) !! t.gone && UidsOf(s.dels) <= t.added
  {
    assert UidsOf([]) == {};
    forall u | u in UidsOf(s.dels) ensures u !in t.gone && u in t.added {
      assert Posted(s, t, u);
      QuietPod(s, t, u);
      BegunAtSelect(s, t, u);
    }
  }

  // ---- Steps that leave the workers alone --------------------------------------------------------

  /** What is expected grows by what is newly on its way. */
  lemma PostedGrows(s: State, s': State, t: Tally, t': Tally, u: Uid, x: seq<Item>)
    requires Posted(s, t, u) && s'.workers == s.workers
    requires Flight(s, u) == [] && Flight(s', u) == x && Expected(s', t', u) == Expected(s, t, u) + x
    ensures Posted(s', t', u)
  {
    forall w | 0 <= w < |s.workers| && s.workers[w].uid == u ensures s.workers[w].history + x == Expected(s', t', u) {
      assert s.workers[w].history + [] == s.workers[w].history;
    }
    assert NoWorker(s', u) ==> NoWorker(s, u);
    assert [] + x == x;
  }

  predicate SameHistories(ws: seq<Worker>, vs: seq<Worker>) {
    |ws| == |vs| && forall w :: 0 <= w < |ws| ==> ws[w].uid == vs[w].uid && ws[w].history == vs[w].history
  }

  lemma PostedStays(s: State, s': State, t: Tally, t': Tally, u: Uid)
    requires Posted(s, t, u) && SameHistories(s'.workers, s.workers)
    requires Flight(s', u) == Flight(s, u) && Expected(s', t', u) == Expected(s, t, u)
    ensures Posted(s', t', u)
  {
    if NoWorker(s', u) {
      assert NoWorker(s, u) by {
        forall w | 0 <= w < |s.workers| ensures s.workers[w].uid != u { assert s'.workers[w].uid != u; }
      }
    }
  }

  /** Steps of which the account sees nothing: same events, same part of the batch, same item. */
  lemma SameKeeps(s: State, s': State, t: Tally, t': Tally)
    requires Silent(s, t) && Account(s, t) && SameHistories(s'.workers, s.workers) && t'.events == t.events
    requires forall u :: Begun(s', t', u) == Begun(s, t, u) && Ended(s', t', u) == Ended(s, t, u)
    requires forall u :: u in t'.gone ==> Begun(s', t', u)
    requires InFlight(s'.main.pc) == InFlight(s.main.pc) && (InFlight(s.main.pc) ==> s'.main.pc.item == s.main.pc.item)
    ensures Silent(s', t') && Account(s', t')
  {
    forall u: Uid ensures Unheard(s', t', u) {
      assert Unheard(s, t, u);
    }
    forall u: Uid ensures Posted(s', t', u) {
      assert Posted(s, t, u);
      PostedStays(s, s', t, t', u);
    }
  }

  lemma ReceiveAddsKeeps(s: State, t: Tally, a: Action)
    requires Kept(s, t) && a.ReceiveAdds? && Enabled(s, a)
    ensures Silent(Fire(s, a), Heard(t, a)) && Account(Fire(s, a), Heard(t, a))
  {
    AddsAreNew(s, t);
    SameMultisetSameUids(a.order, s.adds);
    ReceivedAdds(s, t, a, UidsOf(a.order));
  }

  lemma ReceivedAdds(s: State, t: Tally, a: Action, us: set<Uid>)
    requires Silent(s, t) && Account(s, t) && a.ReceiveAdds? && Enabled(s, a) && s.main.rest == []
    requires us == UidsOf(a.order) && us !! t.added
    ensures Silent(Fire(s, a), Heard(t, a)) && Account(Fire(s, a), Heard(t, a))
  {
    forall u ensures Begun(Fire(s, a), Heard(t, a), u) == Begun(s, t, u) && Ended(Fire(s, a), Heard(t, a), u) == Ended(s, t, u) {
      BegunAtSelect(s, t, u);
    }
    forall u | u in t.gone ensures Begun(s, t, u) {
      assert Unheard(s, t, u);
    }
    SameKeeps(s, Fire(s, a), t, Heard(t, a));
  }

  lemma ReceiveDelsKeeps(s: State, t: Tally)
    requires Kept(s, t) && Enabled(s, ReceiveDels)
    ensures Silent(Fire(s, ReceiveDels), Heard(t, ReceiveDels)) && Account(Fire(s, ReceiveDels), Heard(t, ReceiveDels))
  {
    DelsAreNew(s, t);
    assert UidsOf([]) == {};
    ReceivedDels(s, t, UidsOf(s.dels));
  }

  lemma ReceivedDels(s: State, t: Tally, us: set<Uid>)
    requires Silent(s, t) && Account(s, t) && Enabled(s, ReceiveDels) && s.main.rest == []
    requires us == UidsOf(s.dels) == UidsOf(t.before) - UidsOf(t.latest) && us !! t.gone && us <= t.added
    ensures Silent(Fire(s, ReceiveDels), Heard(t, ReceiveDels)) && Account(Fire(s, ReceiveDels), Heard(t, ReceiveDels))
  {
    var s', t' := Fire(s, ReceiveDels), Heard(t, ReceiveDels);
    forall u ensures Begun(s', t', u) == Begun(s, t, u) && Ended(s', t', u) == Ended(s, t, u) {
      BegunAtSelect(s, t, u);
    }
    forall u | u in t'.gone ensures Begun(s', t', u) {
      assert Unheard(s, t, u);
      BegunAtSelect(s, t, u);
    }
    SameKeeps(s, s', t, t');
  }

  lemma EventKeeps(s: State, t: Tally, a: Action)
    requires Kept(s, t) && a.LifecycleEvent? && Enabled(s, a)
    ensures Silent(Fire(s, a), Heard(t, a)) && Account(Fire(s, a), Heard(t, a))
  {
    SelectTracks(s, t);
    if a.uid in t.known {
      BegunAtSelect(s, t, a.uid);
      assert Posted(s, t, a.uid);
      QuietPod(s, t, a.uid);
      forall u ensures Unheard(Fire(s, a), Heard(t, a), u) && Posted(Fire(s, a), Heard(t, a), u) {
        assert Unheard(s, t, u) && Posted(s, t, u);
        EventOfKnown(s, t, a, u);
      }
    }
  }

  lemma EventOfKnown(s: State, t: Tally, a: Action, u: Uid)
    requires a.LifecycleEvent? && Enabled(s, a) && s.podManager == t.known && a.uid in t.known && s.main.rest == []
    requires Unheard(s, t, u) && Posted(s, t, u) && a.uid in t.added && a.uid !in t.gone
    ensures Unheard(Fire(s, a), Heard(t, a), u) && Posted(Fire(s, a), Heard(t, a), u)
  {
    var s', t' := Fire(s, a), Heard(t, a);
    var item := Item(Reaction(t.known[a.uid], a.died), a.uid);
    BegunAtSelect(s, t, u);
    BegunAtSelect(s', t', u);
    ItemsAppend(t.events, item, u);
    FullGrows(ItemsOf(t.events, u), u, item);
    assert ItemsOf(t.events, u) + [] == ItemsOf(t.events, u);
    assert Expected(s, t, u) + [] == Expected(s, t, u);
    PostedGrows(s, s', t, t', u, if u == a.uid then [item] else []);
  }

  lemma NextKeeps(s: State, t: Tally)
    requires Kept(s, t) && Enabled(s, MainNext)
    ensures Silent(Fire(s, MainNext), t) && Account(Fire(s, MainNext), t)
  {
    var rest := s.main.rest;
    assert rest == [rest[0]] + rest[1..];
    assert UidsOf(rest) == {rest[0].uid} + UidsOf(rest[1..]) && rest[0].uid !in UidsOf(rest[1..]);
    forall u ensures Unheard(Fire(s, MainNext), t, u) && Posted(Fire(s, MainNext), t, u) {
      assert Unheard(s, t, u) && Posted(s, t, u) && Unheard(s, t, rest[0].uid);
      NextPod(s, t, u, rest[0], UidsOf(rest[1..]));
    }
  }

  lemma NextPod(s: State, t: Tally, u: Uid, pod: Pod, left: set<Uid>)
    requires s.main.rest != [] && pod == s.main.rest[0] && UidsOf(s.main.rest) == {pod.uid} + left && left == UidsOf(s.main.rest[1..]) && pod.uid !in left
    requires if s.main.batch.Add? then pod.uid in t.added else pod.uid in t.gone
    requires Enabled(s, MainNext) && Unheard(s, t, u) && Posted(s, t, u)
    ensures Unheard(Fire(s, MainNext), t, u) && Posted(Fire(s, MainNext), t, u)
  {
    var s' := Fire(s, MainNext);
    assert s'.main.rest == s.main.rest[1..] && s'.main.batch == s.main.batch;
    assert Begun(s', t, u) == (Begun(s, t, u) || u == pod.uid);
    assert Ended(s', t, u) == (Ended(s, t, u) || (u == pod.uid && s.main.batch.Delete?));
    FullGrows(ItemsOf(t.events, u), u, Item(Kill, u));
    assert Expected(s, t, u) + [] == Expected(s, t, u);
    PostedGrows(s, s', t, t, u, Flight(s', u));
  }

  // ---- Steps that reach a worker -----------------------------------------------------------------

  /** An item other than Create finds a worker that has not stopped. */
  lemma FindsWorker(s: State, t: Tally, u: Uid)
    requires PhasesOk(s) && TableOk(s) && WorkersOk(s.workers) && Posted(s, t, u)
    requires InFlight(s.main.pc) && s.main.pc.item.uid == u
    ensures s.main.pc.item.op.Create? || u in s.podUpdates
  {
    FullEnds(ItemsOf(t.events, u), u, Begun(s, t, u), Ended(s, t, u));
    if !NoWorker(s, u) {
      var w := HasWorker(s, u);
      assert WorkerOk(s.workers[w]);
    }
  }

  lemma InTable(s: State, u: Uid)
    requires TableOk(s)
    ensures NoWorker(s, u) ==> u !in s.podUpdates
  {
    if u in s.podUpdates {
      assert s.workers[s.podUpdates[u]].uid == u;
    }
  }

  lemma LookupKeeps(s: State, t: Tally)
    requires Kept(s, t) && Enabled(s, MainLookup)
    ensures Silent(Fire(s, MainLookup), t) && Account(Fire(s, MainLookup), t)
  {
    var u0 := s.main.pc.item.uid;
    assert Posted(s, t, u0);
    FindsWorker(s, t, u0);
    InTable(s, u0);
    forall u ensures Unheard(Fire(s, MainLookup), t, u) && Posted(Fire(s, MainLookup), t, u) {
      assert Unheard(s, t, u) && Posted(s, t, u);
      LookupOne(s, t, u);
    }
  }

  lemma LookupOne(s: State, t: Tally, u: Uid)
    requires Enabled(s, MainLookup) && Unheard(s, t, u) && Posted(s, t, u)
    requires s.main.pc.item.op.Create? <==> s.main.pc.item.uid !in s.podUpdates
    requires s.main.pc.item.op.Create? ==> NoWorker(s, s.main.pc.item.uid)
    ensures Unheard(Fire(s, MainLookup), t, u) && Posted(Fire(s, MainLookup), t, u)
  {
    var s' := Fire(s, MainLookup);
    assert Expected(s', t, u) == Expected(s, t, u) && Flight(s', u) == Flight(s, u);
    if s.main.pc.item.op.Create? {
      SpawnKeepsPosted(s, s', t, u, Worker(s.main.pc.item.uid, [], Receiving, []));
    } else {
      PostedStays(s, s', t, t, u);
    }
  }

  lemma SpawnKeepsPosted(s: State, s': State, t: Tally, u: Uid, y: Worker)
    requires Posted(s, t, u) && s'.workers == s.workers + [y] && y.history == [] && NoWorker(s, y.uid)
    requires Flight(s', u) == Flight(s, u) && Expected(s', t, u) == Expected(s, t, u)
    ensures Posted(s', t, u)
  {
    assert [] + Flight(s, u) == Flight(s, u);
    if NoWorker(s', u) {
      assert NoWorker(s, u) by {
        forall w | 0 <= w < |s.workers| ensures s.workers[w].uid != u { assert s'.workers[w].uid != u; }
      }
    }
  }

  lemma SendKeeps(s: State, t: Tally)
    requires Kept(s, t) && Enabled(s, MainSend)
    ensures Silent(Fire(s, MainSend), t) && Account(Fire(s, MainSend), t)
  {
    forall u ensures Unheard(Fire(s, MainSend), t, u) && Posted(Fire(s, MainSend), t, u) {
      assert Unheard(s, t, u) && Posted(s, t, u);
      SendOne(s, t, u);
    }
  }

  lemma SendOne(s: State, t: Tally, u: Uid)
    requires TableOk(s) && Enabled(s, MainSend) && Unheard(s, t, u) && Posted(s, t, u)
    requires s.workers[s.main.pc.worker].uid == s.main.pc.item.uid
    ensures Unheard(Fire(s, MainSend), t, u) && Posted(Fire(s, MainSend), t, u)
  {
    var s', w0 := Fire(s, MainSend), s.main.pc.worker;
    assert Expected(s', t, u) == Expected(s, t, u) && Flight(s', u) == [];
    forall w | 0 <= w < |s'.workers| && s'.workers[w].uid == u ensures s'.workers[w].history + [] == Expected(s, t, u) {
      assert s.workers[w].history + Flight(s, u) == Expected(s, t, u);
      assert s'.workers[w].history == s.workers[w].history + Flight(s, u);
    }
    if NoWorker(s', u) {
      assert NoWorker(s, u) by {
        forall w | 0 <= w < |s.workers| ensures s.workers[w].uid != u { assert s'.workers[w].uid != u; }
      }
      assert s.workers[w0].uid != u;
    }
  }

  lemma OtherKeeps(s: State, t: Tally, a: Action)
    requires Silent(s, t) && Account(s, t) && Enabled(s, a)
    requires a.Poll? || a.MainLock? || a.MainUnlock? || a.WorkerTake? || a.WorkerFinish? || a.WorkerLock? || a.WorkerRetire?
    ensures Silent(Fire(s, a), Heard(t, a)) && Account(Fire(s, a), Heard(t, a))
  {
    forall u | u in t.gone ensures Begun(s, t, u) {
      assert Unheard(s, t, u);
    }
    SameKeeps(s, Fire(s, a), t, Heard(t, a));
  }

  lemma StepKeeps(s: State, t: Tally, a: Action)
    requires Kept(s, t) && Enabled(s, a) && PollKeepsUidsFresh(s, a)
    ensures Kept(Fire(s, a), Heard(t, a))
  {
    StepKeepsInv(s, a);
    StepTracks(s, t, a);
    match a
    case ReceiveAdds(_) => ReceiveAddsKeeps(s, t, a);
    case ReceiveDels => ReceiveDelsKeeps(s, t);
    case LifecycleEvent(_, _) => EventKeeps(s, t, a);
    case MainNext => NextKeeps(s, t);
    case MainLookup => LookupKeeps(s, t);
    case MainSend => SendKeeps(s, t);
    case _ => OtherKeeps(s, t, a);
  }

  lemma {:induction false} RunKeeps(s: State, t: Tally, acts: seq<Action>)
    requires Kept(s, t) && ValidRun(s, acts) && WellBehaved(s, acts)
    ensures Kept(After(s, acts), TallyOf(t, acts))
    decreases |acts|
  {
    if acts != [] {
      StepKeeps(s, t, acts[0]);
      RunKeeps(Fire(s, acts[0]), Heard(t, acts[0]), acts[1..]);
    }
  }

  lemma StartKept()
    ensures Kept(Initial, Nothing)
  {
    assert UidsOf([]) == {} && Table([]) == map[];
  }

  /**
    In every run with fresh UIDs a worker has been sent, in order, a Create once its pod's addition was handled, one
    item per event of the pod while it was known, re-creating it exactly when a container of a pod that always
    restarts died, and a Kill once its deletion was handled; but for the one item that may be on its way.
  */
  lemma WorkersAreSentEvents(acts: seq<Action>)
    requires ValidRun(Initial, acts) && WellBehaved(Initial, acts)
    ensures Account(After(Initial, acts), TallyOf(Nothing, acts))
  {
    StartKept();
    RunKeeps(Initial, Nothing, acts);
  }

  // ---- Whatever the polls ------------------------------------------------------------------------

  /** The pods of the last poll. */
  function LastPoll(acts: seq<Action>): seq<Pod> {
    if acts == [] then []
    else if acts[|acts| - 1].Poll? then acts[|acts| - 1].pods
    else LastPoll(acts[..|acts| - 1])
  }

  /** The pod was received as added at step `i`, as the last poll before listed it, and not again since. */
  ghost predicate AnnouncedAt(acts: seq<Action>, pod: Pod, i: nat) {
    && i < |acts| && acts[i].ReceiveAdds? && pod in acts[i].order && pod in LastPoll(acts[..i])
    && forall j :: i < j < |acts| && acts[j].ReceiveAdds? ==> pod.uid !in UidsOf(acts[j].order)
  }

  ghost predicate Announced(acts: seq<Action>, pod: Pod) {
    exists i: nat :: AnnouncedAt(acts, pod, i)
  }

  /** Every pod an event can be matched with is as the poll that last announced it listed it. */
  ghost predicate KnownAsListed(acts: seq<Action>, t: Tally) {
    forall u :: u in t.known ==> t.known[u].uid == u && Announced(acts, t.known[u])
  }

  lemma {:induction false} WithoutKeeps(pods: seq<Pod>, others: seq<Pod>)
    ensures forall p :: p in Without(pods, others) ==> p in pods
  {
    if pods != [] {
      WithoutKeeps(pods[1..], others);
    }
  }

  lemma AnnouncedStays(acts: seq<Action>, a: Action, pod: Pod)
    requires Announced(acts, pod) && (a.ReceiveAdds? ==> pod.uid !in UidsOf(a.order))
    ensures Announced(acts + [a], pod)
  {
    var i: nat :| AnnouncedAt(acts, pod, i);
    assert (acts + [a])[..i] == acts[..i];
    assert AnnouncedAt(acts + [a], pod, i);
  }

  lemma AnnouncedNow(acts: seq<Action>, a: Action, pod: Pod)
    requires a.ReceiveAdds? && pod in a.order && pod in LastPoll(acts)
    ensures Announced(acts + [a], pod)
  {
    assert (acts + [a])[..|acts|] == acts;
    assert AnnouncedAt(acts + [a], pod, |acts|);
  }

  lemma StepAsListed(acts: seq<Action>, t: Tally, a: Action, u: Uid)
    requires KnownAsListed(acts, t) && u in Heard(t, a).known
    requires a.ReceiveAdds? ==> forall p :: p in a.order ==> p in LastPoll(acts)
    ensures Heard(t, a).known[u].uid == u && Announced(acts + [a], Heard(t, a).known[u])
  {
    if a.ReceiveAdds? {
      TableKeys(a.order);
      if u in UidsOf(a.order) {
        AnnouncedNow(acts, a, Table(a.order)[u]);
      } else {
        AnnouncedStays(acts, a, t.known[u]);
      }
    } else {
      AnnouncedStays(acts, a, t.known[u]);
    }
  }

  lemma AddsAreListed(s: State, acts: seq<Action>, a: Action)
    requires Enabled(s, a) && s.latest == LastPoll(acts) && forall p :: p in s.adds ==> p in s.latest
    ensures Fire(s, a).latest == LastPoll(acts + [a]) && forall p :: p in Fire(s, a).adds ==> p in Fire(s, a).latest
    ensures a.ReceiveAdds? ==> forall p :: p in a.order ==> p in LastPoll(acts)
  {
    assert (acts + [a])[..|acts|] == acts;
    if a.Poll? {
      WithoutKeeps(a.pods, s.latest);
    } else if a.ReceiveAdds? {
      forall p | p in a.order ensures p in s.adds {
        assert p in multiset(a.order);
      }
    }
  }

  lemma {:induction false} RunAsListed(s: State, t: Tally, done: seq<Action>, acts: seq<Action>)
    requires ValidRun(s, acts) && KnownAsListed(done, t)
    requires s.latest == LastPoll(done) && forall p :: p in s.adds ==> p in s.latest
    ensures KnownAsListed(done + acts, TallyOf(t, acts))
    decreases |acts|
  {
    if acts == [] {
      assert done + acts == done;
    } else {
      AddsAreListed(s, done, acts[0]);
      forall u | u in Heard(t, acts[0]).known
        ensures Heard(t, acts[0]).known[u].uid == u && Announced(done + [acts[0]], Heard(t, acts[0]).known[u])
      {
        StepAsListed(done, t, acts[0], u);
      }
      RunAsListed(Fire(s, acts[0]), Heard(t, acts[0]), done + [acts[0]], acts[1..]);
      assert done + [acts[0]] + acts[1..] == done + acts;
    }
  }

  /** In every run the policy an event is judged by is that of the pod as it was last announced. */
  lemma KnownPodsAreListed(acts: seq<Action>)
    requires ValidRun(Initial, acts)
    ensures KnownAsListed(acts, TallyOf(Nothing, acts))
  {
    RunAsListed(Initial, Nothing, [], acts);
    assert [] + acts == acts;
  }

  /** `a` can be had from `b` by dropping elements. */
  predicate Subsequence<T(==)>(a: seq<T>, b: seq<T>) {
    if a == [] then true
    else if b == [] then false
    else
      var m := |b| - 1;
      (a[|a| - 1] == b[m] && Subsequence(a[..|a| - 1], b[..m])) || Subsequence(a, b[..m])
  }

  lemma SubsequenceGrows<T>(a: seq<T>, b: seq<T>, x: T)
    requires Subsequence(a, b)
    ensures Subsequence(a + [x], b + [x]) && Subsequence(a, b + [x])
  {
    assert (a + [x])[..|a|] == a && (b + [x])[..|b|] == b;
  }

  lemma {:induction false} SubsequenceShrinks<T>(a: seq<T>, b: seq<T>, x: T)
    requires Subsequence(a + [x], b)
    ensures Subsequence(a, b)
  {
    if b != [] {
      assert (a + [x])[..|a|] == a;
      var c := b[..|b| - 1];
      if !Subsequence(a, c) {
        SubsequenceShrinks(a, c, x);
      }
    }
  }

  /** A history without the creations and the ends. */
  function Between(items: seq<Item>): seq<Item> {
    if items == [] then []
    else
      var n := |items| - 1;
      Between(items[..n]) + if items[n].op.Create? || items[n].op.Kill? then [] else [items[n]]
  }

  lemma BetweenAppend(items: seq<Item>, x: Item)
    ensures Between(items + [x]) == Between(items) + if x.op.Create? || x.op.Kill? then [] else [x]
  {
    assert (items + [x])[..|items|] == items;
  }

  /** The table and the main loop lead to workers of the right pod. */
  ghost predicate Routed(s: State) {
    && (forall u :: u in s.podUpdates ==> s.podUpdates[u] < |s.workers| && s.workers[s.podUpdates[u]].uid == u)
    && (s.main.pc.Sending? ==> s.main.pc.worker < |s.workers| && s.workers[s.main.pc.worker].uid == s.main.pc.item.uid)
  }

  lemma StepKeepsRouted(s: State, a: Action)
    requires Routed(s) && Enabled(s, a)
    ensures Routed(Fire(s, a))
  {
    if a.MainLookup? {
      LookupKeepsRouted(s);
    } else if a.WorkerTake? || a.WorkerFinish? || a.WorkerLock? || a.WorkerRetire? {
      SwapKeepsRouted(s, Fire(s, a), a.worker);
    } else if a.MainSend? {
      SwapKeepsRouted(s, Fire(s, a), s.main.pc.worker);
    }
  }

  lemma LookupKeepsRouted(s: State)
    requires Routed(s) && Enabled(s, MainLookup)
    ensures Routed(Fire(s, MainLookup))
  {
  }

  lemma SwapKeepsRouted(s: State, s': State, w: nat)
    requires Routed(s) && w < |s.workers| == |s'.workers| && s'.workers == s.workers[w := s'.workers[w]]
    requires s'.workers[w].uid == s.workers[w].uid
    requires (s'.main == s.main || !s'.main.pc.Sending?) && forall u :: u in s'.podUpdates ==> u in s.podUpdates && s'.podUpdates[u] == s.podUpdates[u]
    ensures Routed(s')
  {
  }

  /** Of what a worker has been sent and what is on its way to its pod, everything but creations and ends is from an event. */
  predicate Heeds(s: State, t: Tally, w: nat)
    requires w < |s.workers|
  {
    var x := s.workers[w];
    Subsequence(Between(x.history + Flight(s, x.uid)), ItemsOf(t.events, x.uid))
  }

  ghost predicate AllHeed(s: State, t: Tally) {
    forall w :: 0 <= w < |s.workers| ==> Heeds(s, t, w)
  }

  lemma DropFlight(h: seq<Item>, x: Item, b: seq<Item>)
    requires Subsequence(Between(h + [x]), b)
    ensures Subsequence(Between(h), b)
  {
    BetweenAppend(h, x);
    if !x.op.Create? && !x.op.Kill? {
      SubsequenceShrinks(Between(h), b, x);
    } else {
      assert Between(h) + [] == Between(h);
    }
  }

  lemma AddFlight(h: seq<Item>, x: Item, b: seq<Item>)
    requires Subsequence(Between(h), b)
    ensures x.op.Create? || x.op.Kill? ==> Subsequence(Between(h + [x]), b)
    ensures !x.op.Create? && !x.op.Kill? ==> Subsequence(Between(h + [x]), b + [x])
  {
    BetweenAppend(h, x);
    SubsequenceGrows(Between(h), b, x);
    assert Between(h) + [] == Between(h);
  }

  /** Something new is on its way: an event's item, a creation or an end. */
  lemma NewFlight(h: seq<Item>, before: seq<Item>, after: seq<Item>, b: seq<Item>, c: seq<Item>, x: Item)
    requires Subsequence(Between(h + before), b) && before == []
    requires || (after == [] && c == b)
             || (after == [x] && c == b + [x] && !x.op.Create? && !x.op.Kill?)
             || (after == [x] && c == b && (x.op.Create? || x.op.Kill?))
    ensures Subsequence(Between(h + after), c)
  {
    assert h + [] == h;
    AddFlight(h, x, b);
  }

  lemma EventFlight(s: State, t: Tally, a: Action, u: Uid)
    requires a.LifecycleEvent? && Enabled(s, a) && s.podManager == t.known
    ensures Flight(s, u) == []
    ensures a.uid in t.known && a.uid == u ==>
              var item := Item(Reaction(t.known[u], a.died), u);
              Flight(Fire(s, a), u) == [item] && ItemsOf(Heard(t, a).events, u) == ItemsOf(t.events, u) + [item]
    ensures a.uid !in t.known || a.uid != u ==>
              Flight(Fire(s, a), u) == [] && ItemsOf(Heard(t, a).events, u) == ItemsOf(t.events, u)
  {
    if a.uid in t.known {
      ItemsAppend(t.events, Item(Reaction(t.known[a.uid], a.died), a.uid), u);
      assert ItemsOf(t.events, u) + [] == ItemsOf(t.events, u);
    }
  }

  lemma EventHeeds(s: State, t: Tally, a: Action, w: nat)
    requires a.LifecycleEvent? && Enabled(s, a) && s.podManager == t.known && w < |s.workers| && Heeds(s, t, w)
    ensures Heeds(Fire(s, a), Heard(t, a), w)
  {
    var x := s.workers[w];
    var item := Item(if a.uid in t.known then Reaction(t.known[a.uid], a.died) else Sync, a.uid);
    EventFlight(s, t, a, x.uid);
    NewFlight(x.history, Flight(s, x.uid), Flight(Fire(s, a), x.uid), ItemsOf(t.events, x.uid),
              ItemsOf(Heard(t, a).events, x.uid), item);
  }

  lemma NextFlight(s: State, u: Uid) returns (after: seq<Item>)
    requires Enabled(s, MainNext)
    ensures Flight(s, u) == [] && Flight(Fire(s, MainNext), u) == after && Fire(s, MainNext).workers == s.workers
    ensures var pc := Fire(s, MainNext).main.pc; pc.Locking? && (pc.item.op.Create? || pc.item.op.Kill?) && after in [[], [pc.item]]
  {
    after := Flight(Fire(s, MainNext), u);
  }

  lemma NextHeeds(s: State, t: Tally, w: nat)
    requires Enabled(s, MainNext) && w < |s.workers| && Heeds(s, t, w)
    ensures Heeds(Fire(s, MainNext), t, w)
  {
    var x := s.workers[w];
    var after := NextFlight(s, x.uid);
    NewFlight(x.history, [], after, ItemsOf(t.events, x.uid), ItemsOf(t.events, x.uid), Fire(s, MainNext).main.pc.item);
  }

  lemma LookupHeeds(s: State, t: Tally, w: nat)
    requires Enabled(s, MainLookup) && w < |Fire(s, MainLookup).workers| && (w < |s.workers| ==> Heeds(s, t, w))
    ensures Heeds(Fire(s, MainLookup), t, w)
  {
    var s' := Fire(s, MainLookup);
    var x, item := s'.workers[w], s.main.pc.item;
    if w == |s.workers| {
      NewFlight([], [], Flight(s', x.uid), ItemsOf(t.events, x.uid), ItemsOf(t.events, x.uid), item);
    } else {
      LessFlight(x.history, Flight(s, x.uid), Flight(s', x.uid), ItemsOf(t.events, x.uid));
    }
  }

  /** What was on its way is dropped, or still is. */
  lemma LessFlight(h: seq<Item>, before: seq<Item>, after: seq<Item>, b: seq<Item>)
    requires Subsequence(Between(h + before), b) && |before| <= 1 && (after == before || after == [])
    ensures Subsequence(Between(h + after), b)
  {
    assert h + [] == h;
    if |before| == 1 {
      DropFlight(h, before[0], b);
    }
  }

  lemma SendHeeds(s: State, t: Tally, w: nat)
    requires Enabled(s, MainSend) && w < |s.workers| && Heeds(s, t, w)
    requires s.workers[s.main.pc.worker].uid == s.main.pc.item.uid
    ensures Heeds(Fire(s, MainSend), t, w)
  {
    var s', x := Fire(s, MainSend), s.workers[w];
    if w == s.main.pc.worker {
      assert s'.workers[w].history + [] == x.history + Flight(s, x.uid);
    } else {
      LessFlight(x.history, Flight(s, x.uid), Flight(s', x.uid), ItemsOf(t.events, x.uid));
    }
  }

  lemma OtherHeeds(s: State, t: Tally, a: Action, w: nat)
    requires Enabled(s, a) && w < |s.workers| && Heeds(s, t, w)
    requires !a.LifecycleEvent? && !a.MainNext? && !a.MainLookup? && !a.MainSend?
    ensures |Fire(s, a).workers| == |s.workers| && Heeds(Fire(s, a), Heard(t, a), w)
  {
    OtherFlights(s, a, s.workers[w].uid);
    assert Fire(s, a).workers[w].history == s.workers[w].history && Fire(s, a).workers[w].uid == s.workers[w].uid;
  }

  lemma OtherFlights(s: State, a: Action, u: Uid)
    requires Enabled(s, a) && !a.LifecycleEvent? && !a.MainNext? && !a.MainLookup? && !a.MainSend?
    ensures Flight(Fire(s, a), u) == Flight(s, u)
  {
  }

  lemma StepHeeds(s: State, t: Tally, a: Action, w: nat)
    requires AllHeed(s, t) && Enabled(s, a) && Routed(s) && (s.main.pc.Select? ==> s.podManager == t.known)
    requires w < |Fire(s, a).workers|
    ensures Heeds(Fire(s, a), Heard(t, a), w)
  {
    if a.LifecycleEvent? {
      EventHeeds(s, t, a, w);
    } else if a.MainNext? {
      NextHeeds(s, t, w);
    } else if a.MainLookup? {
      LookupHeeds(s, t, w);
    } else if a.MainSend? {
      SendHeeds(s, t, w);
    } else {
      OtherHeeds(s, t, a, w);
    }
  }

  lemma {:induction false} RunHeeds(s: State, t: Tally, acts: seq<Action>)
    requires AllHeed(s, t) && Routed(s) && Tracks(s, t) && ValidRun(s, acts)
    ensures AllHeed(After(s, acts), TallyOf(t, acts)) && Routed(After(s, acts))
    decreases |acts|
  {
    if acts != [] {
      var a := acts[0];
      if s.main.pc.Select? {
        SelectTracks(s, t);
      }
      forall w | 0 <= w < |Fire(s, a).workers| ensures Heeds(Fire(s, a), Heard(t, a), w) {
        StepHeeds(s, t, a, w);
      }
      StepKeepsRouted(s, a);
      StepTracks(s, t, a);
      RunHeeds(Fire(s, a), Heard(t, a), acts[1..]);
    }
  }

  /**
    Whatever the polls, also when a UID returns: a worker is never asked for anything but what the events of its pod
    asked for, in their order, besides its creation and its end.
  */
  lemma WorkersOnlyHeedEvents(acts: seq<Action>)
    requires ValidRun(Initial, acts)
    ensures var s, t := After(Initial, acts), TallyOf(Nothing, acts);
            forall w :: 0 <= w < |s.workers| ==>
              Subsequence(Between(s.workers[w].history + Flight(s, s.workers[w].uid)), ItemsOf(t.events, s.workers[w].uid))
  {
    StartKept();
    RunHeeds(Initial, Nothing, acts);
    var s, t := After(Initial, acts), TallyOf(Nothing, acts);
    forall w | 0 <= w < |s.workers|
      ensures Subsequence(Between(s.workers[w].history + Flight(s, s.workers[w].uid)), ItemsOf(t.events, s.workers[w].uid))
    {
      assert Heeds(s, t, w);
    }
  }

  /** A worker takes its items in order, and only a Kill makes it ask for the mutex. */
  predicate InOrder(x: Worker) {
    && |x.queue| <= |x.history| && x.queue == x.history[|x.history| - |x.queue|..]
    && (x.pc.Processing? || x.pc.AwaitLock? ==>
          |x.queue| < |x.history| && x.history[|x.history| - |x.queue| - 1] == x.pc.item)
    && (x.pc.AwaitLock? ==> x.pc.item.op.Kill?)
  }

  ghost predicate AllInOrder(s: State) {
    forall w :: 0 <= w < |s.workers| ==> InOrder(s.workers[w])
  }

  lemma StepKeepsOrder(s: State, a: Action)
    requires AllInOrder(s) && Enabled(s, a)
    ensures AllInOrder(Fire(s, a))
  {
    forall w | 0 <= w < |Fire(s, a).workers| ensures InOrder(Fire(s, a).workers[w]) {
      assert w < |s.workers| ==> InOrder(s.workers[w]);
      WorkerKeepsOrder(s, a, w);
    }
  }

  lemma WorkerKeepsOrder(s: State, a: Action, w: nat)
    requires Enabled(s, a) && w < |Fire(s, a).workers| && (w < |s.workers| ==> InOrder(s.workers[w]))
    ensures InOrder(Fire(s, a).workers[w])
  {
    if a.MainSend? {
      if w == s.main.pc.worker {
        SentInOrder(s.workers[w], s.main.pc.item);
      }
    } else if a.WorkerTake? {
      if w == a.worker {
        TakenInOrder(s.workers[w]);
      }
    } else if w < |s.workers| {
      var x, y := s.workers[w], Fire(s, a).workers[w];
      assert y.queue == x.queue && y.history == x.history;
    }
  }

  lemma SentInOrder(x: Worker, item: Item)
    requires InOrder(x)
    ensures InOrder(x.(queue := x.queue + [item], history := x.history + [item]))
  {
  }

  lemma TakenInOrder(x: Worker)
    requires InOrder(x) && x.pc.Receiving? && x.queue != []
    ensures InOrder(x.(queue := x.queue[1..], pc := Processing(x.queue[0])))
  {
  }

  lemma {:induction false} RunKeepsOrder(s: State, acts: seq<Action>)
    requires AllInOrder(s) && ValidRun(s, acts)
    ensures AllInOrder(After(s, acts))
    decreases |acts|
  {
    if acts != [] {
      StepKeepsOrder(s, acts[0]);
      RunKeepsOrder(Fire(s, acts[0]), acts[1..]);
    }
  }

  predicate FromEvents(items: seq<Item>) {
    forall i :: 0 <= i < |items| ==> !items[i].op.Create? && !items[i].op.Kill?
  }

  lemma {:induction false} ItemsFromEvents(items: seq<Item>, u: Uid)
    requires FromEvents(items)
    ensures FromEvents(ItemsOf(items, u))
  {
    if items != [] {
      ItemsFromEvents(items[..|items| - 1], u);
    }
  }

  lemma {:induction false} TallyFromEvents(t: Tally, acts: seq<Action>)
    requires FromEvents(t.events)
    ensures FromEvents(TallyOf(t, acts).events)
    decreases |acts|
  {
    if acts != [] {
      TallyFromEvents(Heard(t, acts[0]), acts[1..]);
    }
  }

  /** What is expected never goes on after a Kill. */
  lemma NothingAfterKill(events: seq<Item>, u: Uid, begun: bool, ended: bool, k: nat)
    requires FromEvents(events) && k < |Full(events, u, begun, ended)| && Full(events, u, begun, ended)[k].op.Kill?
    ensures k == |Full(events, u, begun, ended)| - 1
  {
  }

  /** A stuck kubelet has queued items behind a Kill. */
  lemma StuckIsUnaccounted(s: State, t: Tally)
    requires KubeletDeadlock.Stuck(s) && AllInOrder(s) && FromEvents(t.events)
    ensures !Account(s, t)
  {
    var x := s.workers[s.main.pc.worker];
    assert InOrder(x);
    if Posted(s, t, x.uid) {
      ItemsFromEvents(t.events, x.uid);
      var k := |x.history| - |x.queue| - 1;
      assert (x.history + Flight(s, x.uid))[k] == x.history[k];
      NothingAfterKill(ItemsOf(t.events, x.uid), x.uid, Begun(s, t, x.uid), Ended(s, t, x.uid), k);
    }
  }

  /** Whatever the interleaving of these polls with events, every worker is sent what is expected. */
  ghost predicate AlwaysAccounted(polls: seq<seq<Pod>>) {
    forall acts :: ValidRun(Initial, acts) && PollsOf(acts) <= polls ==> Account(After(Initial, acts), TallyOf(Nothing, acts))
  }

  /**
    Polls without duplicates lead to workers that are sent exactly what is expected if and only if no UID is listed,
    missing and listed again.
  */
  lemma AccountedIffNoUidReturns(polls: seq<seq<Pod>>)
    requires KubeletDeadlock.NoDuplicates(polls)
    ensures AlwaysAccounted(polls) <==> !KubeletDeadlock.Returns(polls)
  {
    if KubeletDeadlock.Returns(polls) {
      var acts := KubeletDeadlock.ReturnCanDeadlock(polls);
      RunKeepsOrder(Initial, acts);
      TallyFromEvents(Nothing, acts);
      StuckIsUnaccounted(After(Initial, acts), TallyOf(Nothing, acts));
    } else {
      forall acts | ValidRun(Initial, acts) && PollsOf(acts) <= polls
        ensures Account(After(Initial, acts), TallyOf(Nothing, acts))
      {
        assert [] + polls == polls;
        KubeletDeadlock.NoReturnBehavesWell(Initial, [], acts, polls);
        WorkersAreSentEvents(acts);
      }
    }
  }
}
