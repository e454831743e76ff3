/** The watcher that turns polls of the API server into pod updates (pkg/kubelet/app/server.go). */
module KubeletServer {
  import opened KubeletTypes
  import opened PodWorkers

  datatype PodUpdate = PodUpdate(pods: seq<Pod>, op: BatchOp)

  datatype Fetch = Failed | Fetched(pods: seq<Pod>)

  /** The updates a poll sends: additions first, then deletions, empty ones not at all. */
  function UpdatesFor(latest: seq<Pod>, pods: seq<Pod>): seq<PodUpdate> {
    Batch(Without(pods, latest), Add) + Batch(Without(latest, pods), Delete)
  }

  function Batch(pods: seq<Pod>, op: BatchOp): seq<PodUpdate> {
    if pods == [] then [] else [PodUpdate(pods, op)]
  }

  /** All updates of a run of polls, starting from an empty list. */
  function UpdatesOf(polls: seq<seq<Pod>>): seq<PodUpdate> {
    if polls == [] then []
    else
      var before := polls[..|polls| - 1];
      UpdatesOf(before) + UpdatesFor(Latest(before), polls[|polls| - 1])
  }

  function Latest(polls: seq<seq<Pod>>): seq<Pod> {
    if polls == [] then [] else polls[|polls| - 1]
  }

  lemma PollExtends(h: seq<seq<Pod>>, pods: seq<Pod>)
    ensures UpdatesOf(h + [pods]) == UpdatesOf(h) + UpdatesFor(Latest(h), pods) && Latest(h + [pods]) == pods
  {
    assert (h + [pods])[..|h|] == h;
  }

  function Successful(fetches: seq<Fetch>): seq<seq<Pod>> {
    if fetches == [] then []
    else
      var last := fetches[|fetches| - 1];
      Successful(fetches[..|fetches| - 1]) + if last.Fetched? then [last.pods] else []
  }

  lemma {:induction false} WithoutAppend(pods: seq<Pod>, p: Pod, others: seq<Pod>)
    ensures Without(pods + [p], others) == Without(pods, others) + if p.uid in UidsOf(others) then [] else [p]
  {
    if pods == [] {
      assert pods + [p] == [p] && [p][1..] == [];
    } else {
      WithoutAppend(pods[1..], p, others);
      assert (pods + [p])[1..] == pods[1..] + [p];
    }
  }

  class Watcher {
    var latestLocalPods: seq<Pod>
    var updates: seq<PodUpdate>
    ghost var polls: seq<seq<Pod>>

    /** The polls so far explain what is kept and what was sent. */
    ghost predicate Valid() reads this {
      latestLocalPods == Latest(polls) && updates == UpdatesOf(polls)
    }

    constructor ()
      ensures Valid() && polls == []
    {
      latestLocalPods, updates, polls := [], [], [];
    }

    /** The table from UIDs to pods that updateLocalPods builds from a list. */
    method Table(pods: seq<Pod>) returns (table: map<Uid, Pod>)
      ensures table.Keys == UidsOf(pods)
      ensures forall u :: u in table ==> table[u].uid == u && table[u] in pods
    {
      table := map[];
      for i := 0 to |pods|
        invariant table.Keys == UidsOf(pods[..i])
        invariant forall u :: u in table ==> table[u].uid == u && table[u] in pods
      {
        table := table[pods[i].uid := pods[i]];
        assert pods[..i + 1] == pods[..i] + [pods[i]];
      }
      assert pods[..|pods|] == pods;
    }

    /** The two loops that collect deletions and additions. */
    method NotIn(pods: seq<Pod>, ghost others: seq<Pod>, table: map<Uid, Pod>) returns (missing: seq<Pod>)
      requires table.Keys == UidsOf(others)
      ensures missing == Without(pods, others)
    {
      missing := [];
      for i := 0 to |pods|
        invariant missing == Without(pods[..i], others)
      {
        WithoutAppend(pods[..i], pods[i], others);
        assert pods[..i + 1] == pods[..i] + [pods[i]];
        if pods[i].uid !in table {
          missing := missing + [pods[i]];
        }
      }
      assert pods[..|pods|] == pods;
    }

    method UpdateLocalPods(fetch: Fetch)
      requires Valid()
      modifies this
      ensures Valid() && polls == old(polls) + if fetch.Fetched? then [fetch.pods] else []
      ensures fetch.Failed? ==> latestLocalPods == old(latestLocalPods) && updates == old(updates)
      ensures fetch.Fetched? ==>
                && latestLocalPods == fetch.pods
                && updates == old(updates) + UpdatesFor(old(latestLocalPods), fetch.pods)
    {
      if fetch.Failed? {
        return;
      }
      var oldLocalPods, newLocalPods := latestLocalPods, fetch.pods;
      var oldTable := Table(oldLocalPods);
      var newTable := Table(newLocalPods);
      var deletions := NotIn(oldLocalPods, newLocalPods, newTable);
      var additions := NotIn(newLocalPods, oldLocalPods, oldTable);
      Regroup(updates, Batch(additions, Add), Batch(deletions, Delete));
      PollExtends(polls, fetch.pods);
      if |additions| != 0 {
        updates := updates + [PodUpdate(additions, Add)];
      }
      if |deletions| != 0 {
        updates := updates + [PodUpdate(deletions, Delete)];
      }
      latestLocalPods, polls := newLocalPods, polls + [fetch.pods];
    }

    /** The polling loop, over any number of ticks. */
    method WatchApiServer(fetches: seq<Fetch>)
      requires Valid()
      modifies this
      ensures Valid() && polls == old(polls) + Successful(fetches)
    {
      for i := 0 to |fetches|
        invariant Valid() && polls == old(polls) + Successful(fetches[..i])
      {
        UpdateLocalPods(fetches[i]);
        assert fetches[..i + 1][..i] == fetches[..i];
      }
      assert fetches[..|fetches|] == fetches;
    }
  }

  /** The UIDs a consumer knows after handling updates in order. */
  function Known(known: set<Uid>, updates: seq<PodUpdate>): set<Uid>
    decreases |updates|
  {
    if updates == [] then known
    else Known(if updates[0].op.Add? then known + UidsOf(updates[0].pods) else known - UidsOf(updates[0].pods), updates[1..])
  }

  lemma AddThenDelete(a: set<Uid>, b: set<Uid>)
    ensures a + (b - a) - (a - b) == b
    ensures b - a == {} ==> a - (a - b) == b
    ensures a - b == {} ==> a + (b - a) == b
  {
    if b - a == {} {
      forall u | u in b ensures u in a { assert u !in b - a; }
    }
    if a - b == {} {
      forall u | u in a ensures u in b { assert u !in a - b; }
    }
  }

  lemma OnePollTracked(latest: seq<Pod>, pods: seq<Pod>)
    ensures Known(UidsOf(latest), UpdatesFor(latest, pods)) == UidsOf(pods)
  {
    WithoutUids(pods, latest);
    WithoutUids(latest, pods);
    AddThenDelete(UidsOf(latest), UidsOf(pods));
    var adds, dels := Without(pods, latest), Without(latest, pods);
    var known := UidsOf(latest);
    var us := UpdatesFor(latest, pods);
    if adds != [] && dels != [] {
      assert us == [PodUpdate(adds, Add), PodUpdate(dels, Delete)];
      assert us[1..] == [PodUpdate(dels, Delete)] && us[1..][1..] == [];
      assert Known(known + UidsOf(adds), us[1..]) == known + UidsOf(adds) - UidsOf(dels);
    } else if adds != [] {
      assert us == [PodUpdate(adds, Add)] && us[1..] == [];
      assert UidsOf(dels) == {};
    } else if dels != [] {
      assert us == [PodUpdate(dels, Delete)] && us[1..] == [];
      assert UidsOf(adds) == {};
    } else {
      assert UidsOf(dels) == {} && UidsOf(adds) == {};
      assert us == [];
    }
  }

  lemma {:induction false} KnownAppend(known: set<Uid>, a: seq<PodUpdate>, b: seq<PodUpdate>)
    ensures Known(known, a + b) == Known(Known(known, a), b)
    decreases |a|
  {
    if a == [] {
      assert a + b == b;
    } else {
      KnownAppend(if a[0].op.Add? then known + UidsOf(a[0].pods) else known - UidsOf(a[0].pods), a[1..], b);
      assert (a + b)[1..] == a[1..] + b;
    }
  }

  /** Over any run of polls, whoever applies the updates in order knows exactly the pods of the last poll. */
  lemma {:induction false} UpdatesTrackPolls(polls: seq<seq<Pod>>)
    ensures Known({}, UpdatesOf(polls)) == UidsOf(Latest(polls))
  {
    if polls != [] {
      var before := polls[..|polls| - 1];
      UpdatesTrackPolls(before);
      OnePollTracked(Latest(before), polls[|polls| - 1]);
      KnownAppend({}, UpdatesOf(before), UpdatesFor(Latest(before), polls[|polls| - 1]));
    }
  }

  // ---- The watcher and the main loop together ----------------------------------------------------

  /** The update a step takes out of the channel. */
  function Received(s: State, a: Action): seq<PodUpdate> {
    if a.ReceiveAdds? then [PodUpdate(s.adds, Add)]
    else if a.ReceiveDels? then [PodUpdate(s.dels, Delete)]
    else []
  }

  /** All updates the main loop has received in a run, in order. */
  ghost function Delivered(s: State, acts: seq<Action>): seq<PodUpdate>
    requires ValidRun(s, acts)
    decreases |acts|
  {
    if acts == [] then [] else Received(s, acts[0]) + Delivered(Fire(s, acts[0]), acts[1..])
  }

  /** What the watcher still has to hand over. */
  function Pending(s: State): seq<PodUpdate> {
    Batch(s.adds, Add) + Batch(s.dels, Delete)
  }

  /** A step neither loses nor reorders an update; only polls produce new ones. */
  lemma StepConservesUpdates(s: State, a: Action)
    requires Enabled(s, a)
    ensures Pending(s) + (if a.Poll? then UpdatesFor(s.latest, a.pods) else []) == Received(s, a) + Pending(Fire(s, a))
  {
  }

  lemma {:induction false} RunConservesUpdates(s: State, h: seq<seq<Pod>>, done: seq<PodUpdate>, acts: seq<Action>)
    requires ValidRun(s, acts) && s.latest == Latest(h) && UpdatesOf(h) == done + Pending(s)
    ensures UpdatesOf(h + PollsOf(acts)) == done + Delivered(s, acts) + Pending(After(s, acts))
    decreases |acts|
  {
    if acts == [] {
      assert h + [] == h && done + [] == done;
    } else {
      var a := acts[0];
      HistoryStep(s, h, done, a);
      RunConservesUpdates(Fire(s, a), h + PollOf(a), done + Received(s, a), acts[1..]);
      Regroup(h, PollOf(a), PollsOf(acts[1..]));
      Regroup(done, Received(s, a), Delivered(Fire(s, a), acts[1..]));
    }
  }

  lemma HistoryStep(s: State, h: seq<seq<Pod>>, done: seq<PodUpdate>, a: Action)
    requires Enabled(s, a) && s.latest == Latest(h) && UpdatesOf(h) == done + Pending(s)
    ensures Fire(s, a).latest == Latest(h + PollOf(a))
    ensures UpdatesOf(h + PollOf(a)) == done + Received(s, a) + Pending(Fire(s, a))
  {
    StepConservesUpdates(s, a);
    Regroup(done, Received(s, a), Pending(Fire(s, a)));
    if a.Poll? {
      PollExtends(h, a.pods);
      Regroup(done, Pending(s), UpdatesFor(s.latest, a.pods));
    } else {
      assert h + PollOf(a) == h && Pending(s) + [] == Pending(s);
    }
  }

  /** The pod manager holds what the received updates say, but for the part of a batch still to be handled. */
  predicate Tracks(s: State, known: set<Uid>) {
    && (s.main.pc.Select? ==> s.main.rest == [])
    && known == if s.main.batch.Add? then s.podManager.Keys + UidsOf(s.main.rest) else s.podManager.Keys - UidsOf(s.main.rest)
  }

  lemma StepTracks(s: State, known: set<Uid>, a: Action)
    requires Tracks(s, known) && Enabled(s, a)
    ensures Tracks(Fire(s, a), Known(known, Received(s, a)))
  {
    if a.ReceiveAdds? {
      SameMultisetSameUids(a.order, s.adds);
    } else if a.MainNext? {
      assert s.main.rest == [s.main.rest[0]] + s.main.rest[1..];
      assert UidsOf(s.main.rest) == {s.main.rest[0].uid} + UidsOf(s.main.rest[1..]);
    }
  }

  lemma {:induction false} RunTracks(s: State, known: set<Uid>, acts: seq<Action>)
    requires Tracks(s, known) && ValidRun(s, acts)
    ensures Tracks(After(s, acts), Known(known, Delivered(s, acts)))
    decreases |acts|
  {
    if acts != [] {
      StepTracks(s, known, acts[0]);
      RunTracks(Fire(s, acts[0]), Known(known, Received(s, acts[0])), acts[1..]);
      KnownAppend(known, Received(s, acts[0]), Delivered(Fire(s, acts[0]), acts[1..]));
    }
  }

  /**
    Whatever the interleaving: the updates of the polls are those the main loop has received and those
    still on their way, in order; between batches the pod manager holds exactly what was received; and
    when nothing is on its way that is the last poll.
  */
  lemma RunMatchesWatcher(acts: seq<Action>)
    requires ValidRun(Initial, acts)
    ensures var s := After(Initial, acts);
            && UpdatesOf(PollsOf(acts)) == Delivered(Initial, acts) + Pending(s)
            && (s.main.pc.Select? ==> s.podManager.Keys == Known({}, Delivered(Initial, acts)))
            && (s.main.pc.Select? && Pending(s) == [] ==> s.podManager.Keys == UidsOf(Latest(PollsOf(acts))))
  {
    UpdatesConserved(acts);
    RunTracks(Initial, {}, acts);
    UpdatesTrackPolls(PollsOf(acts));
    NothingPending(UpdatesOf(PollsOf(acts)), Delivered(Initial, acts), Pending(After(Initial, acts)));
  }

  lemma UpdatesConserved(acts: seq<Action>)
    requires ValidRun(Initial, acts)
    ensures UpdatesOf(PollsOf(acts)) == Delivered(Initial, acts) + Pending(After(Initial, acts))
  {
    RunConservesUpdates(Initial, [], [], acts);
    assert [] + PollsOf(acts) == PollsOf(acts);
    assert [] + Delivered(Initial, acts) == Delivered(Initial, acts);
  }

  lemma NothingPending(all: seq<PodUpdate>, delivered: seq<PodUpdate>, pending: seq<PodUpdate>)
    requires all == delivered + pending
    ensures pending == [] ==> all == delivered
  {
  }
}
