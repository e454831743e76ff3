/**
  The pod lifecycle event generator (pkg/kubelet/pleg/pleg.go): snapshots of the runtime become events and
  cache entries. Events carry a ghost tag naming their container, which the program's events do not have.
*/
module Pleg {
  import opened KubeletTypes
  import opened Wrappers
  import opened StatusCache

  type ContainerId = string

  datatype RuntimeState = Created | Running | Exited | Unknown

  datatype Container = Container(id: ContainerId, state: RuntimeState)

  datatype RuntimePod = RuntimePod(id: Uid, containers: seq<Container>)

  datatype PodRecord = PodRecord(old_: Option<RuntimePod>, current: Option<RuntimePod>)

  type Records = map<Uid, PodRecord>

  datatype EventType = ContainerStarted | ContainerDied | ContainerRemoved | ContainerChanged

  datatype Event = Event(podId: Uid, kind: EventType)

  datatype Tagged = Tagged(podId: Uid, cid: ContainerId, kind: EventType)

  datatype PlegState = PlegRunning | PlegExited | PlegUnknown | PlegNonExistent

  /** What GetPodStatus returned, and when it was asked. */
  datatype Fetch = Fetch(status: Option<PodStatus>, err: Option<string>, time: Time)

  // ---------------------------------------------------------------------------
  // Events of one pod
  // ---------------------------------------------------------------------------

  /** The runtime's own state of the first container with that id; nothing if there is none. */
  function FirstIn(containers: seq<Container>, cid: ContainerId): Option<RuntimeState> {
    if containers == [] then None
    else if containers[0].id == cid then Some(containers[0].state)
    else FirstIn(containers[1..], cid)
  }

  function FirstState(pod: Option<RuntimePod>, cid: ContainerId): Option<RuntimeState> {
    if pod.None? then None else FirstIn(pod.value.containers, cid)
  }

  /** The generator does not tell a created container from one in an unknown state. */
  predicate Alike(before: Option<RuntimeState>, after: Option<RuntimeState>) {
    before == after || {before, after} == {Some(Created), Some(Unknown)}
  }

  /** What a container's change of state is worth. */
  function StateChange(before: Option<RuntimeState>, after: Option<RuntimeState>): seq<EventType> {
    if Alike(before, after) then []
    else
      match after
      case Some(Running) => [ContainerStarted]
      case Some(Exited) => [ContainerDied]
      case Some(_) => [ContainerChanged]
      case None => if before == Some(Exited) then [ContainerRemoved] else [ContainerDied, ContainerRemoved]
  }

  function Changes(old_: Option<RuntimePod>, current: Option<RuntimePod>, cid: ContainerId): seq<EventType> {
    StateChange(FirstState(old_, cid), FirstState(current, cid))
  }

  function Observed(state: RuntimeState): PlegState {
    match state
    case Created => PlegUnknown
    case Running => PlegRunning
    case Exited => PlegExited
    case Unknown => PlegUnknown
  }

  function Seen(state: Option<RuntimeState>): PlegState {
    if state.None? then PlegNonExistent else Observed(state.value)
  }

  method GetPlegContainerState(pod: Option<RuntimePod>, cid: ContainerId) returns (state: PlegState)
    ensures state == Seen(FirstState(pod, cid))
  {
    if pod.None? {
      return PlegNonExistent;
    }
    var containers := pod.value.containers;
    for i := 0 to |containers|
      invariant FirstIn(containers, cid) == FirstIn(containers[i..], cid)
    {
      if containers[i].id == cid {
        return Observed(containers[i].state);
      }
      assert containers[i..][1..] == containers[i + 1..];
    }
    assert containers[|containers|..] == [];
    return PlegNonExistent;
  }

  /** The events for one container that went from one generator state to another. */
  function EventsBetween(before: PlegState, after: PlegState): seq<EventType> {
    if before == after then []
    else
      match after
      case PlegRunning => [ContainerStarted]
      case PlegExited => [ContainerDied]
      case PlegUnknown => [ContainerChanged]
      case PlegNonExistent => if before.PlegExited? then [ContainerRemoved] else [ContainerDied, ContainerRemoved]
  }

  /** The generator's states tell the runtime's apart as far as events need it. */
  lemma SeenChange(before: Option<RuntimeState>, after: Option<RuntimeState>)
    ensures EventsBetween(Seen(before), Seen(after)) == StateChange(before, after)
  {
    assert before.Some? ==> before.value.Created? || before.value.Running? || before.value.Exited? || before.value.Unknown?;
    assert after.Some? ==> after.value.Created? || after.value.Running? || after.value.Exited? || after.value.Unknown?;
  }

  function CidsOf(pod: Option<RuntimePod>): set<ContainerId> {
    if pod.None? then {} else set c | c in pod.value.containers :: c.id
  }

  lemma {:induction false} MissingState(containers: seq<Container>, cid: ContainerId)
    ensures FirstIn(containers, cid).None? <==> forall c :: c in containers ==> c.id != cid
  {
    if containers != [] { MissingState(containers[1..], cid); }
  }

  lemma OutsideNothingChanges(old_: Option<RuntimePod>, current: Option<RuntimePod>, cid: ContainerId)
    requires cid !in CidsOf(old_) + CidsOf(current)
    ensures Changes(old_, current, cid) == []
  {
    if old_.Some? { MissingState(old_.value.containers, cid); }
    if current.Some? { MissingState(current.value.containers, cid); }
  }

  /** A container's share of a tagged list, in order. */
  function History(log: seq<Tagged>, podId: Uid, cid: ContainerId): seq<EventType> {
    if log == [] then []
    else
      var last := log[|log| - 1];
      History(log[..|log| - 1], podId, cid) + if last.podId == podId && last.cid == cid then [last.kind] else []
  }

  lemma {:induction false} HistoryAppend(a: seq<Tagged>, b: seq<Tagged>, podId: Uid, cid: ContainerId)
    ensures History(a + b, podId, cid) == History(a, podId, cid) + History(b, podId, cid)
  {
    if b == [] {
      assert a + b == a;
    } else {
      var rest, last := b[..|b| - 1], b[|b| - 1];
      HistoryAppend(a, rest, podId, cid);
      assert a + b == (a + rest) + [last] && b == rest + [last];
      HistoryOfMore(a + rest, last, podId, cid);
      HistoryOfMore(rest, last, podId, cid);
      Regroup(History(a, podId, cid), History(rest, podId, cid), if last.podId == podId && last.cid == cid then [last.kind] else []);
    }
  }

  lemma HistoryOfMore(a: seq<Tagged>, last: Tagged, podId: Uid, cid: ContainerId)
    ensures History(a + [last], podId, cid) ==
              History(a, podId, cid) + if last.podId == podId && last.cid == cid then [last.kind] else []
  {
    assert (a + [last])[..|a|] == a;
  }

  lemma Regroup(a: seq<EventType>, b: seq<EventType>, c: seq<EventType>)
    ensures a + b + c == a + (b + c)
  {
  }

  function Untag(log: seq<Tagged>): (r: seq<Event>)
    ensures |r| == |log| && forall i :: 0 <= i < |r| ==> r[i] == Event(log[i].podId, log[i].kind)
  {
    seq(|log|, i requires 0 <= i < |log| => Event(log[i].podId, log[i].kind))
  }

  function TagAll(podId: Uid, cid: ContainerId, kinds: seq<EventType>): (r: seq<Tagged>)
    ensures |r| == |kinds| && forall i :: 0 <= i < |r| ==> r[i] == Tagged(podId, cid, kinds[i])
  {
    seq(|kinds|, i requires 0 <= i < |kinds| => Tagged(podId, cid, kinds[i]))
  }

  lemma {:induction false} HistoryOfTagged(podId: Uid, cid: ContainerId, kinds: seq<EventType>, p: Uid, c: ContainerId)
    ensures History(TagAll(podId, cid, kinds), p, c) == if p == podId && c == cid then kinds else []
  {
    if kinds == [] {
      assert TagAll(podId, cid, kinds) == [];
    } else {
      var n := |kinds| - 1;
      HistoryOfTagged(podId, cid, kinds[..n], p, c);
      HistoryOfLastTagged(podId, cid, kinds, p, c);
      RejoinLast(kinds);
    }
  }

  lemma HistoryOfLastTagged(podId: Uid, cid: ContainerId, kinds: seq<EventType>, p: Uid, c: ContainerId)
    requires kinds != []
    ensures var n := |kinds| - 1;
            History(TagAll(podId, cid, kinds), p, c) ==
              History(TagAll(podId, cid, kinds[..n]), p, c) + if p == podId && c == cid then [kinds[n]] else []
  {
    var n := |kinds| - 1;
    TagAllLast(podId, cid, kinds);
    HistoryAppend(TagAll(podId, cid, kinds[..n]), [Tagged(podId, cid, kinds[n])], p, c);
    HistoryOfOne(Tagged(podId, cid, kinds[n]), p, c);
  }

  lemma RejoinLast(kinds: seq<EventType>)
    requires kinds != []
    ensures kinds[..|kinds| - 1] + [kinds[|kinds| - 1]] == kinds
    ensures [] + [] == kinds[..0]
  {
  }

  lemma TagAllLast(podId: Uid, cid: ContainerId, kinds: seq<EventType>)
    requires kinds != []
    ensures var n := |kinds| - 1;
            TagAll(podId, cid, kinds) == TagAll(podId, cid, kinds[..n]) + [Tagged(podId, cid, kinds[n])]
  {
  }

  /** The tags hold, for every container of the pod and no other, exactly its events. */
  ghost predicate TagsOf(tags: seq<Tagged>, id: Uid, old_: Option<RuntimePod>, current: Option<RuntimePod>, done: set<ContainerId>) {
    forall p, c :: History(tags, p, c) == if p == id && c in done then Changes(old_, current, c) else []
  }

  lemma TagsMore(tags: seq<Tagged>, id: Uid, old_: Option<RuntimePod>, current: Option<RuntimePod>, done: set<ContainerId>, cid: ContainerId)
    requires TagsOf(tags, id, old_, current, done) && cid !in done
    ensures TagsOf(tags + TagAll(id, cid, Changes(old_, current, cid)), id, old_, current, done + {cid})
  {
    var kinds := Changes(old_, current, cid);
    forall p, c
      ensures History(tags + TagAll(id, cid, kinds), p, c) == if p == id && c in done + {cid} then Changes(old_, current, c) else []
    {
      assert History(tags, p, c) == if p == id && c in done then Changes(old_, current, c) else [];
      MoreTagged(tags, id, cid, kinds, p, c);
      assert [] + kinds == kinds;
    }
  }

  lemma MoreTagged(tags: seq<Tagged>, id: Uid, cid: ContainerId, kinds: seq<EventType>, p: Uid, c: ContainerId)
    ensures History(tags + TagAll(id, cid, kinds), p, c) == History(tags, p, c) + if p == id && c == cid then kinds else []
    ensures History(tags, p, c) + [] == History(tags, p, c)
  {
    HistoryAppend(tags, TagAll(id, cid, kinds), p, c);
    HistoryOfTagged(id, cid, kinds, p, c);
  }

  /** The pod an event list is about. */
  function PodIdOf(oldPod: Option<RuntimePod>, currentPod: Option<RuntimePod>): Uid {
    if oldPod.Some? then oldPod.value.id else if currentPod.Some? then currentPod.value.id else ""
  }

  /** The events can be tagged so that every container has exactly those of its change of state. */
  ghost predicate EventsFor(events: seq<Event>, oldPod: Option<RuntimePod>, currentPod: Option<RuntimePod>) {
    exists tags :: events == Untag(tags) && Tags(tags, oldPod, currentPod)
  }

  ghost predicate Tags(tags: seq<Tagged>, oldPod: Option<RuntimePod>, currentPod: Option<RuntimePod>) {
    forall p, c :: History(tags, p, c) == if p == PodIdOf(oldPod, currentPod) then Changes(oldPod, currentPod, c) else []
  }

  method ComputeEvents(oldPod: Option<RuntimePod>, currentPod: Option<RuntimePod>) returns (events: seq<Event>)
    ensures EventsFor(events, oldPod, currentPod)
  {
    var id := PodIdOf(oldPod, currentPod);
    ghost var tags: seq<Tagged> := [];
    events := [];
    var cids := CidsOf(oldPod) + CidsOf(currentPod);
    ghost var done: set<ContainerId> := {};
    var rest := cids;
    while rest != {}
      invariant rest <= cids && done == cids - rest
      invariant events == Untag(tags) && TagsOf(tags, id, oldPod, currentPod, done)
      decreases rest
    {
      var cid :| cid in rest;
      rest := rest - {cid};
      var oldState := GetPlegContainerState(oldPod, cid);
      var currentState := GetPlegContainerState(currentPod, cid);
      TagsMore(tags, id, oldPod, currentPod, done, cid);
      tags := tags + TagAll(id, cid, Changes(oldPod, currentPod, cid));
      done := done + {cid};
      SeenChange(FirstState(oldPod, cid), FirstState(currentPod, cid));
      var kinds := StateEvents(oldState, currentState);
      events := events + PodEvents(id, kinds);
    }
    forall p, c ensures History(tags, p, c) == if p == id then Changes(oldPod, currentPod, c) else [] {
      if c !in cids { OutsideNothingChanges(oldPod, currentPod, c); }
    }
    assert Tags(tags, oldPod, currentPod);
  }

  /** The switch over the new state. */
  method StateEvents(oldState: PlegState, currentState: PlegState) returns (kinds: seq<EventType>)
    ensures kinds == EventsBetween(oldState, currentState)
  {
    kinds := [];
    if oldState == currentState {
      return;
    }
    match currentState {
      case PlegRunning => kinds := kinds + [ContainerStarted];
      case PlegExited => kinds := kinds + [ContainerDied];
      case PlegUnknown => kinds := kinds + [ContainerChanged];
      case PlegNonExistent =>
        if oldState == PlegExited {
          kinds := kinds + [ContainerRemoved];
        } else {
          kinds := kinds + [ContainerDied, ContainerRemoved];
        }
    }
  }

  function PodEvents(id: Uid, kinds: seq<EventType>): (r: seq<Event>)
    ensures |r| == |kinds| && forall i :: 0 <= i < |r| ==> r[i] == Event(id, kinds[i])
  {
    seq(|kinds|, i requires 0 <= i < |kinds| => Event(id, kinds[i]))
  }

  // ---------------------------------------------------------------------------
  // One relist
  // ---------------------------------------------------------------------------

  /** The snapshot by pod ID; of pods with one ID the last wins. */
  function Snap(pods: seq<RuntimePod>): map<Uid, RuntimePod> {
    if pods == [] then map[] else Snap(pods[..|pods| - 1])[pods[|pods| - 1].id := pods[|pods| - 1]]
  }

  /** The records once the snapshot is their current side. */
  function WithCurrent(records: Records, snap: map<Uid, RuntimePod>): Records {
    map id | id in records.Keys + snap.Keys :: PodRecord(if id in records then records[id].old_ else None, Get(snap, id))
  }

  predicate Keyed(records: Records) {
    forall id :: id in records ==>
      && (records[id].old_.Some? ==> records[id].old_.value.id == id)
      && (records[id].current.Some? ==> records[id].current.value.id == id)
  }

  lemma {:induction false} SnapKeyed(pods: seq<RuntimePod>)
    ensures forall id :: id in Snap(pods) ==> Snap(pods)[id].id == id
  {
    if pods != [] { SnapKeyed(pods[..|pods| - 1]); }
  }

  ghost predicate Eventful(r: PodRecord) {
    exists c :: Changes(r.old_, r.current, c) != []
  }

  /** The update of the pod's status succeeds: nothing is asked for a pod that is gone. */
  predicate Updated(r: PodRecord, f: Fetch) {
    r.current.None? || f.err.None?
  }

  /** Whether this relist deals with the pod's events and moves its current side to the old one. */
  ghost predicate Shifted(r: PodRecord, f: Fetch) {
    Eventful(r) && Updated(r, f)
  }

  ghost function RecordAfter(r: PodRecord, f: Fetch): Option<PodRecord> {
    if !Shifted(r, f) then Some(r)
    else if r.current.None? then None
    else Some(PodRecord(r.current, None))
  }

  /** The pod's cache entry: replaced, errors included, unless newer; deleted with the pod; else left alone. */
  ghost function EntryAfter(r: PodRecord, f: Fetch, entry: Option<Entry>): Option<Entry> {
    if !Eventful(r) then entry
    else if r.current.None? then None
    else if entry.Some? && entry.value.modified > f.time then entry
    else Some(Entry(f.status, f.err, f.time))
  }

  function Sent(kinds: seq<EventType>): seq<EventType> {
    if kinds == [] then []
    else Sent(kinds[..|kinds| - 1]) + if kinds[|kinds| - 1].ContainerChanged? then [] else [kinds[|kinds| - 1]]
  }

  ghost function SentFor(r: PodRecord, f: Fetch, c: ContainerId): seq<EventType> {
    if Shifted(r, f) then Sent(Changes(r.old_, r.current, c)) else []
  }

  /** The records, the cache and the log once the pods in `done` are dealt with. */
  ghost predicate Handled(mid: Records, pods0: map<Uid, Entry>, log0: seq<Tagged>, fetch: Uid -> Fetch, done: set<Uid>,
                          records: Records, pods: map<Uid, Entry>, log: seq<Tagged>)
  {
    && (forall id :: Get(records, id) == if id in done && id in mid then RecordAfter(mid[id], fetch(id)) else Get(mid, id))
    && (forall id :: Get(pods, id) == if id in done && id in mid then EntryAfter(mid[id], fetch(id), Get(pods0, id)) else Get(pods0, id))
    && (forall p, c :: History(log, p, c) == History(log0, p, c) + if p in done && p in mid then SentFor(mid[p], fetch(p), c) else [])
  }

  /** One successful relist, pod by pod and container by container. */
  ghost predicate Relisted(records0: Records, view0: View, log0: seq<Tagged>, pods: seq<RuntimePod>, fetch: Uid -> Fetch, ts: Time,
                           records: Records, view: View, log: seq<Tagged>)
  {
    var mid := WithCurrent(records0, Snap(pods));
    && Handled(mid, view0.pods, log0, fetch, mid.Keys, records, view.pods, log)
    && view.timestamp == Some(ts)
  }

  function SentTags(tags: seq<Tagged>): seq<Tagged> {
    if tags == [] then []
    else SentTags(tags[..|tags| - 1]) + if tags[|tags| - 1].kind.ContainerChanged? then [] else [tags[|tags| - 1]]
  }

  lemma {:induction false} HistoryOfSent(tags: seq<Tagged>, p: Uid, c: ContainerId)
    ensures History(SentTags(tags), p, c) == Sent(History(tags, p, c))
  {
    if tags != [] {
      var rest, last := tags[..|tags| - 1], tags[|tags| - 1];
      HistoryOfSent(rest, p, c);
      HistoryAppend(SentTags(rest), if last.kind.ContainerChanged? then [] else [last], p, c);
      HistoryOfOne(last, p, c);
      SentAppendOne(History(rest, p, c), last.kind);
      assert History(tags, p, c) == History(rest, p, c) + if last.podId == p && last.cid == c then [last.kind] else [];
      assert History(rest, p, c) + [] == History(rest, p, c);
      assert Sent(History(rest, p, c)) + [] == Sent(History(rest, p, c));
    }
  }

  lemma HistoryOfOne(t: Tagged, p: Uid, c: ContainerId)
    ensures History([t], p, c) == if t.podId == p && t.cid == c then [t.kind] else []
    ensures History([], p, c) == []
  {
    assert [t][..0] == [];
  }

  lemma SentAppendOne(kinds: seq<EventType>, k: EventType)
    ensures Sent(kinds + [k]) == Sent(kinds) + if k.ContainerChanged? then [] else [k]
  {
    assert (kinds + [k])[..|kinds|] == kinds;
  }

  lemma NoTagsNoEvents(tags: seq<Tagged>, r: PodRecord, id: Uid)
    requires forall p, c :: History(tags, p, c) == if p == id then Changes(r.old_, r.current, c) else []
    ensures tags == [] <==> !Eventful(r)
  {
    if tags != [] {
      var last := tags[|tags| - 1];
      assert History(tags, last.podId, last.cid) != [];
    } else {
      forall c ensures Changes(r.old_, r.current, c) == [] { assert History(tags, id, c) == []; }
    }
  }

  lemma HandleOne(mid: Records, pods0: map<Uid, Entry>, log0: seq<Tagged>, fetch: Uid -> Fetch, done: set<Uid>,
                  records: Records, pods: map<Uid, Entry>, log: seq<Tagged>, id: Uid,
                  records': Records, pods': map<Uid, Entry>, log': seq<Tagged>)
    requires Handled(mid, pods0, log0, fetch, done, records, pods, log) && id in mid && id !in done
    requires forall i :: Get(records', i) == if i == id then RecordAfter(mid[id], fetch(id)) else Get(records, i)
    requires forall i :: Get(pods', i) == if i == id then EntryAfter(mid[id], fetch(id), Get(pods0, id)) else Get(pods, i)
    requires forall p, c :: History(log', p, c) == History(log, p, c) + if p == id then SentFor(mid[id], fetch(id), c) else []
    ensures Handled(mid, pods0, log0, fetch, done + {id}, records', pods', log')
  {
    forall p, c
      ensures History(log', p, c) ==
                History(log0, p, c) + if p in done + {id} && p in mid then SentFor(mid[p], fetch(p), c) else []
    {
      assert History(log, p, c) + [] == History(log, p, c);
      if p == id {
        assert History(log, p, c) == History(log0, p, c) + [];
        assert History(log0, p, c) + [] == History(log0, p, c);
      }
    }
  }

  /** A pod without events is left alone, which is what the full account says of it. */
  lemma SkipQuiet(mid: Records, pods0: map<Uid, Entry>, log0: seq<Tagged>, fetch: Uid -> Fetch, done: set<Uid>,
                  records: Records, pods: map<Uid, Entry>, log: seq<Tagged>)
    requires Handled(mid, pods0, log0, fetch, done, records, pods, log) && done <= mid.Keys
    requires forall id :: id in mid && Eventful(mid[id]) ==> id in done
    ensures Handled(mid, pods0, log0, fetch, mid.Keys, records, pods, log)
  {
  }

  /** The tags of exactly the events of the pod's record. */
  ghost predicate TagsExactly(tags: seq<Tagged>, r: PodRecord, id: Uid) {
    forall p, c :: History(tags, p, c) == if p == id then Changes(r.old_, r.current, c) else []
  }

  lemma {:induction false} UntagSent(tags: seq<Tagged>)
    ensures Untag(SentTags(tags)) == SentEvents(Untag(tags))
  {
    if tags != [] {
      UntagSent(tags[..|tags| - 1]);
      assert Untag(tags)[..|tags| - 1] == Untag(tags[..|tags| - 1]);
    }
  }

  function SentEvents(events: seq<Event>): seq<Event> {
    if events == [] then []
    else SentEvents(events[..|events| - 1]) + if events[|events| - 1].kind.ContainerChanged? then [] else [events[|events| - 1]]
  }

  lemma UntagAppend(a: seq<Tagged>, b: seq<Tagged>)
    ensures Untag(a + b) == Untag(a) + Untag(b)
  {
  }

  lemma SentHistories(log: seq<Tagged>, tags: seq<Tagged>, r: PodRecord, f: Fetch, id: Uid)
    requires TagsExactly(tags, r, id) && Shifted(r, f)
    ensures forall p, c :: History(log + SentTags(tags), p, c) == History(log, p, c) + if p == id then SentFor(r, f, c) else []
  {
    forall p, c ensures History(log + SentTags(tags), p, c) == History(log, p, c) + if p == id then SentFor(r, f, c) else [] {
      HistoryAppend(log, SentTags(tags), p, c);
      HistoryOfSent(tags, p, c);
      assert History(log, p, c) + [] == History(log, p, c);
    }
  }

  lemma NothingSent(log: seq<Tagged>, r: PodRecord, f: Fetch, id: Uid)
    requires !Shifted(r, f)
    ensures forall p, c :: History(log, p, c) == History(log, p, c) + if p == id then SentFor(r, f, c) else []
  {
  }

  class PLEG {
    var podRecords: Records
    var eventCh: seq<Event>
    const cache: Cache
    ghost var log: seq<Tagged>

    constructor (c: Cache)
      ensures cache == c && podRecords == map[] && eventCh == [] && log == []
    {
      cache, podRecords, eventCh, log := c, map[], [], [];
    }

    ghost predicate Valid()
      reads this, cache
    {
      eventCh == Untag(log) && Keyed(podRecords) && cache.Unlocked()
    }

    method SetCurrentPods(pods: seq<RuntimePod>)
      modifies this`podRecords
      ensures podRecords == WithCurrent(old(podRecords), Snap(pods))
    {
      ghost var before := podRecords;
      var records := map id | id in podRecords :: podRecords[id].(current := None);
      for i := 0 to |pods|
        invariant records == WithCurrent(before, Snap(pods[..i]))
        invariant podRecords == before
      {
        var id := pods[i].id;
        var record := if id in records then records[id] else PodRecord(None, None);
        records := records[id := record.(current := Some(pods[i]))];
        assert pods[..i + 1][..i] == pods[..i];
      }
      assert pods[..|pods|] == pods;
      podRecords := records;
    }

    /** updateCache: false stands for the error of a failed fetch. */
    method UpdateCache(currentPod: Option<RuntimePod>, pid: Uid, f: Fetch) returns (ok: bool)
      requires cache.Unlocked() && (currentPod.Some? ==> currentPod.value.id == pid)
      modifies cache
      ensures cache.Unlocked() && cache.timestamp == old(cache.timestamp)
      ensures ok == (currentPod.None? || f.err.None?)
      ensures forall id :: Get(cache.pods, id) ==
                if id != pid then Get(old(cache.pods), id)
                else if currentPod.None? then None
                else if pid in old(cache.pods) && old(cache.pods)[pid].modified > f.time then Get(old(cache.pods), pid)
                else Some(Entry(f.status, f.err, f.time))
    {
      ghost var v := cache.Contents();
      if currentPod.None? {
        cache.Delete(pid);
        assert cache.Contents() == Written(v, DeleteEntry(pid));
        return true;
      }
      var _ := cache.Set(currentPod.value.id, f.status, f.err, f.time);
      assert cache.Contents() == Written(v, SetEntry(pid, Entry(f.status, f.err, f.time)));
      return f.err.None?;
    }

    method ShiftCurrentToOld(id: Uid)
      requires id in podRecords
      modifies this`podRecords
      ensures forall i :: Get(podRecords, i) ==
                if i != id then Get(old(podRecords), i)
                else if old(podRecords)[id].current.None? then None
                else Some(PodRecord(old(podRecords)[id].current, None))
    {
      var record := podRecords[id];
      if record.current.None? {
        podRecords := podRecords - {id};
        return;
      }
      podRecords := podRecords[id := PodRecord(record.current, None)];
    }

    /** The first loop of Relist: the events of every record, kept only where there are some. */
    method CollectEvents() returns (eventMap: map<Uid, seq<Event>>, ghost tagMap: map<Uid, seq<Tagged>>)
      requires Keyed(podRecords)
      ensures eventMap.Keys == tagMap.Keys <= podRecords.Keys
      ensures forall id :: id in podRecords ==> (id in eventMap <==> Eventful(podRecords[id]))
      ensures forall id :: id in eventMap ==> eventMap[id] == Untag(tagMap[id]) && TagsExactly(tagMap[id], podRecords[id], id)
    {
      eventMap, tagMap := map[], map[];
      var rest := podRecords.Keys;
      while rest != {}
        invariant rest <= podRecords.Keys
        invariant eventMap.Keys == tagMap.Keys <= podRecords.Keys - rest
        invariant forall id :: id in podRecords && id !in rest ==> (id in eventMap <==> Eventful(podRecords[id]))
        invariant forall id :: id in eventMap ==> eventMap[id] == Untag(tagMap[id]) && TagsExactly(tagMap[id], podRecords[id], id)
        decreases rest
      {
        var id :| id in rest;
        rest := rest - {id};
        var events, tags := EventsOf(id);
        if |events| != 0 {
          eventMap := eventMap[id := events];
          tagMap := tagMap[id := tags];
        }
      }
    }

    method EventsOf(id: Uid) returns (events: seq<Event>, ghost tags: seq<Tagged>)
      requires Keyed(podRecords) && id in podRecords
      ensures events == Untag(tags) && TagsExactly(tags, podRecords[id], id)
      ensures |events| != 0 <==> Eventful(podRecords[id])
    {
      var r := podRecords[id];
      events := ComputeEvents(r.old_, r.current);
      tags :| events == Untag(tags) && Tags(tags, r.old_, r.current);
      assert TagsExactly(tags, r, id);
      NoTagsNoEvents(tags, r, id);
    }

    /** The body of the second loop: update the cache and, if that worked, shift the record and send the events. */
    method HandlePod(id: Uid, events: seq<Event>, f: Fetch, ghost tags: seq<Tagged>)
      requires Valid() && id in podRecords && Eventful(podRecords[id])
      requires events == Untag(tags) && TagsExactly(tags, podRecords[id], id)
      modifies this, cache
      ensures Valid() && cache.timestamp == old(cache.timestamp)
      ensures forall i :: Get(podRecords, i) == if i == id then RecordAfter(old(podRecords)[id], f) else Get(old(podRecords), i)
      ensures forall i :: Get(cache.pods, i) ==
                if i == id then EntryAfter(old(podRecords)[id], f, Get(old(cache.pods), id)) else Get(old(cache.pods), i)
      ensures forall p, c :: History(log, p, c) == History(old(log), p, c) + if p == id then SentFor(old(podRecords)[id], f, c) else []
    {
      ghost var r := podRecords[id];
      var ok := UpdateCache(podRecords[id].current, id, f);
      if !ok {
        NothingSent(log, r, f, id);
        return;
      }
      SentHistories(log, tags, r, f, id);
      ShiftCurrentToOld(id);
      Send(events, tags);
      assert Keyed(podRecords) by {
        forall i | i in podRecords ensures podRecords[i].old_.Some? ==> podRecords[i].old_.value.id == i {
          assert Get(podRecords, i) == if i == id then RecordAfter(r, f) else Get(old(podRecords), i);
        }
        forall i | i in podRecords ensures podRecords[i].current.Some? ==> podRecords[i].current.value.id == i {
          assert Get(podRecords, i) == if i == id then RecordAfter(r, f) else Get(old(podRecords), i);
        }
      }
    }

    /** Sends all events but the internal ContainerChanged ones. */
    method Send(events: seq<Event>, ghost tags: seq<Tagged>)
      requires eventCh == Untag(log) && events == Untag(tags)
      modifies this`eventCh, this`log
      ensures eventCh == Untag(log) && log == old(log) + SentTags(tags)
    {
      ghost var before := eventCh;
      assert before + [] == before;
      for i := 0 to |events|
        invariant eventCh == before + SentEvents(events[..i])
        invariant log == old(log)
      {
        assert events[..i + 1][..i] == events[..i];
        if events[i].kind == ContainerChanged {
          continue;
        }
        eventCh := eventCh + [events[i]];
      }
      assert events[..|events|] == events;
      UntagSent(tags);
      UntagAppend(log, SentTags(tags));
      log := log + SentTags(tags);
    }

    /** One relist: `snapshot` is what the runtime listed, `fetch` what it answers for each pod. */
    method Relist(snapshot: Option<seq<RuntimePod>>, fetch: Uid -> Fetch, ts: Time)
      requires Valid()
      modifies this, cache
      ensures Valid()
      ensures snapshot.None? ==> podRecords == old(podRecords) && cache.Contents() == old(cache.Contents()) && log == old(log)
      ensures snapshot.Some? ==>
                Relisted(old(podRecords), old(cache.Contents()), old(log), snapshot.value, fetch, ts, podRecords, cache.Contents(), log)
    {
      if snapshot.None? {
        return;
      }
      ghost var pods0, log0 := cache.pods, log;
      SetCurrentPods(snapshot.value);
      SnapKeyed(snapshot.value);
      ghost var mid := podRecords;
      var eventMap;
      ghost var tagMap;
      eventMap, tagMap := CollectEvents();
      HandleAll(eventMap, fetch, tagMap, mid, pods0, log0);
      cache.UpdateTime(ts);
    }

    method HandleNext(id: Uid, events: seq<Event>, fetch: Uid -> Fetch, ghost tags: seq<Tagged>,
                      ghost mid: Records, ghost pods0: map<Uid, Entry>, ghost log0: seq<Tagged>, ghost done: set<Uid>)
      requires Valid() && id in mid && Eventful(mid[id]) && id !in done
      requires events == Untag(tags) && TagsExactly(tags, mid[id], id)
      requires Handled(mid, pods0, log0, fetch, done, podRecords, cache.pods, log)
      modifies this, cache
      ensures Valid()
      ensures Handled(mid, pods0, log0, fetch, done + {id}, podRecords, cache.pods, log)
    {
      assert Get(podRecords, id) == Get(mid, id) && Get(cache.pods, id) == Get(pods0, id);
      ghost var records1, pods1, log1 := podRecords, cache.pods, log;
      HandlePod(id, events, fetch(id), tags);
      HandleOne(mid, pods0, log0, fetch, done, records1, pods1, log1, id, podRecords, cache.pods, log);
    }

    /** The second loop of Relist. */
    method HandleAll(eventMap: map<Uid, seq<Event>>, fetch: Uid -> Fetch, ghost tagMap: map<Uid, seq<Tagged>>,
                     ghost mid: Records, ghost pods0: map<Uid, Entry>, ghost log0: seq<Tagged>)
      requires Valid() && podRecords == mid && cache.pods == pods0 && log == log0
      requires eventMap.Keys == tagMap.Keys <= mid.Keys
      requires forall id :: id in mid ==> (id in eventMap <==> Eventful(mid[id]))
      requires forall id :: id in eventMap ==> eventMap[id] == Untag(tagMap[id]) && TagsExactly(tagMap[id], mid[id], id)
      modifies this, cache
      ensures Valid()
      ensures Handled(mid, pods0, log0, fetch, mid.Keys, podRecords, cache.pods, log)
    {
      var rest := eventMap.Keys;
      ghost var done: set<Uid> := {};
      StartHandled(mid, pods0, log0, fetch);
      while rest != {}
        invariant Valid()
        invariant rest <= eventMap.Keys && forall id :: id in done <==> id in eventMap && id !in rest
        invariant Handled(mid, pods0, log0, fetch, done, podRecords, cache.pods, log)
        decreases rest
      {
        var id :| id in rest;
        rest := rest - {id};
        HandleNext(id, eventMap[id], fetch, tagMap[id], mid, pods0, log0, done);
        done := done + {id};
      }
      SkipQuiet(mid, pods0, log0, fetch, done, podRecords, cache.pods, log);
    }
  }

  lemma StartHandled(mid: Records, pods0: map<Uid, Entry>, log0: seq<Tagged>, fetch: Uid -> Fetch)
    ensures Handled(mid, pods0, log0, fetch, {}, mid, pods0, log0)
  {
    forall p, c ensures History(log0, p, c) == History(log0, p, c) + [] {}
  }

  // ---------------------------------------------------------------------------
  // Runs
  // ---------------------------------------------------------------------------

  datatype World = World(records: Records, view: View, log: seq<Tagged>)

  datatype Input = Input(pods: seq<RuntimePod>, fetch: Uid -> Fetch, ts: Time)

  ghost predicate Step(w: World, i: Input, w': World) {
    Relisted(w.records, w.view, w.log, i.pods, i.fetch, i.ts, w'.records, w'.view, w'.log)
  }

  /** The relists of a run; those that failed to list the pods change nothing and are left out. */
  ghost predicate IsRun(ws: seq<World>, inputs: seq<Input>) {
    && |ws| == |inputs| + 1
    && ws[0] == World(map[], View(map[], None), [])
    && forall k :: 0 <= k < |inputs| ==> Step(ws[k], inputs[k], ws[k + 1])
  }

  function OldOf(records: Records, id: Uid): Option<RuntimePod> {
    if id in records then records[id].old_ else None
  }

  /** Every Removed comes right after a Died of the same container. */
  predicate RemovedAfterDied(h: seq<EventType>) {
    forall i :: 0 <= i < |h| && h[i] == ContainerRemoved ==> i > 0 && h[i - 1] == ContainerDied
  }

  /** The last event sent for a container names its recorded state in the runtime, unless that is neither running nor exited. */
  predicate Consistent(h: seq<EventType>, s: Option<RuntimeState>) {
    && RemovedAfterDied(h)
    && match s
       case Some(Running) => h != [] && h[|h| - 1] == ContainerStarted
       case Some(Exited) => h != [] && h[|h| - 1] == ContainerDied
       case None => h == [] || h[|h| - 1] == ContainerRemoved
       case Some(_) => true
  }

  ghost predicate Inv(w: World) {
    forall id, c :: Consistent(History(w.log, id, c), FirstState(OldOf(w.records, id), c))
  }

  lemma SentBetween(before: Option<RuntimeState>, after: Option<RuntimeState>)
    ensures Sent(StateChange(before, after)) ==
              if after == Some(Created) || after == Some(Unknown) then [] else StateChange(before, after)
  {
    match after
    case Some(Running) => SentOne(ContainerStarted);
    case Some(Exited) => SentOne(ContainerDied);
    case Some(_) => SentOne(ContainerChanged);
    case None =>
      SentOne(ContainerDied);
      SentOne(ContainerRemoved);
      SentAppendOne([ContainerDied], ContainerRemoved);
      assert [ContainerDied] + [ContainerRemoved] == [ContainerDied, ContainerRemoved];
  }

  lemma SentOne(k: EventType)
    ensures Sent([k]) == if k.ContainerChanged? then [] else [k]
  {
    assert [k][..0] == [];
  }

  lemma ConsistentStep(h: seq<EventType>, before: Option<RuntimeState>, after: Option<RuntimeState>)
    requires Consistent(h, before)
    ensures Consistent(h + Sent(StateChange(before, after)), after)
  {
    SentBetween(before, after);
    var kinds := Sent(StateChange(before, after));
    if kinds == [] {
      assert h + [] == h;
    } else if |kinds| == 1 {
      OneMore(h, kinds[0]);
    } else {
      OneMore(h, ContainerDied);
      OneMore(h + [ContainerDied], ContainerRemoved);
      assert h + kinds == h + [ContainerDied] + [ContainerRemoved];
    }
  }

  lemma OneMore(h: seq<EventType>, kind: EventType)
    requires RemovedAfterDied(h) && (kind == ContainerRemoved ==> h != [] && h[|h| - 1] == ContainerDied)
    ensures RemovedAfterDied(h + [kind])
  {
  }

  lemma StepKeepsInv(w: World, i: Input, w': World)
    requires Inv(w) && Step(w, i, w')
    ensures Inv(w')
  {
    forall id, c ensures Consistent(History(w'.log, id, c), FirstState(OldOf(w'.records, id), c)) {
      StepKeepsContainer(w, i, w', id, c);
    }
  }

  lemma StepKeepsContainer(w: World, i: Input, w': World, id: Uid, c: ContainerId)
    requires Consistent(History(w.log, id, c), FirstState(OldOf(w.records, id), c)) && Step(w, i, w')
    ensures Consistent(History(w'.log, id, c), FirstState(OldOf(w'.records, id), c))
  {
    var mid := WithCurrent(w.records, Snap(i.pods));
    var h := History(w.log, id, c);
    assert Get(w'.records, id) == if id in mid then RecordAfter(mid[id], i.fetch(id)) else Get(mid, id);
    assert History(w'.log, id, c) == h + if id in mid then SentFor(mid[id], i.fetch(id), c) else [];
    assert h + [] == h;
    if id in mid && Shifted(mid[id], i.fetch(id)) {
      ConsistentStep(h, FirstState(mid[id].old_, c), FirstState(mid[id].current, c));
    }
  }

  /**
   * Over any run, failed status fetches included: the last event sent for a container that the runtime's recorded
   * listing has as running is Started, for one it has as exited Died, and for one it does not have Removed if any was
   * sent; and every Removed directly follows a Died.
   */
  lemma {:induction false} LifecycleEvents(ws: seq<World>, inputs: seq<Input>, k: nat)
    requires IsRun(ws, inputs) && k < |ws|
    ensures Inv(ws[k])
  {
    if k == 0 {
      StartInv(ws[0]);
    } else {
      LifecycleEvents(ws, inputs, k - 1);
      NextStep(ws, inputs, k - 1);
      StepKeepsInv(ws[k - 1], inputs[k - 1], ws[k]);
    }
  }

  lemma StartInv(w: World)
    requires w == World(map[], View(map[], None), [])
    ensures Inv(w)
  {
  }

  lemma NextStep(ws: seq<World>, inputs: seq<Input>, k: nat)
    requires IsRun(ws, inputs) && k < |inputs|
    ensures Step(ws[k], inputs[k], ws[k + 1])
  {
  }

  /** Over any run every Removed sent for a container has a Died before it that is later than its last Started. */
  lemma RemovedIsLate(ws: seq<World>, inputs: seq<Input>, k: nat, id: Uid, c: ContainerId, i: nat)
    requires IsRun(ws, inputs) && k < |ws|
    requires i < |History(ws[k].log, id, c)| && History(ws[k].log, id, c)[i] == ContainerRemoved
    ensures var h := History(ws[k].log, id, c);
            exists d :: 0 <= d < i && h[d] == ContainerDied && forall j :: d < j < i ==> h[j] != ContainerStarted
  {
    LifecycleEvents(ws, inputs, k);
    var h := History(ws[k].log, id, c);
    assert Consistent(h, FirstState(OldOf(ws[k].records, id), c));
    assert h[i - 1] == ContainerDied;
  }

  ghost predicate Agrees(records: Records, snap: map<Uid, RuntimePod>, id: Uid) {
    forall c :: Alike(FirstState(OldOf(records, id), c), FirstState(Get(snap, id), c))
  }

  /** After a relist a pod's record agrees with the snapshot exactly when nothing changed or its status was fetched. */
  lemma RelistAgreement(w: World, i: Input, w': World, id: Uid)
    requires Step(w, i, w')
    ensures var snap := Snap(i.pods);
            Agrees(w'.records, snap, id) <==> Agrees(w.records, snap, id) || id !in snap || i.fetch(id).err.None?
  {
    var snap := Snap(i.pods);
    var mid := WithCurrent(w.records, snap);
    var r := PodRecord(OldOf(w.records, id), Get(snap, id));
    assert Get(w'.records, id) == if id in mid then RecordAfter(mid[id], i.fetch(id)) else Get(mid, id);
    assert id in mid ==> mid[id] == r;
    if Agrees(w.records, snap, id) {
      assert forall c :: Changes(r.old_, r.current, c) == [];
      assert !Eventful(r);
    } else {
      var c :| !Alike(FirstState(OldOf(w.records, id), c), FirstState(Get(snap, id), c));
      assert Changes(r.old_, r.current, c) != [];
      assert id in mid;
    }
  }

  // ---------------------------------------------------------------------------
  // The cache over runs with failing fetches
  // ---------------------------------------------------------------------------

  predicate HasContainers(pods: seq<RuntimePod>) {
    forall p :: p in pods ==> p.containers != []
  }

  /** The runtime lists a pod for the sake of its containers. */
  predicate AllHaveContainers(inputs: seq<Input>) {
    forall j :: 0 <= j < |inputs| ==> HasContainers(inputs[j].pods)
  }

  lemma {:induction false} SnapMembers(pods: seq<RuntimePod>, id: Uid)
    ensures id in Snap(pods) <==> exists p :: p in pods && p.id == id
    ensures id in Snap(pods) ==> Snap(pods)[id] in pods
  {
    if pods != [] {
      var rest, last := pods[..|pods| - 1], pods[|pods| - 1];
      SnapMembers(rest, id);
      assert pods == rest + [last];
    }
  }

  /** A pod with a container differs from no pod at all. */
  lemma AppearsOrVanishes(pod: RuntimePod)
    requires pod.containers != []
    ensures Eventful(PodRecord(None, Some(pod))) && Eventful(PodRecord(Some(pod), None))
  {
    var c := pod.containers[0].id;
    assert Changes(None, Some(pod), c) != [] && Changes(Some(pod), None, c) != [];
  }

  /** The j-th relist lists the pod. */
  predicate Present(inputs: seq<Input>, id: Uid, j: int) {
    0 <= j < |inputs| && id in Snap(inputs[j].pods)
  }

  /** The pod is listed from the m-th relist to the b-th, and its status could be fetched at the m-th. */
  ghost predicate FetchedSince(inputs: seq<Input>, id: Uid, m: int, b: int) {
    0 <= m <= b < |inputs| && inputs[m].fetch(id).err.None? && forall j :: m <= j <= b ==> Present(inputs, id, j)
  }

  /** Its status was fetched in some relist since it last appeared. */
  ghost predicate FetchedBy(inputs: seq<Input>, id: Uid, b: int) {
    exists m :: FetchedSince(inputs, id, m, b)
  }

  /** Of the first k relists the b-th was the last to list the pod, and not the very last one. */
  ghost predicate VanishedAfter(inputs: seq<Input>, id: Uid, k: int, b: int) {
    0 <= b < k - 1 && Present(inputs, id, b) && forall j :: b < j < k ==> !Present(inputs, id, j)
  }

  /** If the pod vanished, its status was fetched in some relist since it had appeared. */
  ghost predicate FetchedBeforeVanishing(inputs: seq<Input>, id: Uid, k: int) {
    forall b :: VanishedAfter(inputs, id, k, b) ==> FetchedBy(inputs, id, b)
  }

  /** After k relists the record's old side is there. */
  ghost predicate Recorded(inputs: seq<Input>, id: Uid, k: nat)
    requires k <= |inputs|
  {
    k > 0 && Present(inputs, id, k - 1) && (Recorded(inputs, id, k - 1) || inputs[k - 1].fetch(id).err.None?)
  }

  /** After k relists the pod is cached: it is listed, or was not recorded when it vanished. */
  ghost predicate Kept(inputs: seq<Input>, id: Uid, k: nat)
    requires k <= |inputs|
  {
    k > 0 && (Present(inputs, id, k - 1) || (Kept(inputs, id, k - 1) && !Recorded(inputs, id, k - 1)))
  }

  ghost predicate PodState(w: World, id: Uid, recorded: bool, kept: bool) {
    && (OldOf(w.records, id).Some? <==> recorded) && (recorded ==> kept)
    && (recorded ==> OldOf(w.records, id).value.containers != [])
    && (id in w.view.pods <==> kept)
  }

  lemma StepOfPod(w: World, i: Input, w': World, id: Uid, recorded: bool, kept: bool)
    requires PodState(w, id, recorded, kept) && Step(w, i, w') && HasContainers(i.pods)
    ensures var here := id in Snap(i.pods);
            PodState(w', id, here && (recorded || i.fetch(id).err.None?), here || (kept && !recorded))
  {
    var mid := WithCurrent(w.records, Snap(i.pods));
    SnapMembers(i.pods, id);
    assert Get(w'.records, id) == if id in mid then RecordAfter(mid[id], i.fetch(id)) else Get(mid, id);
    assert Get(w'.view.pods, id) == if id in mid then EntryAfter(mid[id], i.fetch(id), Get(w.view.pods, id)) else Get(w.view.pods, id);
    if id in Snap(i.pods) && !recorded { AppearsOrVanishes(Snap(i.pods)[id]); }
    if id !in Snap(i.pods) && recorded { AppearsOrVanishes(OldOf(w.records, id).value); }
    assert forall c :: Changes(None, None, c) == [];
  }

  lemma {:induction false} RunOfPod(ws: seq<World>, inputs: seq<Input>, k: nat, id: Uid)
    requires IsRun(ws, inputs) && k < |ws| && AllHaveContainers(inputs)
    ensures PodState(ws[k], id, Recorded(inputs, id, k), Kept(inputs, id, k))
  {
    if k > 0 {
      RunOfPod(ws, inputs, k - 1, id);
      NextStep(ws, inputs, k - 1);
      StepOfPod(ws[k - 1], inputs[k - 1], ws[k], id, Recorded(inputs, id, k - 1), Kept(inputs, id, k - 1));
    }
  }

  lemma {:induction false} RecordedIff(inputs: seq<Input>, id: Uid, k: nat)
    requires 0 < k <= |inputs|
    ensures Recorded(inputs, id, k) <==> FetchedBy(inputs, id, k - 1)
  {
    if k > 1 {
      RecordedIff(inputs, id, k - 1);
    }
    if Present(inputs, id, k - 1) {
      if inputs[k - 1].fetch(id).err.None? {
        assert FetchedSince(inputs, id, k - 1, k - 1);
      }
      var last, before := k - 1, k - 2;
      forall m ensures m != last ==> (FetchedSince(inputs, id, m, last) <==> FetchedSince(inputs, id, m, before)) {
      }
    }
  }

  /** A pod the last relist does not list is still cached if and only if it vanished without ever being fetched. */
  lemma {:induction false} KeptIff(inputs: seq<Input>, id: Uid, k: nat)
    requires 0 < k <= |inputs| && !Present(inputs, id, k - 1)
    ensures Kept(inputs, id, k) <==> exists b :: VanishedAfter(inputs, id, k, b) && !FetchedBy(inputs, id, b)
  {
    if k > 1 && Present(inputs, id, k - 2) {
      RecordedIff(inputs, id, k - 1);
      forall b ensures VanishedAfter(inputs, id, k, b) <==> b == k - 2 {
      }
    } else if k > 1 {
      KeptIff(inputs, id, k - 1);
      forall b ensures VanishedAfter(inputs, id, k, b) <==> VanishedAfter(inputs, id, k - 1, b) {
      }
    }
  }

  /**
   * After any run the cache holds exactly the pods of the last relist if and only if every pod that vanished had
   * its status fetched in some relist since it appeared.
   */
  lemma CacheHoldsSnapshotIff(ws: seq<World>, inputs: seq<Input>, k: nat)
    requires IsRun(ws, inputs) && 0 < k < |ws| && AllHaveContainers(inputs)
    ensures (forall id :: id in ws[k].view.pods <==> id in Snap(inputs[k - 1].pods)) <==>
              forall id :: FetchedBeforeVanishing(inputs, id, k)
  {
    forall id ensures (id in ws[k].view.pods <==> id in Snap(inputs[k - 1].pods)) <==> FetchedBeforeVanishing(inputs, id, k) {
      RunOfPod(ws, inputs, k, id);
      if !Present(inputs, id, k - 1) {
        KeptIff(inputs, id, k);
      }
    }
  }

  /**
   * A new pod whose status cannot be fetched and that is gone by the next relist leaves an error entry and an
   * empty record behind.
   */
  lemma FailedFetchGoesStale(w: World, first: Input, w': World, second: Input, w'': World, id: Uid)
    requires Step(w, first, w') && Step(w', second, w'')
    requires id !in w.records && id !in w.view.pods
    requires id in Snap(first.pods) && Snap(first.pods)[id].containers != [] && first.fetch(id).err.Some?
    requires id !in Snap(second.pods)
    ensures id in w''.view.pods && w''.view.pods[id].err.Some?
    ensures id in w''.records && w''.records[id] == PodRecord(None, None)
  {
    var mid, mid' := WithCurrent(w.records, Snap(first.pods)), WithCurrent(w'.records, Snap(second.pods));
    AppearsOrVanishes(Snap(first.pods)[id]);
    assert Get(w'.records, id) == RecordAfter(mid[id], first.fetch(id));
    assert Get(w'.view.pods, id) == EntryAfter(mid[id], first.fetch(id), Get(w.view.pods, id));
    StaleForever(w', second, w'', id);
  }

  /** A record with nothing on its old side changes nothing while the pod stays away. */
  lemma StaleForever(w: World, i: Input, w': World, id: Uid)
    requires Step(w, i, w') && id in w.records && w.records[id].old_ == None && id !in Snap(i.pods)
    ensures id in w'.records && w'.records[id] == PodRecord(None, None)
    ensures Get(w'.view.pods, id) == Get(w.view.pods, id)
  {
    var mid := WithCurrent(w.records, Snap(i.pods));
    assert forall c :: Changes(None, None, c) == [];
    assert Get(w'.records, id) == RecordAfter(mid[id], i.fetch(id));
    assert Get(w'.view.pods, id) == EntryAfter(mid[id], i.fetch(id), Get(w.view.pods, id));
  }

  /** The record's old side shows no container. */
  ghost predicate NoneRecorded(w: World, id: Uid) {
    forall c :: FirstState(OldOf(w.records, id), c).None?
  }

  /**
   * A pod listed without containers, should there be one, is dealt with as one whose containers are all gone: if none
   * was recorded nothing changes; else it has an entry, and if its status could be fetched its containers' last
   * events are sent and the listing is recorded.
   */
  lemma ContainerlessIsEmptied(w: World, i: Input, w': World, id: Uid)
    requires Step(w, i, w') && id in Snap(i.pods) && Snap(i.pods)[id].containers == []
    ensures NoneRecorded(w, id) ==>
              && Get(w'.view.pods, id) == Get(w.view.pods, id) && OldOf(w'.records, id) == OldOf(w.records, id)
              && forall c :: History(w'.log, id, c) == History(w.log, id, c)
    ensures !NoneRecorded(w, id) ==>
              && id in w'.view.pods
              && OldOf(w'.records, id) == (if i.fetch(id).err.None? then Some(Snap(i.pods)[id]) else OldOf(w.records, id))
              && forall c :: History(w'.log, id, c) ==
                   History(w.log, id, c) + if i.fetch(id).err.None? then Sent(Changes(OldOf(w.records, id), None, c)) else []
  {
    var mid := WithCurrent(w.records, Snap(i.pods));
    var r := PodRecord(OldOf(w.records, id), Some(Snap(i.pods)[id]));
    assert mid[id] == r;
    assert forall c :: Changes(r.old_, r.current, c) == Changes(r.old_, None, c);
    assert Eventful(r) <==> !NoneRecorded(w, id) by { EventfulIff(r); }
    assert Get(w'.records, id) == RecordAfter(r, i.fetch(id));
    assert Get(w'.view.pods, id) == EntryAfter(r, i.fetch(id), Get(w.view.pods, id));
    forall c ensures History(w'.log, id, c) == History(w.log, id, c) + SentFor(r, i.fetch(id), c) {
    }
  }

  lemma EventfulIff(r: PodRecord)
    requires r.current.Some? && r.current.value.containers == []
    ensures Eventful(r) <==> !forall c :: FirstState(r.old_, c).None?
  {
    if !forall c :: FirstState(r.old_, c).None? {
      var c :| FirstState(r.old_, c).Some?;
      assert Changes(r.old_, r.current, c) != [];
    }
  }
}
