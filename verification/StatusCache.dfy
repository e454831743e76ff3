/**
  The kubelet's pod status cache (pkg/kubelet/runtime/cache.go) and the loop of the worker that reads it
  with a freshness bound (pkg/kubelet/pod_workers.go). Other goroutines write the cache whenever the
  reader does not hold its lock; their writes are handed to the methods as a schedule, and every result
  is stated for all schedules.
*/
module StatusCache {
  import opened KubeletTypes
  import opened Wrappers

  type Time = int

  // The zero value of a worker's lastSyncTime.
  const ZERO_TIME: Time := 0

  const MAX_RETRY := 3

  datatype PodStatus = PodStatus(id: Uid, ips: seq<string>)

  datatype Entry = Entry(status: Option<PodStatus>, err: Option<string>, modified: Time)

  /** The cache's contents as a value. */
  datatype View = View(pods: map<Uid, Entry>, timestamp: Option<Time>)

  datatype Write =
    | SetEntry(id: Uid, entry: Entry)
    | DeleteEntry(id: Uid)
    | SetTimestamp(time: Time)

  /** What GetNewerThan tells its caller. */
  datatype Answer =
    | Fetched(entry: Entry)
    | GlobalNewerButMissing
    | NotNewer

  function Written(v: View, w: Write): View {
    match w
    case SetEntry(id, e) =>
      if id in v.pods && v.pods[id].modified > e.modified then v else v.(pods := v.pods[id := e])
    case DeleteEntry(id) => v.(pods := v.pods - {id})
    case SetTimestamp(t) => v.(timestamp := Some(t))
  }

  function WrittenAll(v: View, ws: seq<Write>): View
    decreases |ws|
  {
    if ws == [] then v else WrittenAll(Written(v, ws[0]), ws[1..])
  }

  lemma {:induction false} WrittenAppend(v: View, ws: seq<Write>, w: Write)
    ensures WrittenAll(v, ws + [w]) == Written(WrittenAll(v, ws), w)
    decreases |ws|
  {
    if ws == [] {
      assert [w][1..] == [] && WrittenAll(Written(v, w), []) == Written(v, w);
      assert ws + [w] == [w];
    } else {
      WrittenAppend(Written(v, ws[0]), ws[1..], w);
      assert (ws + [w])[1..] == ws[1..] + [w];
    }
  }

  /** One look under the read lock: an answer, or None when the reader should wait and look again. */
  function Look(v: View, id: Uid, minTime: Time): Option<Answer> {
    if id !in v.pods && v.timestamp.Some? && v.timestamp.value >= minTime then Some(GlobalNewerButMissing)
    else if id in v.pods && v.pods[id].modified >= minTime then Some(Fetched(v.pods[id]))
    else None
  }

  /** The contents the reader sees at its `k`-th look, if `naps[k]` is written during its `k`-th sleep. */
  function ViewAtLook(v: View, naps: seq<seq<Write>>, k: nat): View
    requires k <= |naps|
  {
    if k == 0 then v else WrittenAll(ViewAtLook(v, naps, k - 1), naps[k - 1])
  }

  /** The look that answers: the first conclusive one, or the last. */
  function DecidingLook(v: View, naps: seq<seq<Write>>, id: Uid, minTime: Time, k: nat := 0): (d: nat)
    requires k <= |naps|
    ensures k <= d <= |naps|
    ensures forall i :: k <= i < d ==> Look(ViewAtLook(v, naps, i), id, minTime).None?
    ensures d < |naps| ==> Look(ViewAtLook(v, naps, d), id, minTime).Some?
    decreases |naps| - k
  {
    if k == |naps| || Look(ViewAtLook(v, naps, k), id, minTime).Some? then k
    else DecidingLook(v, naps, id, minTime, k + 1)
  }

  function AnswerOf(v: View, naps: seq<seq<Write>>, id: Uid, minTime: Time): Answer {
    match Look(ViewAtLook(v, naps, DecidingLook(v, naps, id, minTime)), id, minTime)
    case Some(a) => a
    case None => NotNewer
  }

  /** The reader finds an entry stamped no earlier than it asks for. */
  predicate FreshEntry(v: View, id: Uid, minTime: Time) {
    id in v.pods && minTime <= v.pods[id].modified
  }

  /** The reader finds no entry in a cache that is, as a whole, no older than it asks for. */
  predicate FreshAbsence(v: View, id: Uid, minTime: Time) {
    id !in v.pods && v.timestamp.Some? && minTime <= v.timestamp.value
  }

  /** The k-th look is the first to find either. */
  ghost predicate FirstFinding(v: View, naps: seq<seq<Write>>, id: Uid, minTime: Time, k: nat) {
    && k <= |naps|
    && (FreshEntry(ViewAtLook(v, naps, k), id, minTime) || FreshAbsence(ViewAtLook(v, naps, k), id, minTime))
    && forall i :: 0 <= i < k ==>
         !FreshEntry(ViewAtLook(v, naps, i), id, minTime) && !FreshAbsence(ViewAtLook(v, naps, i), id, minTime)
  }

  /**
    The answer, whatever is written between the looks: a fresh entry is returned exactly when some look finds it and
    no earlier look found anything; likewise a fresh absence; and it is not newer exactly when no look finds anything.
  */
  lemma AnswerIffFound(v: View, naps: seq<seq<Write>>, id: Uid, minTime: Time)
    ensures forall e :: AnswerOf(v, naps, id, minTime) == Fetched(e) <==>
              exists k :: FirstFinding(v, naps, id, minTime, k) && Get(ViewAtLook(v, naps, k).pods, id) == Some(e)
    ensures AnswerOf(v, naps, id, minTime) == GlobalNewerButMissing <==>
              exists k :: FirstFinding(v, naps, id, minTime, k) && id !in ViewAtLook(v, naps, k).pods
    ensures AnswerOf(v, naps, id, minTime) == NotNewer <==> forall k :: !FirstFinding(v, naps, id, minTime, k)
  {
    FirstFindingDecides(v, naps, id, minTime);
    var d := DecidingLook(v, naps, id, minTime);
    if Look(ViewAtLook(v, naps, d), id, minTime).Some? {
      assert FirstFinding(v, naps, id, minTime, d);
    }
  }

  lemma FirstFindingDecides(v: View, naps: seq<seq<Write>>, id: Uid, minTime: Time)
    ensures var d := DecidingLook(v, naps, id, minTime);
            forall k: nat :: FirstFinding(v, naps, id, minTime, k) <==>
              k == d && Look(ViewAtLook(v, naps, d), id, minTime).Some?
  {
    var d := DecidingLook(v, naps, id, minTime);
    forall k: nat | k <= |naps|
      ensures Look(ViewAtLook(v, naps, k), id, minTime).Some? <==>
                FreshEntry(ViewAtLook(v, naps, k), id, minTime) || FreshAbsence(ViewAtLook(v, naps, k), id, minTime)
    {
    }
  }

  function Get<T>(m: map<Uid, T>, id: Uid): Option<T> {
    if id in m then Some(m[id]) else None
  }

  class Cache {
    var pods: map<Uid, Entry>
    var timestamp: Option<Time>
    var readers: nat
    var writing: bool

    function Contents(): View
      reads this
    {
      View(pods, timestamp)
    }

    /** Nobody holds the read-write lock. */
    predicate Unlocked()
      reads this
    {
      readers == 0 && !writing
    }

    constructor ()
      ensures Contents() == View(map[], None) && Unlocked()
    {
      pods, timestamp, readers, writing := map[], None, 0, false;
    }

    method RLock()
      requires !writing
      modifies this`readers
      ensures readers == old(readers) + 1
    {
      readers := readers + 1;
    }

    method RUnlock()
      requires readers > 0
      modifies this`readers
      ensures readers == old(readers) - 1
    {
      readers := readers - 1;
    }

    method Set(id: Uid, status: Option<PodStatus>, err: Option<string>, time: Time) returns (updated: bool)
      requires Unlocked()
      modifies this
      ensures Unlocked()
      ensures Contents() == Written(old(Contents()), SetEntry(id, Entry(status, err, time)))
      ensures updated <==> !(id in old(pods) && old(pods)[id].modified > time)
    {
      writing := true;
      if id in pods && pods[id].modified > time {
        updated := false;
      } else {
        pods := pods[id := Entry(status, err, time)];
        updated := true;
      }
      writing := false;
    }

    method Delete(id: Uid)
      requires Unlocked()
      modifies this
      ensures Unlocked() && Contents() == Written(old(Contents()), DeleteEntry(id))
    {
      writing := true;
      pods := pods - {id};
      writing := false;
    }

    method UpdateTime(time: Time)
      requires Unlocked()
      modifies this
      ensures Unlocked() && Contents() == Written(old(Contents()), SetTimestamp(time))
    {
      writing := true;
      timestamp := Some(time);
      writing := false;
    }

    /** The writers that run while the reader sleeps or works. */
    method Interfere(ws: seq<Write>)
      requires Unlocked()
      modifies this
      ensures Unlocked() && Contents() == WrittenAll(old(Contents()), ws)
    {
      ghost var start := Contents();
      for i := 0 to |ws|
        invariant Unlocked() && Contents() == WrittenAll(start, ws[..i])
      {
        WrittenAppend(start, ws[..i], ws[i]);
        assert ws[..i + 1] == ws[..i] + [ws[i]];
        match ws[i]
        case SetEntry(id, e) => var _ := Set(id, e.status, e.err, e.modified);
        case DeleteEntry(id) => Delete(id);
        case SetTimestamp(t) => UpdateTime(t);
      }
      assert ws[..|ws|] == ws;
    }

    /**
      At most three looks, with the lock released on every way out; the answer is that of the first
      conclusive look, and the cache is left as the writers left it at that look.
    */
    method GetNewerThan(id: Uid, minTime: Time, naps: seq<seq<Write>>) returns (answer: Answer, looks: nat)
      requires Unlocked() && |naps| == MAX_RETRY - 1
      modifies this
      ensures Unlocked()
      ensures looks == DecidingLook(old(Contents()), naps, id, minTime) + 1 && 1 <= looks <= 3
      ensures answer == AnswerOf(old(Contents()), naps, id, minTime)
      ensures Contents() == ViewAtLook(old(Contents()), naps, looks - 1)
    {
      ghost var start := Contents();
      looks := 0;
      RLock();
      for i := 0 to MAX_RETRY
        invariant looks == i && readers == 1 && !writing
        invariant i < MAX_RETRY && Contents() == ViewAtLook(start, naps, i)
        invariant DecidingLook(start, naps, id, minTime) == DecidingLook(start, naps, id, minTime, i)
      {
        looks := looks + 1;
        var ok := id in pods;
        var isGlobalNewer := timestamp.Some? && timestamp.value >= minTime;
        if !ok && isGlobalNewer {
          RUnlock();
          return GlobalNewerButMissing, looks;
        }
        if ok && pods[id].modified >= minTime {
          answer := Fetched(pods[id]);
          RUnlock();
          return;
        }
        RUnlock();
        if i == MAX_RETRY - 1 {
          break;
        }
        Interfere(naps[i]);
        RLock();
      }
      answer := NotNewer;
    }
  }

  // ---- The worker loop ---------------------------------------------------------------------------

  /**
    One received update: `before` is written between the previous turn and the first look, `naps` during
    the lookup's sleeps, `during` while SyncPod runs, and `now` is the clock the turn ends on.
  */
  datatype Turn = Turn(op: SyncOp, uid: Uid, before: seq<Write>, naps: seq<seq<Write>>, during: seq<Write>, now: Time)

  /** A status handed to SyncPod: when it was written, and when the worker's previous sync had ended. */
  datatype Acted = Acted(turn: nat, written: Time, previousSync: Time)

  /** The view in which turn `t` looks, and whether it acts on a status. */
  function LooksAt(t: Turn): bool {
    t.op.Sync? || t.op.Recreate?
  }

  function TurnAnswer(v: View, last: Time, t: Turn): Answer {
    AnswerOf(WrittenAll(v, t.before), t.naps, t.uid, last)
  }

  predicate Acts(v: View, last: Time, t: Turn) {
    LooksAt(t) && TurnAnswer(v, last, t).Fetched? && TurnAnswer(v, last, t).entry.err.None?
  }

  /** The view after a turn. */
  function ViewAfter(v: View, last: Time, t: Turn): View {
    var v1 := WrittenAll(v, t.before);
    var v2 := if LooksAt(t) then ViewAtLook(v1, t.naps, DecidingLook(v1, t.naps, t.uid, last)) else v1;
    if LooksAt(t) && !Acts(v, last, t) then v2 else WrittenAll(v2, t.during)
  }

  /** lastSyncTime after a turn: a failed lookup leaves it alone. */
  function LastAfter(v: View, last: Time, t: Turn): Time {
    if LooksAt(t) && !Acts(v, last, t) then last else t.now
  }

  /** The worker between two turns; `stopped` once it has handled a Kill. */
  datatype Loop = Loop(view: View, last: Time, acted: seq<Acted>, stopped: bool)

  function AfterTurn(l: Loop, k: nat, t: Turn): Loop {
    if l.stopped then l
    else
      var here := if Acts(l.view, l.last, t) then [Acted(k, TurnAnswer(l.view, l.last, t).entry.modified, l.last)] else [];
      Loop(ViewAfter(l.view, l.last, t), LastAfter(l.view, l.last, t), l.acted + here, t.op.Kill?)
  }

  /** The worker after the first `k` turns of a run that starts on cache contents `v`. */
  function LoopAfter(v: View, turns: seq<Turn>, k: nat): Loop
    requires k <= |turns|
  {
    if k == 0 then Loop(v, ZERO_TIME, [], false) else AfterTurn(LoopAfter(v, turns, k - 1), k - 1, turns[k - 1])
  }

  lemma {:induction false} StoppedStays(v: View, turns: seq<Turn>, j: nat, k: nat)
    requires j <= k <= |turns| && LoopAfter(v, turns, j).stopped
    ensures LoopAfter(v, turns, k) == LoopAfter(v, turns, j)
  {
    if j < k {
      StoppedStays(v, turns, j, k - 1);
    }
  }

  predicate WellScheduled(turns: seq<Turn>) {
    forall i :: 0 <= i < |turns| ==> |turns[i].naps| == MAX_RETRY - 1
  }

  /** The Sync and Recreate branch: `written` is the stamp of the status SyncPod got, if it got one. */
  method SyncTurn(cache: Cache, t: Turn, lastSyncTime: Time) returns (written: Option<Time>)
    requires cache.Unlocked() && LooksAt(t) && |t.naps| == MAX_RETRY - 1
    modifies cache
    ensures cache.Unlocked()
    ensures cache.Contents() == ViewAfter(old(cache.Contents()), lastSyncTime, t)
    ensures written == if Acts(old(cache.Contents()), lastSyncTime, t)
                       then Some(TurnAnswer(old(cache.Contents()), lastSyncTime, t).entry.modified) else None
  {
    cache.Interfere(t.before);
    var answer, looks := cache.GetNewerThan(t.uid, lastSyncTime, t.naps);
    if !answer.Fetched? || answer.entry.err.Some? {
      return None;
    }
    cache.Interfere(t.during);
    return Some(answer.entry.modified);
  }

  /** The Create and Kill branches: SyncPod without a status. */
  method PlainTurn(cache: Cache, t: Turn, ghost lastSyncTime: Time)
    requires cache.Unlocked() && !LooksAt(t)
    modifies cache
    ensures cache.Unlocked()
    ensures cache.Contents() == ViewAfter(old(cache.Contents()), lastSyncTime, t)
  {
    cache.Interfere(t.before);
    cache.Interfere(t.during);
  }

  /** The worker: `acted` collects the statuses it hands to SyncPod. */
  method WorkerLoop(cache: Cache, turns: seq<Turn>) returns (acted: seq<Acted>)
    requires cache.Unlocked() && WellScheduled(turns)
    modifies cache
    ensures cache.Unlocked()
    ensures var end := LoopAfter(old(cache.Contents()), turns, |turns|);
            acted == end.acted && cache.Contents() == end.view
  {
    var lastSyncTime := ZERO_TIME;
    acted := [];
    ghost var start := cache.Contents();
    var i := 0;
    while i < |turns|
      invariant 0 <= i <= |turns| && cache.Unlocked()
      invariant LoopAfter(start, turns, i) == Loop(cache.Contents(), lastSyncTime, acted, false)
    {
      var t := turns[i];
      i := i + 1;
      if t.op.Create? {
        PlainTurn(cache, t, lastSyncTime);
      } else if t.op.Sync? || t.op.Recreate? {
        var written := SyncTurn(cache, t, lastSyncTime);
        if written.None? {
          continue;
        }
        acted := acted + [Acted(i - 1, written.value, lastSyncTime)];
      } else {
        PlainTurn(cache, t, lastSyncTime);
        StoppedStays(start, turns, i, |turns|);
        break;
      }
      lastSyncTime := t.now;
    }
  }

  // ---- Freshness ---------------------------------------------------------------------------------

  /** Every entry in the cache was stamped no later than `now`. */
  ghost predicate StampedBy(v: View, now: Time) {
    forall id :: id in v.pods ==> v.pods[id].modified <= now
  }

  ghost predicate WritesStampedBy(ws: seq<Write>, now: Time) {
    forall w :: w in ws && w.SetEntry? ==> w.entry.modified <= now
  }

  /**
    Writers stamp an entry with a clock read before they write it, so what is written in a turn carries a
    stamp no later than the clock the turn ends on; the clock starts at `boot` and never goes back.
  */
  ghost predicate ClockRespected(boot: Time, turns: seq<Turn>) {
    && ZERO_TIME <= boot
    && (forall k :: 0 <= k < |turns| ==> boot <= turns[k].now && StampsRespect(turns[k]))
    && (forall i, j :: 0 <= i < j < |turns| ==> turns[i].now <= turns[j].now)
  }

  ghost predicate StampsRespect(t: Turn) {
    && WritesStampedBy(t.before, t.now)
    && (forall k :: 0 <= k < |t.naps| ==> WritesStampedBy(t.naps[k], t.now))
    && WritesStampedBy(t.during, t.now)
  }

  /** The clock when turn `k` begins. */
  ghost function ClockBefore(boot: Time, turns: seq<Turn>, k: nat): Time
    requires k <= |turns|
  {
    if k == 0 then boot else turns[k - 1].now
  }

  lemma {:induction false} WrittenAllStamped(v: View, ws: seq<Write>, now: Time)
    requires StampedBy(v, now) && WritesStampedBy(ws, now)
    ensures StampedBy(WrittenAll(v, ws), now)
    decreases |ws|
  {
    if ws != [] {
      assert ws[0] in ws;
      forall w | w in ws[1..] ensures w in ws {}
      WrittenAllStamped(Written(v, ws[0]), ws[1..], now);
    }
  }

  lemma {:induction false} LookStamped(v: View, naps: seq<seq<Write>>, k: nat, now: Time)
    requires k <= |naps| && StampedBy(v, now) && forall i :: 0 <= i < |naps| ==> WritesStampedBy(naps[i], now)
    ensures StampedBy(ViewAtLook(v, naps, k), now)
  {
    if k > 0 {
      LookStamped(v, naps, k - 1, now);
      WrittenAllStamped(ViewAtLook(v, naps, k - 1), naps[k - 1], now);
    }
  }

  /** One lookup returns nothing older than asked for and nothing written after the turn's end. */
  lemma TurnIsFresh(v: View, last: Time, t: Turn)
    requires Acts(v, last, t) && StampedBy(v, t.now) && StampsRespect(t)
    ensures last <= TurnAnswer(v, last, t).entry.modified <= t.now
  {
    var v1 := WrittenAll(v, t.before);
    WrittenAllStamped(v, t.before, t.now);
    LookStamped(v1, t.naps, DecidingLook(v1, t.naps, t.uid, last), t.now);
  }

  /** The k-th look is the first to find anything, and finds an entry that holds no error. */
  ghost predicate FirstFindsStatus(v: View, naps: seq<seq<Write>>, id: Uid, minTime: Time, k: nat) {
    && FirstFinding(v, naps, id, minTime, k)
    && id in ViewAtLook(v, naps, k).pods && ViewAtLook(v, naps, k).pods[id].err.None?
  }

  /** Some look finds a status before any other finds anything. */
  ghost predicate FindsStatus(v: View, naps: seq<seq<Write>>, id: Uid, minTime: Time) {
    exists k: nat :: FirstFindsStatus(v, naps, id, minTime, k)
  }

  /**
    A Sync or Recreate is carried out with a status exactly when the first finding of its looks is an entry that
    holds no error; every other Sync or Recreate is dropped.
  */
  lemma ActsIffFound(v: View, last: Time, t: Turn)
    ensures Acts(v, last, t) <==>
              && (t.op.Sync? || t.op.Recreate?)
              && FindsStatus(WrittenAll(v, t.before), t.naps, t.uid, last)
  {
    var v1 := WrittenAll(v, t.before);
    FirstFindingDecides(v1, t.naps, t.uid, last);
    var d := DecidingLook(v1, t.naps, t.uid, last);
    assert FindsStatus(v1, t.naps, t.uid, last) <==> FirstFindsStatus(v1, t.naps, t.uid, last, d);
  }

  /** Each status acted on was written no earlier than the previous sync's end, which was no earlier than any status before. */
  ghost predicate NeverGoesBack(acted: seq<Acted>) {
    && (forall i :: 0 <= i < |acted| ==> acted[i].previousSync <= acted[i].written)
    && (forall i, j :: 0 <= i < j < |acted| ==> acted[i].written <= acted[j].previousSync)
  }

  ghost predicate FreshSoFar(l: Loop, clock: Time) {
    && StampedBy(l.view, clock)
    && NeverGoesBack(l.acted)
    && (forall i :: 0 <= i < |l.acted| ==> l.acted[i].written <= l.last)
    && l.last <= clock
  }

  lemma ViewStaysStamped(v: View, last: Time, t: Turn)
    requires StampedBy(v, t.now) && StampsRespect(t)
    ensures StampedBy(ViewAfter(v, last, t), t.now)
  {
    var v1 := WrittenAll(v, t.before);
    WrittenAllStamped(v, t.before, t.now);
    var d := DecidingLook(v1, t.naps, t.uid, last);
    LookStamped(v1, t.naps, d, t.now);
    WrittenAllStamped(if LooksAt(t) then ViewAtLook(v1, t.naps, d) else v1, t.during, t.now);
  }

  lemma TurnKeepsFresh(l: Loop, k: nat, t: Turn, clock: Time)
    requires FreshSoFar(l, clock) && clock <= t.now && StampsRespect(t)
    ensures FreshSoFar(AfterTurn(l, k, t), t.now)
  {
    ViewStaysStamped(l.view, l.last, t);
    if Acts(l.view, l.last, t) {
      TurnIsFresh(l.view, l.last, t);
    }
  }

  /**
    Freshness: over any run of turns and any interleaving of writers that respects the clock, the write
    times of the statuses a worker acts on never go back, and none precedes the end of its previous sync.
  */
  lemma {:induction false} StatusesAreFresh(v: View, boot: Time, turns: seq<Turn>, k: nat)
    requires k <= |turns| && StampedBy(v, boot) && ClockRespected(boot, turns)
    ensures FreshSoFar(LoopAfter(v, turns, k), ClockBefore(boot, turns, k))
  {
    if k > 0 {
      StatusesAreFresh(v, boot, turns, k - 1);
      TurnKeepsFresh(LoopAfter(v, turns, k - 1), k - 1, turns[k - 1], ClockBefore(boot, turns, k - 1));
    }
  }
}
