/** The API server's store of pod metrics (pkg/kubeapiserver/metrics/stream_data.go). */
module MetricsStore {
  import opened Wrappers

  type Uid = string

  datatype Item = Item(time: int, cpu: real, memory: real)

  type Series = seq<Item>

  /** The containers' series; None is Go's nil map. */
  type Infos = Option<map<string, Series>>

  datatype PodRawMetrics = PodRawMetrics(uid: Uid, infos: Infos)

  type Db = map<Uid, Infos>

  const WINDOW_SIZE := 60
  const SECOND := 1_000_000_000

  // ---------------------------------------------------------------------------
  // Series
  // ---------------------------------------------------------------------------

  predicate Sorted(s: Series) {
    forall i, j :: 0 <= i < j < |s| ==> s[i].time <= s[j].time
  }

  function Trim(s: Series): Series {
    if |s| > WINDOW_SIZE then s[|s| - WINDOW_SIZE..] else s
  }

  /** The samples with time in (lo, hi], in order. */
  function InWindow(s: Series, lo: int, hi: int): Series {
    if s == [] then []
    else
      var last := s[|s| - 1];
      InWindow(s[..|s| - 1], lo, hi) + if lo < last.time <= hi then [last] else []
  }

  /** What sort.Search promises of any series: the sample found is the first after t as far as its neighbours tell. */
  predicate Found(s: Series, t: int, i: nat) {
    && i <= |s|
    && (i > 0 ==> s[i - 1].time <= t)
    && (i < |s| ==> s[i].time > t)
  }

  /** sort.Search for the first sample after t. */
  method SearchAfter(s: Series, t: int) returns (i: nat)
    ensures Found(s, t, i)
  {
    i := 0;
    var j := |s|;
    while i < j
      invariant 0 <= i <= j <= |s|
      invariant i > 0 ==> s[i - 1].time <= t
      invariant j < |s| ==> s[j].time > t
    {
      var h := (i + j) / 2;
      if s[h].time <= t {
        i := h + 1;
      } else {
        j := h;
      }
    }
  }

  lemma {:induction false} AllBefore(s: Series, lo: int, hi: int)
    requires forall k :: 0 <= k < |s| ==> s[k].time <= lo || s[k].time > hi
    ensures InWindow(s, lo, hi) == []
  {
    if s != [] { AllBefore(s[..|s| - 1], lo, hi); }
  }

  lemma {:induction false} InWindowAppend(a: Series, b: Series, lo: int, hi: int)
    ensures InWindow(a + b, lo, hi) == InWindow(a, lo, hi) + InWindow(b, lo, hi)
  {
    if b == [] {
      assert a + b == a;
    } else {
      InWindowAppend(a, b[..|b| - 1], lo, hi);
      assert (a + b)[..|a + b| - 1] == a + b[..|b| - 1];
    }
  }

  lemma {:induction false} AllInside(s: Series, lo: int, hi: int)
    requires forall k :: 0 <= k < |s| ==> lo < s[k].time <= hi
    ensures InWindow(s, lo, hi) == s
  {
    if s != [] {
      AllInside(s[..|s| - 1], lo, hi);
      assert s == s[..|s| - 1] + [s[|s| - 1]];
    }
  }

  lemma Splits(s: Series, t: int, i: nat)
    requires Sorted(s) && Found(s, t, i)
    ensures forall k :: 0 <= k < i ==> s[k].time <= t
    ensures forall k :: i <= k < |s| ==> s[k].time > t
  {
  }

  /** On a sorted series the two searches cut out exactly the window. */
  lemma SearchesCutWindow(s: Series, lo: int, hi: int, l: nat, r: nat)
    requires Sorted(s) && lo <= hi && Found(s, lo, l) && Found(s, hi, r)
    ensures l <= r && s[l..r] == InWindow(s, lo, hi)
  {
    SearchOrder(s, lo, hi, l, r);
    Splits(s, lo, l);
    Splits(s, hi, r);
    CutApart(s, lo, hi, l, r);
  }

  lemma SearchOrder(s: Series, lo: int, hi: int, l: nat, r: nat)
    requires Sorted(s) && lo <= hi && Found(s, lo, l) && Found(s, hi, r)
    ensures l <= r
  {
  }

  lemma CutApart(s: Series, lo: int, hi: int, l: nat, r: nat)
    requires l <= r <= |s|
    requires forall k :: 0 <= k < l ==> s[k].time <= lo
    requires forall k :: l <= k < r ==> lo < s[k].time <= hi
    requires forall k :: r <= k < |s| ==> s[k].time > hi
    ensures s[l..r] == InWindow(s, lo, hi)
  {
    AllBefore(s[..l], lo, hi);
    AllInside(s[l..r], lo, hi);
    AllBefore(s[r..], lo, hi);
    InWindowAppend(s[..l], s[l..r], lo, hi);
    InWindowAppend(s[..l] + s[l..r], s[r..], lo, hi);
    ThreeParts(s, l, r);
  }

  lemma ThreeParts(s: Series, l: nat, r: nat)
    requires l <= r <= |s|
    ensures s[..l] + s[l..r] + s[r..] == s
    ensures [] + s[l..r] + [] == s[l..r]
  {
  }

  predicate NoneIn(s: Series, lo: int, hi: int) {
    forall k :: 0 <= k < |s| ==> !(lo < s[k].time <= hi)
  }

  /** On a sorted series with a backward window the slice is empty, or its bounds are crossed and Go panics. */
  lemma BackwardWindow(s: Series, lo: int, hi: int, l: nat, r: nat)
    requires Sorted(s) && hi < lo && Found(s, lo, l) && Found(s, hi, r)
    ensures r <= l
    ensures l == r <==> NoneIn(s, hi, lo)
  {
    if l > r {
      assert hi < s[r].time <= lo;
    }
  }

  lemma CutMeans(s: Series, lo: int, hi: int, l: nat, r: nat)
    requires Found(s, lo, l) && Found(s, hi, r)
    ensures Sorted(s) && lo <= hi ==> l <= r && s[l..r] == InWindow(s, lo, hi)
    ensures Sorted(s) && hi < lo ==> r <= l && (l == r <==> NoneIn(s, hi, lo))
  {
    if Sorted(s) && lo <= hi { SearchesCutWindow(s, lo, hi, l, r); }
    if Sorted(s) && hi < lo { BackwardWindow(s, lo, hi, l, r); }
  }

  lemma {:induction false} InWindowKeeps(s: Series, lo: int, hi: int)
    requires Sorted(s)
    ensures Sorted(InWindow(s, lo, hi)) && |InWindow(s, lo, hi)| <= |s|
    ensures forall x :: x in InWindow(s, lo, hi) <==> x in s && lo < x.time <= hi
  {
    if s != [] {
      var rest, last := s[..|s| - 1], s[|s| - 1];
      InWindowKeeps(rest, lo, hi);
      assert s == rest + [last];
      assert forall x :: x in rest ==> x.time <= last.time;
    }
  }

  function Max(a: int, b: int): int {
    if a >= b then a else b
  }

  function Min(a: int, b: int): int {
    if a <= b then a else b
  }

  /** Cutting a window out of a window leaves what lies in both. */
  lemma {:induction false} WindowOfWindow(s: Series, lo1: int, hi1: int, lo2: int, hi2: int)
    ensures InWindow(InWindow(s, lo1, hi1), lo2, hi2) == InWindow(s, Max(lo1, lo2), Min(hi1, hi2))
  {
    if s != [] {
      var rest, last := s[..|s| - 1], s[|s| - 1];
      WindowOfWindow(rest, lo1, hi1, lo2, hi2);
      var tail := if lo1 < last.time <= hi1 then [last] else [];
      InWindowAppend(InWindow(rest, lo1, hi1), tail, lo2, hi2);
      if tail != [] {
        assert tail[..0] == [];
        assert InWindow(tail, lo2, hi2) == if lo2 < last.time <= hi2 then [last] else [];
      }
    }
  }

  lemma {:induction false} InnerIsShorter(s: Series, lo: int, hi: int, lo2: int, hi2: int)
    requires lo2 <= lo && hi <= hi2
    ensures |InWindow(s, lo, hi)| <= |InWindow(s, lo2, hi2)|
  {
    if s != [] { InnerIsShorter(s[..|s| - 1], lo, hi, lo2, hi2); }
  }

  /** A window inside another one holds all its samples if and only if none lies between the two. */
  lemma {:induction false} InnerIsAllIff(s: Series, lo: int, hi: int, lo2: int, hi2: int)
    requires lo2 <= lo && hi <= hi2
    ensures InWindow(s, lo, hi) == InWindow(s, lo2, hi2) <==>
              forall k :: 0 <= k < |s| && lo2 < s[k].time <= hi2 ==> lo < s[k].time <= hi
  {
    if s != [] {
      var rest, last := s[..|s| - 1], s[|s| - 1];
      InnerIsAllIff(rest, lo, hi, lo2, hi2);
      InnerIsShorter(rest, lo, hi, lo2, hi2);
      assert s == rest + [last];
      assert InWindow(s, lo2, hi2) == InWindow(rest, lo2, hi2) + if lo2 < last.time <= hi2 then [last] else [];
      SameTail(InWindow(rest, lo, hi), InWindow(rest, lo2, hi2), last);
    }
  }

  lemma SameTail(a: Series, b: Series, x: Item)
    ensures a + [x] == b + [x] <==> a == b
    ensures |a| <= |b| ==> a + [] != b + [x]
    ensures a + [] == b + [] <==> a == b
  {
    assert a + [] == a && b + [] == b;
    if a + [x] == b + [x] {
      assert (a + [x])[..|a|] == a && (b + [x])[..|b|] == b;
    }
  }

  /** The samples of s with time in (lo, hi] lie next to each other, and w is that sorted stretch. */
  ghost predicate IsWindow(s: Series, w: Series, lo: int, hi: int) {
    exists l, r :: WindowAt(s, w, lo, hi, l, r)
  }

  predicate WindowAt(s: Series, w: Series, lo: int, hi: int, l: int, r: int) {
    && 0 <= l <= r <= |s| && w == s[l..r] && Sorted(w)
    && forall k :: 0 <= k < |s| ==> (l <= k < r <==> lo < s[k].time <= hi)
  }

  lemma SortedHasWindow(s: Series, lo: int, hi: int)
    requires Sorted(s) && lo <= hi
    ensures IsWindow(s, InWindow(s, lo, hi), lo, hi)
  {
    var l, r := BoundaryOf(s, lo), BoundaryOf(s, hi);
    SearchesCutWindow(s, lo, hi, l, r);
    Splits(s, lo, l);
    Splits(s, hi, r);
    assert WindowAt(s, InWindow(s, lo, hi), lo, hi, l, r);
  }

  /** Where the samples after t begin. */
  function BoundaryOf(s: Series, t: int): (i: nat)
    requires Sorted(s)
    ensures Found(s, t, i)
  {
    if s == [] then 0 else if s[|s| - 1].time <= t then |s| else BoundaryOf(s[..|s| - 1], t)
  }

  // ---------------------------------------------------------------------------
  // Saving
  // ---------------------------------------------------------------------------

  function SeriesOf(m: map<string, Series>, c: string): Series {
    if c in m then m[c] else []
  }

  /** The stored series with the new ones appended and trimmed. */
  function Merged(stored: map<string, Series>, new_: map<string, Series>): map<string, Series> {
    map c | c in stored.Keys + new_.Keys :: if c in new_ then Trim(SeriesOf(stored, c) + new_[c]) else stored[c]
  }

  function Containers(infos: Infos): map<string, Series> {
    if infos.Some? then infos.value else map[]
  }

  lemma NothingStored(new_: map<string, Series>)
    ensures Merged(map[], new_) == map c | c in new_ :: Trim(new_[c])
  {
    forall c | c in new_ ensures SeriesOf(map[], c) + new_[c] == new_[c] {}
  }

  /** None stands for the write into a nil map, which panics. */
  function SavedOne(db: Db, p: PodRawMetrics): Option<Db> {
    if p.uid !in db then Some(db[p.uid := if p.infos.None? then None else Some(Merged(map[], p.infos.value))])
    else if db[p.uid].None? then (if Containers(p.infos) == map[] then Some(db) else None)
    else Some(db[p.uid := Some(Merged(db[p.uid].value, Containers(p.infos)))])
  }

  /** The database after the items before the first that panics, and whether there is one. */
  function SavedAll(db: Db, items: seq<PodRawMetrics>): (Db, bool)
    decreases |items|
  {
    if items == [] then (db, false)
    else
      var one := SavedOne(db, items[0]);
      if one.None? then (db, true) else SavedAll(one.value, items[1..])
  }

  /** What is stored for the item's pod when its turn comes is a missing map. */
  ghost predicate StoredNil(db: Db, items: seq<PodRawMetrics>, i: nat)
    requires i < |items|
  {
    if items[i].uid in db then db[items[i].uid].None?
    else exists j :: FirstFor(items, items[i].uid, j) && j < i && items[j].infos.None?
  }

  /** The batch's first item for the pod, which inserts it. */
  ghost predicate FirstFor(items: seq<PodRawMetrics>, id: Uid, j: int) {
    0 <= j < |items| && items[j].uid == id && forall m :: 0 <= m < j ==> items[m].uid != id
  }

  /** An item with containers for a pod without a map. */
  ghost predicate PanicsAt(db: Db, items: seq<PodRawMetrics>, i: nat) {
    i < |items| && Containers(items[i].infos) != map[] && StoredNil(db, items, i)
  }

  /** The second item's turn, seen from the first. */
  lemma NilAfterOne(db: Db, items: seq<PodRawMetrics>, i: nat)
    requires 0 < i < |items| && SavedOne(db, items[0]).Some?
    ensures StoredNil(db, items, i) <==> StoredNil(SavedOne(db, items[0]).value, items[1..], i - 1)
  {
    var id, rest := items[i].uid, items[1..];
    var db1 := SavedOne(db, items[0]).value;
    assert rest[i - 1] == items[i];
    if id !in db && id == items[0].uid {
      assert FirstFor(items, id, 0);
    } else if id !in db {
      if j :| FirstFor(items, id, j) && j < i && items[j].infos.None? {
        assert forall m :: 0 <= m < j - 1 ==> rest[m] == items[m + 1];
        assert FirstFor(rest, id, j - 1) && rest[j - 1] == items[j];
      }
      if j :| FirstFor(rest, id, j) && j < i - 1 && rest[j].infos.None? {
        assert forall m :: 0 < m < j + 1 ==> items[m] == rest[m - 1];
        assert FirstFor(items, id, j + 1) && items[j + 1] == rest[j];
      }
    }
  }

  /**
    Saving a batch panics if and only if an item has containers for a pod stored without any, be it stored
    before or inserted by an earlier item of the batch.
  */
  lemma {:induction false} SavePanicsIff(db: Db, items: seq<PodRawMetrics>)
    ensures SavedAll(db, items).1 <==> exists i :: PanicsAt(db, items, i)
    decreases |items|
  {
    if items != [] {
      if SavedOne(db, items[0]).None? {
        assert PanicsAt(db, items, 0);
      } else {
        var db1, rest := SavedOne(db, items[0]).value, items[1..];
        SavePanicsIff(db1, rest);
        assert !PanicsAt(db, items, 0) by { NoPanicFirst(db, items); }
        forall i: nat | 0 < i < |items| ensures PanicsAt(db, items, i) <==> PanicsAt(db1, rest, i - 1) {
          NilAfterOne(db, items, i);
        }
        if i: nat :| PanicsAt(db1, rest, i) {
          assert PanicsAt(db, items, i + 1) <==> PanicsAt(db1, rest, i + 1 - 1);
        }
      }
    }
  }

  lemma NoPanicFirst(db: Db, items: seq<PodRawMetrics>)
    requires items != [] && SavedOne(db, items[0]).Some?
    ensures !PanicsAt(db, items, 0)
  {
  }

  // ---------------------------------------------------------------------------
  // Querying
  // ---------------------------------------------------------------------------

  datatype Answer = PodNotFound | InfoEmpty | Metrics(infos: map<string, Series>) | Panic

  function Windowed(m: map<string, Series>, lo: int, hi: int): map<string, Series> {
    map c | c in m :: InWindow(m[c], lo, hi)
  }

  /** What a query with a window that is not negative answers on sorted series. */
  function AnswerOf(db: Db, id: Uid, time: int, window: int): Answer {
    if id !in db then PodNotFound
    else if Containers(db[id]) == map[] then InfoEmpty
    else Metrics(Windowed(Containers(db[id]), time - window * SECOND, time))
  }

  /** The database after a query with a window that is not negative. */
  function Queried(db: Db, id: Uid, time: int, window: int): Db {
    if id !in db || Containers(db[id]) == map[] then db
    else db[id := Some(Windowed(Containers(db[id]), time - window * SECOND, time))]
  }

  predicate AllSorted(m: map<string, Series>) {
    forall c :: c in m ==> Sorted(m[c])
  }

  predicate SortedFor(db: Db, id: Uid) {
    id in db ==> AllSorted(Containers(db[id]))
  }

  predicate SampleIn(m: map<string, Series>, c: string, k: int, lo: int, hi: int) {
    c in m && 0 <= k < |m[c]| && lo < m[c][k].time <= hi
  }

  predicate AnySampleIn(m: map<string, Series>, lo: int, hi: int) {
    exists c, k :: c in m && 0 <= k < |m[c]| && SampleIn(m, c, k, lo, hi)
  }

  /** The k-th stored sample of the pod's container lies in (lo, hi]. */
  predicate SampleBetween(db: Db, id: Uid, c: string, k: int, lo: int, hi: int) {
    id in db && SampleIn(Containers(db[id]), c, k, lo, hi)
  }

  predicate HasSampleBetween(db: Db, id: Uid, lo: int, hi: int) {
    id in db && AnySampleIn(Containers(db[id]), lo, hi)
  }

  // ---------------------------------------------------------------------------
  // A query after another one
  // ---------------------------------------------------------------------------

  lemma QueriedMap(db: Db, id: Uid, t: int, n: int)
    requires id in db && Containers(db[id]) != map[]
    ensures id in Queried(db, id, t, n)
    ensures Containers(Queried(db, id, t, n)[id]) == Windowed(Containers(db[id]), t - n * SECOND, t) != map[]
  {
    assert Windowed(Containers(db[id]), t - n * SECOND, t).Keys == Containers(db[id]).Keys;
  }

  lemma MapAnswer(db: Db, id: Uid, m: map<string, Series>, t: int, n: int)
    requires id in db && Containers(db[id]) == m != map[]
    ensures AnswerOf(db, id, t, n) == Metrics(Windowed(m, t - n * SECOND, t))
  {
  }

  /** Of two queries in a row the second answers only what lies in both windows. */
  lemma SecondAnswer(db: Db, id: Uid, t1: int, n1: int, t2: int, n2: int)
    ensures AnswerOf(Queried(db, id, t1, n1), id, t2, n2) ==
              if id in db && Containers(db[id]) != map[]
              then Metrics(Windowed(Containers(db[id]), Max(t1 - n1 * SECOND, t2 - n2 * SECOND), Min(t1, t2)))
              else AnswerOf(db, id, t2, n2)
  {
    if id in db && Containers(db[id]) != map[] {
      var m := Containers(db[id]);
      QueriedMap(db, id, t1, n1);
      MapAnswer(Queried(db, id, t1, n1), id, Windowed(m, t1 - n1 * SECOND, t1), t2, n2);
      WindowedTwice(m, t1 - n1 * SECOND, t1, t2 - n2 * SECOND, t2);
    }
  }

  lemma WindowedTwice(m: map<string, Series>, lo1: int, hi1: int, lo2: int, hi2: int)
    ensures Windowed(Windowed(m, lo1, hi1), lo2, hi2) == Windowed(m, Max(lo1, lo2), Min(hi1, hi2))
  {
    forall c | c in m ensures InWindow(InWindow(m[c], lo1, hi1), lo2, hi2) == InWindow(m[c], Max(lo1, lo2), Min(hi1, hi2)) {
      WindowOfWindow(m[c], lo1, hi1, lo2, hi2);
    }
  }

  /** A sample of the second window that the first query threw away. */
  predicate ThrownAway(db: Db, id: Uid, c: string, k: int, t1: int, n1: int, t2: int, n2: int) {
    SampleBetween(db, id, c, k, t2 - n2 * SECOND, t2) && !SampleBetween(db, id, c, k, t1 - n1 * SECOND, t1)
  }

  /** The first query leaves the second one's answer alone if and only if no stored sample is in the second window only. */
  lemma FirstQueryHarmlessIff(db: Db, id: Uid, t1: int, n1: int, t2: int, n2: int)
    ensures AnswerOf(Queried(db, id, t1, n1), id, t2, n2) == AnswerOf(db, id, t2, n2) <==>
              forall c, k :: !ThrownAway(db, id, c, k, t1, n1, t2, n2)
  {
    SecondAnswer(db, id, t1, n1, t2, n2);
    if id in db && Containers(db[id]) != map[] {
      var m := Containers(db[id]);
      var lo2 := t2 - n2 * SECOND;
      var lo, hi := Max(t1 - n1 * SECOND, lo2), Min(t1, t2);
      forall c | c in m ensures NoneThrownAway(db, id, c, t1, n1, t2, n2) <==> InWindow(m[c], lo, hi) == InWindow(m[c], lo2, t2) {
        HarmlessForOne(db, id, c, t1, n1, t2, n2);
      }
      SameWindowsIff(m, lo, hi, lo2, t2);
      assert forall c :: c !in m ==> NoneThrownAway(db, id, c, t1, n1, t2, n2);
    }
  }

  ghost predicate NoneThrownAway(db: Db, id: Uid, c: string, t1: int, n1: int, t2: int, n2: int) {
    forall k :: !ThrownAway(db, id, c, k, t1, n1, t2, n2)
  }

  lemma HarmlessForOne(db: Db, id: Uid, c: string, t1: int, n1: int, t2: int, n2: int)
    requires id in db && c in Containers(db[id])
    ensures var s := Containers(db[id])[c];
            NoneThrownAway(db, id, c, t1, n1, t2, n2) <==>
              InWindow(s, Max(t1 - n1 * SECOND, t2 - n2 * SECOND), Min(t1, t2)) == InWindow(s, t2 - n2 * SECOND, t2)
  {
    var s := Containers(db[id])[c];
    var lo1, lo2 := t1 - n1 * SECOND, t2 - n2 * SECOND;
    InnerIsAllIff(s, Max(lo1, lo2), Min(t1, t2), lo2, t2);
    forall k ensures ThrownAway(db, id, c, k, t1, n1, t2, n2)
        <==> 0 <= k < |s| && lo2 < s[k].time <= t2 && !(Max(lo1, lo2) < s[k].time <= Min(t1, t2)) {
    }
  }

  lemma SameWindowsIff(m: map<string, Series>, lo: int, hi: int, lo2: int, hi2: int)
    ensures Windowed(m, lo, hi) == Windowed(m, lo2, hi2) <==> forall c :: c in m ==> InWindow(m[c], lo, hi) == InWindow(m[c], lo2, hi2)
  {
    var a, b := Windowed(m, lo, hi), Windowed(m, lo2, hi2);
    if a == b {
      forall c | c in m ensures InWindow(m[c], lo, hi) == InWindow(m[c], lo2, hi2) { assert a[c] == b[c]; }
    }
  }

  /** In particular, a wider query after a narrower one at the same time is complete if and only if nothing older was stored. */
  lemma WideAfterNarrowIff(db: Db, id: Uid, t: int, narrow: int, wide: int)
    requires 0 <= narrow <= wide
    ensures AnswerOf(Queried(db, id, t, narrow), id, t, wide) == AnswerOf(db, id, t, wide) <==>
              !HasSampleBetween(db, id, t - wide * SECOND, t - narrow * SECOND)
  {
    FirstQueryHarmlessIff(db, id, t, narrow, t, wide);
    if id in db {
      var m, lo, hi := Containers(db[id]), t - wide * SECOND, t - narrow * SECOND;
      forall c, k ensures ThrownAway(db, id, c, k, t, narrow, t, wide) <==> SampleIn(m, c, k, lo, hi) {
      }
      if AnySampleIn(m, lo, hi) {
        var c, k :| c in m && 0 <= k < |m[c]| && SampleIn(m, c, k, lo, hi);
        assert ThrownAway(db, id, c, k, t, narrow, t, wide);
      }
    }
  }

  class MetricsDb {
    var metrics: Db

    constructor ()
      ensures metrics == map[]
    {
      metrics := map[];
    }

    method SavePodMetrics(podMetrics: seq<PodRawMetrics>) returns (panicked: bool)
      modifies this
      ensures (metrics, panicked) == SavedAll(old(metrics), podMetrics)
    {
      var rest := podMetrics;
      ghost var db0 := metrics;
      while rest != []
        invariant SavedAll(metrics, rest) == SavedAll(db0, podMetrics)
        decreases |rest|
      {
        var one := SaveOne(metrics, rest[0]);
        if one.None? {
          return true;
        }
        metrics := one.value;
        rest := rest[1..];
      }
      return false;
    }

    static method SaveOne(db: Db, podItem: PodRawMetrics) returns (r: Option<Db>)
      ensures r == SavedOne(db, podItem)
    {
      var uid := podItem.uid;
      var new_ := Containers(podItem.infos);
      var stored: map<string, Series>;
      if uid !in db {
        stored := new_;
      } else {
        if db[uid].None? && new_ != map[] {
          return None;
        }
        stored := AppendAll(Containers(db[uid]), new_);
      }
      var trimmed := TrimAll(stored, new_);
      if uid !in db {
        NothingStored(new_);
        assert trimmed == map c | c in new_ :: Trim(new_[c]);
        return Some(db[uid := if podItem.infos.None? then None else Some(trimmed)]);
      }
      if db[uid].None? {
        assert db[uid := None] == db;
        return Some(db);
      }
      assert trimmed == Merged(db[uid].value, new_);
      return Some(db[uid := Some(trimmed)]);
    }

    /** The loop that appends. */
    static method AppendAll(stored: map<string, Series>, new_: map<string, Series>) returns (r: map<string, Series>)
      ensures r == map c | c in stored.Keys + new_.Keys :: if c in new_ then SeriesOf(stored, c) + new_[c] else stored[c]
    {
      r := stored;
      var rest := new_.Keys;
      while rest != {}
        invariant rest <= new_.Keys
        invariant forall c :: c in r <==> c in stored || (c in new_ && c !in rest)
        invariant forall c :: c in r ==> r[c] == if c in new_ && c !in rest then SeriesOf(stored, c) + new_[c] else stored[c]
        decreases rest
      {
        var c :| c in rest;
        rest := rest - {c};
        r := r[c := SeriesOf(r, c) + new_[c]];
      }
    }

    /** The loop that trims the containers just saved. */
    static method TrimAll(stored: map<string, Series>, new_: map<string, Series>) returns (r: map<string, Series>)
      requires new_.Keys <= stored.Keys
      ensures r == map c | c in stored :: if c in new_ then Trim(stored[c]) else stored[c]
    {
      r := stored;
      var rest := new_.Keys;
      while rest != {}
        invariant rest <= new_.Keys
        invariant forall c :: c in r <==> c in stored
        invariant forall c :: c in r ==> r[c] == if c in new_ && c !in rest then Trim(stored[c]) else stored[c]
        decreases rest
      {
        var c :| c in rest;
        rest := rest - {c};
        var curLen := |r[c]|;
        if curLen > WINDOW_SIZE {
          r := r[c := r[c][curLen - WINDOW_SIZE..]];
        }
      }
    }

    /** The stored series are cut down to the window that is returned. */
    method GetPodMetrics(podId: Uid, timeStamp: int, n: int) returns (answer: Answer)
      modifies this
      ensures SortedFor(old(metrics), podId) && n >= 0 ==>
                && answer == AnswerOf(old(metrics), podId, timeStamp, n)
                && metrics == Queried(old(metrics), podId, timeStamp, n)
      ensures SortedFor(old(metrics), podId) && n < 0 ==>
                (answer.Panic? <==> HasSampleBetween(old(metrics), podId, timeStamp, timeStamp - n * SECOND))
      ensures podId !in old(metrics) ==> answer == PodNotFound && metrics == old(metrics)
      ensures podId in old(metrics) && Containers(old(metrics)[podId]) == map[] ==> answer == InfoEmpty && metrics == old(metrics)
      ensures answer.Panic? ==> podId in old(metrics) && metrics.Keys == old(metrics).Keys
      ensures forall id :: id in old(metrics) && id != podId ==> id in metrics && metrics[id] == old(metrics)[id]
    {
      if podId !in metrics {
        return PodNotFound;
      }
      var infos := Containers(metrics[podId]);
      if |infos| == 0 {
        assert infos == map[];
        return InfoEmpty;
      }
      var earliestValidTS := timeStamp - n * SECOND;
      var cut, panicked := CutAll(infos, earliestValidTS, timeStamp);
      metrics := metrics[podId := Some(cut)];
      if panicked {
        return Panic;
      }
      return Metrics(cut);
    }

    /** The loop over the containers; crossed bounds end it. */
    static method CutAll(infos: map<string, Series>, lo: int, hi: int) returns (cut: map<string, Series>, panicked: bool)
      ensures AllSorted(infos) && lo <= hi ==> !panicked && cut == Windowed(infos, lo, hi)
      ensures AllSorted(infos) && hi < lo ==>
                && (panicked <==> AnySampleIn(infos, hi, lo))
                && cut.Keys == infos.Keys && forall c :: c in infos ==> cut[c] == infos[c] || cut[c] == []
    {
      cut, panicked := infos, false;
      var rest := infos.Keys;
      while rest != {}
        invariant rest <= infos.Keys && cut.Keys == infos.Keys
        invariant forall c :: c in rest ==> cut[c] == infos[c]
        invariant AllSorted(infos) && lo <= hi ==> forall c :: c in infos && c !in rest ==> cut[c] == InWindow(infos[c], lo, hi)
        invariant AllSorted(infos) && hi < lo ==>
                    forall c :: c in infos && c !in rest ==> cut[c] == [] && NoneIn(infos[c], hi, lo)
        decreases rest
      {
        var c :| c in rest;
        var l := SearchAfter(infos[c], lo);
        var r := SearchAfter(infos[c], hi);
        CutMeans(infos[c], lo, hi, l, r);
        if l > r {
          assert AllSorted(infos) && hi < lo ==> SampleIn(infos, c, r, hi, lo);
          return cut, true;
        }
        cut := cut[c := infos[c][l..r]];
        rest := rest - {c};
      }
    }
  }

  // ---------------------------------------------------------------------------
  // Runs
  // ---------------------------------------------------------------------------

  /** Every stored series is sorted and at most sixty samples long. */
  predicate Bounded(db: Db) {
    forall id, c :: id in db && c in Containers(db[id]) ==>
      Sorted(Containers(db[id])[c]) && |Containers(db[id])[c]| <= WINDOW_SIZE
  }

  /** Up to when samples were ever saved, per pod and container. */
  type Latest = map<(Uid, string), int>

  /** No stored sample is later than the latest one saved. */
  predicate NotAfter(db: Db, latest: Latest) {
    forall id, c :: id in db && c in Containers(db[id]) ==> SeriesNotAfter(Containers(db[id])[c], latest, id, c)
  }

  predicate SeriesNotAfter(s: Series, latest: Latest, id: Uid, c: string) {
    s != [] ==> (id, c) in latest && forall i :: 0 <= i < |s| ==> s[i].time <= latest[(id, c)]
  }

  /** The item's samples are in order and none is earlier than what was saved before. */
  predicate InOrder(p: PodRawMetrics, latest: Latest) {
    forall c :: c in Containers(p.infos) ==>
      var s := Containers(p.infos)[c];
      Sorted(s) && (s != [] && (p.uid, c) in latest ==> latest[(p.uid, c)] <= s[0].time)
  }

  function After(p: PodRawMetrics, latest: Latest): Latest {
    latest + map c | c in Containers(p.infos) && Containers(p.infos)[c] != [] ::
      (p.uid, c) := Containers(p.infos)[c][|Containers(p.infos)[c]| - 1].time
  }

  lemma AppendKeepsSorted(a: Series, b: Series)
    requires Sorted(a) && Sorted(b) && (a != [] && b != [] ==> a[|a| - 1].time <= b[0].time)
    ensures Sorted(a + b)
  {
    forall i, j | 0 <= i < j < |a + b| ensures (a + b)[i].time <= (a + b)[j].time {
      if i < |a| <= j {
        assert a[i].time <= a[|a| - 1].time && b[0].time <= b[j - |a|].time;
      }
    }
  }

  lemma TrimKeepsSorted(s: Series)
    requires Sorted(s)
    ensures Sorted(Trim(s)) && |Trim(s)| <= WINDOW_SIZE
  {
  }

  lemma SaveKeepsBounded(db: Db, p: PodRawMetrics, latest: Latest)
    requires Bounded(db) && NotAfter(db, latest) && InOrder(p, latest) && SavedOne(db, p).Some?
    ensures Bounded(SavedOne(db, p).value) && NotAfter(SavedOne(db, p).value, After(p, latest))
  {
    var db' := SavedOne(db, p).value;
    forall id, c | id in db' && c in Containers(db'[id]) ensures Fine(Containers(db'[id])[c], After(p, latest), id, c) {
      SavedSeries(db, p, latest, id, c);
    }
  }

  lemma SavedSeries(db: Db, p: PodRawMetrics, latest: Latest, id: Uid, c: string)
    requires Bounded(db) && NotAfter(db, latest) && InOrder(p, latest) && SavedOne(db, p).Some?
    requires id in SavedOne(db, p).value && c in Containers(SavedOne(db, p).value[id])
    ensures Fine(Containers(SavedOne(db, p).value[id])[c], After(p, latest), id, c)
  {
    StoredIsFine(db, latest, id, c);
    SavedLookup(db, p, id, c);
    FineAfterSave(StoredSeries(db, id, c), p, latest, id, c);
  }

  /** Sorted, short, and not after the latest time. */
  predicate Fine(s: Series, latest: Latest, id: Uid, c: string) {
    Sorted(s) && |s| <= WINDOW_SIZE && SeriesNotAfter(s, latest, id, c)
  }

  lemma FineAfterSave(stored: Series, p: PodRawMetrics, latest: Latest, id: Uid, c: string)
    requires Fine(stored, latest, id, c) && InOrder(p, latest)
    ensures Fine(if id == p.uid && c in Containers(p.infos) then Trim(stored + Containers(p.infos)[c]) else stored, After(p, latest), id, c)
  {
    AfterAt(p, latest, id, c);
    if id == p.uid && c in Containers(p.infos) {
      FineAppend(stored, Containers(p.infos)[c], latest, id, c, After(p, latest));
    } else {
      FineLater(stored, latest, id, c, After(p, latest));
    }
  }

  lemma FineAppend(stored: Series, new_: Series, latest: Latest, id: Uid, c: string, after: Latest)
    requires Fine(stored, latest, id, c) && Sorted(new_)
    requires new_ != [] && (id, c) in latest ==> latest[(id, c)] <= new_[0].time
    requires if new_ != [] then (id, c) in after && after[(id, c)] == new_[|new_| - 1].time
             else (id, c) in latest ==> (id, c) in after && after[(id, c)] == latest[(id, c)]
    ensures Fine(Trim(stored + new_), after, id, c)
  {
    OrderedAppend(stored, new_, latest, id, c);
    MergedNotAfter(stored, new_, latest, id, c, after);
  }

  lemma FineLater(stored: Series, latest: Latest, id: Uid, c: string, after: Latest)
    requires Fine(stored, latest, id, c)
    requires (id, c) in latest ==> (id, c) in after && after[(id, c)] == latest[(id, c)]
    ensures Fine(stored, after, id, c)
  {
  }

  lemma StoredIsFine(db: Db, latest: Latest, id: Uid, c: string)
    requires Bounded(db) && NotAfter(db, latest)
    ensures Fine(StoredSeries(db, id, c), latest, id, c)
  {
  }

  /** The latest time of one container after an item. */
  lemma AfterAt(p: PodRawMetrics, latest: Latest, id: Uid, c: string)
    requires InOrder(p, latest)
    ensures if id == p.uid && c in Containers(p.infos) && Containers(p.infos)[c] != []
            then (id, c) in After(p, latest) && After(p, latest)[(id, c)] == Containers(p.infos)[c][|Containers(p.infos)[c]| - 1].time
            else (id, c) in latest ==> (id, c) in After(p, latest) && After(p, latest)[(id, c)] == latest[(id, c)]
  {
  }

  function StoredSeries(db: Db, id: Uid, c: string): Series {
    if id in db then SeriesOf(Containers(db[id]), c) else []
  }

  lemma SavedLookup(db: Db, p: PodRawMetrics, id: Uid, c: string)
    requires SavedOne(db, p).Some?
    requires id in SavedOne(db, p).value && c in Containers(SavedOne(db, p).value[id])
    ensures Containers(SavedOne(db, p).value[id])[c] ==
              if id == p.uid && c in Containers(p.infos) then Trim(StoredSeries(db, id, c) + Containers(p.infos)[c])
              else StoredSeries(db, id, c)
  {
  }

  lemma OrderedAppend(stored: Series, new_: Series, latest: Latest, id: Uid, c: string)
    requires Sorted(stored) && Sorted(new_) && SeriesNotAfter(stored, latest, id, c)
    requires new_ != [] && (id, c) in latest ==> latest[(id, c)] <= new_[0].time
    ensures Sorted(Trim(stored + new_)) && |Trim(stored + new_)| <= WINDOW_SIZE
  {
    AppendKeepsSorted(stored, new_);
    TrimKeepsSorted(stored + new_);
  }

  lemma MergedNotAfter(stored: Series, new_: Series, latest: Latest, id: Uid, c: string, after: Latest)
    requires SeriesNotAfter(stored, latest, id, c) && Sorted(new_)
    requires new_ != [] && (id, c) in latest ==> latest[(id, c)] <= new_[0].time
    requires if new_ != [] then (id, c) in after && after[(id, c)] == new_[|new_| - 1].time
             else (id, c) in latest ==> (id, c) in after && after[(id, c)] == latest[(id, c)]
    ensures SeriesNotAfter(Trim(stored + new_), after, id, c)
  {
    var all := stored + new_;
    forall i | 0 <= i < |all| ensures (id, c) in after && all[i].time <= after[(id, c)] {
    }
  }

  datatype Request = Save(items: seq<PodRawMetrics>) | Query(id: Uid, time: int, window: int)

  function Next(db: Db, r: Request): Db {
    match r
    case Save(items) => SavedAll(db, items).0
    case Query(id, time, window) => Queried(db, id, time, window)
  }

  function AfterAll(items: seq<PodRawMetrics>, latest: Latest): Latest {
    if items == [] then latest else AfterAll(items[1..], After(items[0], latest))
  }

  predicate ItemsInOrder(items: seq<PodRawMetrics>, latest: Latest) {
    items != [] ==> InOrder(items[0], latest) && ItemsInOrder(items[1..], After(items[0], latest))
  }

  /** The database and the latest saved times after a run of requests. */
  function DbAfter(requests: seq<Request>): Db {
    if requests == [] then map[] else Next(DbAfter(requests[..|requests| - 1]), requests[|requests| - 1])
  }

  function LatestAfter(requests: seq<Request>): Latest {
    if requests == [] then map[]
    else
      var before, last := LatestAfter(requests[..|requests| - 1]), requests[|requests| - 1];
      if last.Save? then AfterAll(last.items, before) else before
  }

  /** Saved batches come in time order; windows are not negative. */
  predicate Orderly(requests: seq<Request>) {
    forall k :: 0 <= k < |requests| ==> OrderlyAt(requests[k], LatestAfter(requests[..k]))
  }

  predicate OrderlyAt(r: Request, latest: Latest) {
    match r
    case Save(items) => ItemsInOrder(items, latest)
    case Query(_, _, window) => window >= 0
  }

  lemma LatestOnlyGrows(p: PodRawMetrics, latest: Latest)
    requires InOrder(p, latest)
    ensures forall k :: k in latest ==> k in After(p, latest) && latest[k] <= After(p, latest)[k]
  {
    forall c | c in Containers(p.infos) && Containers(p.infos)[c] != [] && (p.uid, c) in latest
      ensures latest[(p.uid, c)] <= After(p, latest)[(p.uid, c)]
    {
      var s := Containers(p.infos)[c];
      assert s[0].time <= s[|s| - 1].time;
    }
  }

  lemma LatestGrowsAll(items: seq<PodRawMetrics>, latest: Latest)
    requires ItemsInOrder(items, latest)
    ensures forall k :: k in latest ==> k in AfterAll(items, latest) && latest[k] <= AfterAll(items, latest)[k]
  {
    if items != [] {
      LatestOnlyGrows(items[0], latest);
      LatestGrowsAll(items[1..], After(items[0], latest));
    }
  }

  lemma WeakerLatest(db: Db, a: Latest, b: Latest)
    requires NotAfter(db, a) && forall k :: k in a ==> k in b && a[k] <= b[k]
    ensures NotAfter(db, b)
  {
    forall id, c | id in db && c in Containers(db[id]) ensures SeriesNotAfter(Containers(db[id])[c], b, id, c) {
      assert SeriesNotAfter(Containers(db[id])[c], a, id, c);
    }
  }

  lemma {:induction false} SavesKeepBounded(db: Db, items: seq<PodRawMetrics>, latest: Latest)
    requires Bounded(db) && NotAfter(db, latest) && ItemsInOrder(items, latest)
    ensures Bounded(SavedAll(db, items).0) && NotAfter(SavedAll(db, items).0, AfterAll(items, latest))
    decreases |items|
  {
    if items != [] {
      if SavedOne(db, items[0]).Some? {
        SaveKeepsBounded(db, items[0], latest);
        SavesKeepBounded(SavedOne(db, items[0]).value, items[1..], After(items[0], latest));
      } else {
        LatestGrowsAll(items, latest);
        WeakerLatest(db, latest, AfterAll(items, latest));
      }
    }
  }

  lemma QueryKeepsBounded(db: Db, id: Uid, time: int, window: int, latest: Latest)
    requires Bounded(db) && NotAfter(db, latest)
    ensures Bounded(Queried(db, id, time, window)) && NotAfter(Queried(db, id, time, window), latest)
  {
    var db' := Queried(db, id, time, window);
    forall i, c | i in db' && c in Containers(db'[i]) ensures Fine(Containers(db'[i])[c], latest, i, c) {
      QueriedIsFine(db, id, time, window, latest, i, c);
    }
  }

  lemma QueriedIsFine(db: Db, id: Uid, time: int, window: int, latest: Latest, i: Uid, c: string)
    requires Bounded(db) && NotAfter(db, latest)
    requires i in Queried(db, id, time, window) && c in Containers(Queried(db, id, time, window)[i])
    ensures Fine(Containers(Queried(db, id, time, window)[i])[c], latest, i, c)
  {
    StoredIsFine(db, latest, i, c);
    QueriedLookup(db, id, time, window, i, c);
    QueriedSeries(StoredSeries(db, i, c), time - window * SECOND, time, latest, i, c);
  }

  lemma QueriedLookup(db: Db, id: Uid, time: int, window: int, i: Uid, c: string)
    requires i in Queried(db, id, time, window) && c in Containers(Queried(db, id, time, window)[i])
    ensures Containers(Queried(db, id, time, window)[i])[c] ==
              if i == id then InWindow(StoredSeries(db, i, c), time - window * SECOND, time) else StoredSeries(db, i, c)
  {
  }

  lemma QueriedSeries(s: Series, lo: int, hi: int, latest: Latest, id: Uid, c: string)
    requires Fine(s, latest, id, c)
    ensures Fine(InWindow(s, lo, hi), latest, id, c)
  {
    InWindowKeeps(s, lo, hi);
    var w := InWindow(s, lo, hi);
    forall i | 0 <= i < |w| ensures s != [] && w[i].time <= latest[(id, c)] {
      assert w[i] in w;
      var k :| 0 <= k < |s| && s[k] == w[i];
    }
  }

  /** Over any interleaving of saves in time order and queries, every series stays sorted and at most sixty long. */
  lemma {:induction false} SeriesStayBounded(requests: seq<Request>)
    requires Orderly(requests)
    ensures Bounded(DbAfter(requests)) && NotAfter(DbAfter(requests), LatestAfter(requests))
    decreases |requests|
  {
    if requests != [] {
      var n := |requests| - 1;
      OrderlyPrefix(requests);
      SeriesStayBounded(requests[..n]);
      match requests[n]
      case Save(items) => SavesKeepBounded(DbAfter(requests[..n]), items, LatestAfter(requests[..n]));
      case Query(id, time, window) => QueryKeepsBounded(DbAfter(requests[..n]), id, time, window, LatestAfter(requests[..n]));
    }
  }

  lemma OrderlyPrefix(requests: seq<Request>)
    requires Orderly(requests) && requests != []
    ensures Orderly(requests[..|requests| - 1])
    ensures OrderlyAt(requests[|requests| - 1], LatestAfter(requests[..|requests| - 1]))
  {
    var rest := requests[..|requests| - 1];
    forall k | 0 <= k < |rest| ensures OrderlyAt(rest[k], LatestAfter(rest[..k])) {
      assert rest[..k] == requests[..k];
    }
  }

  /**
    In every such run a query answers, for exactly the stored containers, the sorted stretch of samples with time
    in (t - n, t], and never panics.
  */
  lemma QueryReturnsWindow(requests: seq<Request>, id: Uid, time: int, window: int)
    requires Orderly(requests) && window >= 0
    ensures var db, answer := DbAfter(requests), AnswerOf(DbAfter(requests), id, time, window);
            && !answer.Panic? && SortedFor(db, id)
            && (answer.Metrics? <==> id in db && Containers(db[id]) != map[])
            && (answer.Metrics? ==>
                  && answer.infos.Keys == Containers(db[id]).Keys
                  && forall c :: c in answer.infos ==>
                       IsWindow(Containers(db[id])[c], answer.infos[c], time - window * SECOND, time))
  {
    SeriesStayBounded(requests);
    var db := DbAfter(requests);
    if id in db {
      forall c | c in Containers(db[id])
        ensures IsWindow(Containers(db[id])[c], InWindow(Containers(db[id])[c], time - window * SECOND, time), time - window * SECOND, time)
      {
        SortedHasWindow(Containers(db[id])[c], time - window * SECOND, time);
      }
    }
  }

  /** What the queries of a run answer, in order. */
  function Answers(requests: seq<Request>): seq<Answer> {
    if requests == [] then []
    else
      var before, last := requests[..|requests| - 1], requests[|requests| - 1];
      Answers(before) + if last.Query? then [AnswerOf(DbAfter(before), last.id, last.time, last.window)] else []
  }

  /** The store serves any orderly run of requests. */
  method Serve(requests: seq<Request>) returns (db: MetricsDb, answers: seq<Answer>)
    requires Orderly(requests)
    ensures db.metrics == DbAfter(requests) && answers == Answers(requests) && Panic !in answers
  {
    db := new MetricsDb();
    answers := [];
    for i := 0 to |requests|
      invariant db.metrics == DbAfter(requests[..i]) && answers == Answers(requests[..i]) && Panic !in answers
    {
      assert requests[..i + 1][..i] == requests[..i];
      match requests[i] {
        case Save(items) =>
          var _ := db.SavePodMetrics(items);
        case Query(id, time, window) =>
          RunIsSorted(requests, i, id);
          var answer := db.GetPodMetrics(id, time, window);
          answers := answers + [answer];
      }
    }
    assert requests[..|requests|] == requests;
  }

  lemma RunIsSorted(requests: seq<Request>, i: nat, id: Uid)
    requires Orderly(requests) && i < |requests|
    ensures SortedFor(DbAfter(requests[..i]), id) && OrderlyAt(requests[i], LatestAfter(requests[..i]))
  {
    var before := requests[..i];
    forall k | 0 <= k < |before| ensures OrderlyAt(before[k], LatestAfter(before[..k])) {
      assert before[..k] == requests[..k];
    }
    SeriesStayBounded(before);
  }

  // ---------------------------------------------------------------------------
  // Which samples are kept
  // ---------------------------------------------------------------------------

  /** The samples a batch brings for one container of one pod, in order. */
  function SamplesIn(items: seq<PodRawMetrics>, id: Uid, c: string): Series {
    if items == [] then []
    else
      (if items[0].uid == id && items[0].infos.Some? && c in items[0].infos.value then items[0].infos.value[c] else []) +
      SamplesIn(items[1..], id, c)
  }

  /** All samples ever saved for it, in order. */
  function EverSaved(requests: seq<Request>, id: Uid, c: string): Series {
    if requests == [] then []
    else
      var last := requests[|requests| - 1];
      EverSaved(requests[..|requests| - 1], id, c) + if last.Save? then SamplesIn(last.items, id, c) else []
  }

  function LatestSixty(s: Series): Series {
    if |s| <= 60 then s else s[|s| - 60..]
  }

  /** Every item brings a map, and nobody asks for the pod. */
  predicate OnlySaves(requests: seq<Request>, id: Uid) {
    forall r :: r in requests ==> if r.Save? then forall p :: p in r.items ==> p.infos.Some? else r.id != id
  }

  predicate NoNil(db: Db) {
    forall id :: id in db ==> db[id].Some?
  }

  lemma LatestOfLatest(a: Series, b: Series)
    ensures LatestSixty(LatestSixty(a) + b) == LatestSixty(a + b)
  {
  }

  lemma SaveOneKeeps(db: Db, p: PodRawMetrics, id: Uid, c: string)
    requires NoNil(db) && p.infos.Some? && |StoredSeries(db, id, c)| <= 60
    ensures SavedOne(db, p).Some? && NoNil(SavedOne(db, p).value)
    ensures StoredSeries(SavedOne(db, p).value, id, c) == LatestSixty(StoredSeries(db, id, c) + SamplesIn([p], id, c))
  {
    var stored := StoredSeries(db, id, c);
    assert stored + [] == stored;
    SamplesOfOne(p, id, c);
    SavedSame(db, p, id, c);
  }

  lemma SamplesOfOne(p: PodRawMetrics, id: Uid, c: string)
    requires p.infos.Some?
    ensures SamplesIn([p], id, c) == if p.uid == id && c in p.infos.value then p.infos.value[c] else []
  {
    assert [p][1..] == [];
  }

  lemma SavedSame(db: Db, p: PodRawMetrics, id: Uid, c: string)
    requires NoNil(db) && p.infos.Some?
    ensures SavedOne(db, p).Some? && NoNil(SavedOne(db, p).value)
    ensures StoredSeries(SavedOne(db, p).value, id, c) ==
              if p.uid == id && c in p.infos.value then Trim(StoredSeries(db, id, c) + p.infos.value[c]) else StoredSeries(db, id, c)
  {
    if id in SavedOne(db, p).value && c in Containers(SavedOne(db, p).value[id]) {
      SavedLookup(db, p, id, c);
    }
  }

  lemma {:induction false} SaveAllKeeps(db: Db, items: seq<PodRawMetrics>, id: Uid, c: string)
    requires NoNil(db) && (forall p :: p in items ==> p.infos.Some?) && |StoredSeries(db, id, c)| <= 60
    ensures NoNil(SavedAll(db, items).0) && !SavedAll(db, items).1
    ensures StoredSeries(SavedAll(db, items).0, id, c) == LatestSixty(StoredSeries(db, id, c) + SamplesIn(items, id, c))
    decreases |items|
  {
    var stored := StoredSeries(db, id, c);
    if items == [] {
      assert stored + [] == stored;
    } else {
      SaveOneKeeps(db, items[0], id, c);
      SaveAllKeeps(SavedOne(db, items[0]).value, items[1..], id, c);
      FirstSamples(items, id, c);
      ThreeRuns(stored, SamplesIn([items[0]], id, c), SamplesIn(items[1..], id, c));
    }
  }

  lemma FirstSamples(items: seq<PodRawMetrics>, id: Uid, c: string)
    requires items != []
    ensures SamplesIn(items, id, c) == SamplesIn([items[0]], id, c) + SamplesIn(items[1..], id, c)
  {
    assert [items[0]][1..] == [] && SamplesIn([], id, c) == [];
  }

  lemma ThreeRuns(a: Series, b: Series, d: Series)
    ensures LatestSixty(LatestSixty(a + b) + d) == LatestSixty(a + (b + d))
  {
    LatestOfLatest(a + b, d);
    assert a + b + d == a + (b + d);
  }

  lemma QueryKeepsOthers(db: Db, q: Uid, time: int, window: int, id: Uid, c: string)
    requires q != id && NoNil(db)
    ensures NoNil(Queried(db, q, time, window)) && StoredSeries(Queried(db, q, time, window), id, c) == StoredSeries(db, id, c)
  {
  }

  /**
    Until a pod is first asked for, the store holds for each of its containers exactly the latest sixty of all
    samples that were ever saved, whatever order they came in.
  */
  lemma {:induction false} SavesKeepLatest(requests: seq<Request>, id: Uid, c: string)
    requires OnlySaves(requests, id)
    ensures NoNil(DbAfter(requests))
    ensures StoredSeries(DbAfter(requests), id, c) == LatestSixty(EverSaved(requests, id, c))
    decreases |requests|
  {
    if requests != [] {
      var n := |requests| - 1;
      var before, last := requests[..n], requests[n];
      SavesKeepLatest(before, id, c);
      assert last in requests;
      match last
      case Save(items) =>
        SaveAllKeeps(DbAfter(before), items, id, c);
        LatestOfLatest(EverSaved(before, id, c), SamplesIn(items, id, c));
      case Query(q, time, window) =>
        QueryKeepsOthers(DbAfter(before), q, time, window, id, c);
        assert EverSaved(before, id, c) + [] == EverSaved(before, id, c);
    }
  }

  /**
    The first query for a pod, after saves in time order, answers for each container the stretch of its latest sixty
    samples with time in (t - n, t].
  */
  lemma FirstQueryAnswersLatest(requests: seq<Request>, id: Uid, time: int, window: int, c: string)
    requires Orderly(requests) && OnlySaves(requests, id) && window >= 0
    requires EverSaved(requests, id, c) != []
    ensures var answer := AnswerOf(DbAfter(requests), id, time, window);
            && answer.Metrics? && c in answer.infos
            && IsWindow(LatestSixty(EverSaved(requests, id, c)), answer.infos[c], time - window * 1_000_000_000, time)
  {
    SavesKeepLatest(requests, id, c);
    QueryReturnsWindow(requests, id, time, window);
  }
}
