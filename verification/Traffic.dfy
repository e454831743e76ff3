/** Integers of Go's type int32. */
module Int32 {
  const Max: int := 0x7fff_ffff
  const Min: int := -0x8000_0000

  /** The int32 congruent to x modulo 2^32. */
  function Wrap(x: int): (r: int)
    ensures Min <= r <= Max
    ensures Min <= x <= Max ==> r == x
  {
    (x + 0x8000_0000) % 0x1_0000_0000 - 0x8000_0000
  }

  ghost predicate Congruent(a: int, b: int) {
    exists k: int :: a == b + k * 0x1_0000_0000
  }

  lemma WrapCongruent(x: int)
    ensures Congruent(Wrap(x), x)
  {
    var k := (x + 0x8000_0000) / 0x1_0000_0000;
    assert Wrap(x) == x + (-k) * 0x1_0000_0000;
  }

  lemma CongruentWraps(a: int, b: int)
    requires Congruent(a, b)
    ensures Wrap(a) == Wrap(b)
  {
    var k :| a == b + k * 0x1_0000_0000;
    var x, y := a + 0x8000_0000, b + 0x8000_0000;
    var q, r := y / 0x1_0000_0000, y % 0x1_0000_0000;
    assert x == (q + k) * 0x1_0000_0000 + r;
  }

  lemma NonNegativeProduct(a: int, b: int)
    requires a >= 0 && b >= 0
    ensures a * b >= 0
  {
  }

  lemma WrapProduct(a: int, b: int)
    ensures Wrap(Wrap(a) * b) == Wrap(a * b)
  {
    WrapCongruent(a);
    var k :| Wrap(a) == a + k * 0x1_0000_0000;
    assert Wrap(a) * b == a * b + (k * b) * 0x1_0000_0000 by {
      assert (a + k * 0x1_0000_0000) * b == a * b + k * 0x1_0000_0000 * b;
    }
    CongruentWraps(Wrap(a) * b, a * b);
  }

  lemma WrapSum(a: int, b: int)
    ensures Wrap(Wrap(a) + b) == Wrap(a + b) && Wrap(a + Wrap(b)) == Wrap(a + b)
  {
    WrapCongruent(a);
    var k :| Wrap(a) == a + k * 0x1_0000_0000;
    CongruentWraps(Wrap(a) + b, a + b);
    WrapCongruent(b);
    var m :| Wrap(b) == b + m * 0x1_0000_0000;
    CongruentWraps(a + Wrap(b), a + b);
  }
}

/** How a subset's weight becomes its share of the traffic (pkg/microservice/pilot/pilot.go, pkg/microservice/envoy/envoy.go). */
module Traffic {
  import opened Wrappers
  import Int32

  datatype SingleEndpoint = SingleEndpoint(ip: string, targetPort: int)

  datatype SidecarEndpoints = SidecarEndpoints(weight: Option<int>, url: Option<string>, endpoints: seq<SingleEndpoint>)

  // ---------------------------------------------------------------------------
  // Pilot: one integer weight per pod
  // ---------------------------------------------------------------------------

  /** The product of the first n sizes that are not zero, leaving out index `skip`. */
  function Product(sizes: seq<int>, skip: int, n: nat): int
    requires n <= |sizes|
  {
    if n == 0 then 1
    else if n - 1 == skip || sizes[n - 1] == 0 then Product(sizes, skip, n - 1)
    else Product(sizes, skip, n - 1) * sizes[n - 1]
  }

  function RealWeight(weights: seq<int>, sizes: seq<int>, i: nat): int
    requires i < |weights|
  {
    weights[i] * Product(sizes, i, |sizes|)
  }

  /** Each weight times the other sizes, in int32 arithmetic: the true product modulo 2^32. */
  method Calculate(vsToSbsWeight: seq<int>, sbsToPodNum: seq<int>) returns (result: seq<int>)
    requires forall i :: 0 <= i < |vsToSbsWeight| ==> Int32.Min <= vsToSbsWeight[i] <= Int32.Max
    ensures |result| == |vsToSbsWeight|
    ensures forall i :: 0 <= i < |result| ==> result[i] == Int32.Wrap(RealWeight(vsToSbsWeight, sbsToPodNum, i))
  {
    result := [];
    for i := 0 to |vsToSbsWeight|
      invariant |result| == i
      invariant forall k :: 0 <= k < i ==> result[k] == Int32.Wrap(RealWeight(vsToSbsWeight, sbsToPodNum, k))
    {
      var temp := vsToSbsWeight[i];
      for j := 0 to |sbsToPodNum|
        invariant temp == Int32.Wrap(vsToSbsWeight[i] * Product(sbsToPodNum, i, j))
      {
        if i != j && sbsToPodNum[j] != 0 {
          var p := vsToSbsWeight[i] * Product(sbsToPodNum, i, j);
          Int32.WrapProduct(p, sbsToPodNum[j]);
          Reassociate(vsToSbsWeight[i], Product(sbsToPodNum, i, j), sbsToPodNum[j]);
          temp := Int32.Wrap(temp * sbsToPodNum[j]);
        }
      }
      result := result + [temp];
    }
  }

  lemma Reassociate(a: int, b: int, c: int)
    ensures a * b * c == a * (b * c)
  {
  }

  /** A nonempty subset's weight times its size is its configured weight times the product of all sizes. */
  lemma {:induction false} ProductSplits(sizes: seq<int>, i: nat, n: nat)
    requires i < n <= |sizes| && sizes[i] != 0
    ensures Product(sizes, i, n) * sizes[i] == Product(sizes, -1, n)
  {
    if n - 1 == i {
      ProductBefore(sizes, i, i);
    } else {
      ProductSplits(sizes, i, n - 1);
      if sizes[n - 1] != 0 {
        Swap(Product(sizes, i, n - 1), sizes[n - 1], sizes[i]);
      }
    }
  }

  lemma {:induction false} ProductBefore(sizes: seq<int>, i: nat, n: nat)
    requires n <= i && n <= |sizes|
    ensures Product(sizes, i, n) == Product(sizes, -1, n)
  {
    if n > 0 { ProductBefore(sizes, i, n - 1); }
  }

  lemma Swap(a: int, b: int, c: int)
    ensures a * b * c == a * c * b
  {
  }

  lemma {:induction false} ProductPositive(sizes: seq<int>, skip: int, n: nat)
    requires n <= |sizes| && forall k :: 0 <= k < n ==> sizes[k] >= 0
    ensures Product(sizes, skip, n) >= 1
  {
    if n > 0 { ProductPositive(sizes, skip, n - 1); }
  }

  // ---------------------------------------------------------------------------
  // Envoy: draw a number and scan
  // ---------------------------------------------------------------------------

  datatype Slot = Slot(group: nat, index: nat, weight: int)

  datatype Outcome = Destination(endpoint: SingleEndpoint) | WeightNotSet | NoEndpoint | Panic

  function WeightOf(e: SidecarEndpoints): int {
    if e.weight.Some? then e.weight.value else 0
  }

  function GroupSlots(group: nat, weight: int, n: nat): (s: seq<Slot>)
    ensures |s| == n && forall k :: 0 <= k < n ==> s[k] == Slot(group, k, weight)
  {
    seq(n, (k: nat) => Slot(group, k, weight))
  }

  /** The endpoints in the order of the scan. */
  function Slots(endpoints: seq<SidecarEndpoints>): seq<Slot> {
    if endpoints == [] then []
    else
      var n := |endpoints| - 1;
      Slots(endpoints[..n]) + GroupSlots(n, WeightOf(endpoints[n]), |endpoints[n].endpoints|)
  }

  /** What is left of the draw before slot s, in int32 arithmetic. */
  function Remaining(slots: seq<Slot>, draw: int, s: nat): int
    requires s <= |slots|
  {
    if s == 0 then draw else Int32.Wrap(Remaining(slots, draw, s - 1) - slots[s - 1].weight)
  }

  /** The scan goes on past slot q. */
  predicate Passes(slots: seq<Slot>, draw: int, q: nat)
    requires q < |slots|
  {
    Remaining(slots, draw, q) >= slots[q].weight
  }

  ghost predicate Hits(slots: seq<Slot>, draw: int, s: nat) {
    && s < |slots|
    && !Passes(slots, draw, s)
    && forall q :: 0 <= q < s ==> Passes(slots, draw, q)
  }

  ghost predicate Misses(slots: seq<Slot>, draw: int) {
    forall q :: 0 <= q < |slots| ==> Passes(slots, draw, q)
  }

  function TotalWeight(endpoints: seq<SidecarEndpoints>): int {
    if endpoints == [] then 0
    else
      var n := |endpoints| - 1;
      TotalWeight(endpoints[..n]) + WeightOf(endpoints[n]) * |endpoints[n].endpoints|
  }

  predicate AllWeighted(endpoints: seq<SidecarEndpoints>) {
    forall e :: e in endpoints ==> e.weight.Some?
  }

  lemma {:induction false} SlotsPrefix(endpoints: seq<SidecarEndpoints>, i: nat)
    requires i <= |endpoints|
    ensures Slots(endpoints[..i]) <= Slots(endpoints)
    decreases |endpoints|
  {
    if i == |endpoints| {
      assert endpoints[..i] == endpoints;
    } else {
      var n := |endpoints| - 1;
      SlotsPrefix(endpoints[..n], i);
      assert endpoints[..n][..i] == endpoints[..i];
    }
  }

  lemma SlotsAt(endpoints: seq<SidecarEndpoints>, i: nat, k: nat)
    requires i < |endpoints| && k < |endpoints[i].endpoints|
    ensures |Slots(endpoints[..i])| + k < |Slots(endpoints)|
    ensures Slots(endpoints)[|Slots(endpoints[..i])| + k] == Slot(i, k, WeightOf(endpoints[i]))
    ensures |Slots(endpoints[..i + 1])| == |Slots(endpoints[..i])| + |endpoints[i].endpoints|
  {
    SlotsPrefix(endpoints, i + 1);
    assert endpoints[..i + 1][..i] == endpoints[..i];
  }

  /** The draw is rand.Intn's result, which exists only for a positive bound; Intn panics otherwise. */
  method GetDestinationWithWeight(endpoints: seq<SidecarEndpoints>, draw: int) returns (outcome: Outcome, ghost slot: nat)
    requires forall e :: e in endpoints && e.weight.Some? ==> Int32.Min <= e.weight.value <= Int32.Max
    requires AllWeighted(endpoints) && Int32.Wrap(TotalWeight(endpoints)) > 0 ==>
               0 <= draw < Int32.Wrap(TotalWeight(endpoints))
    ensures outcome.WeightNotSet? <==> !AllWeighted(endpoints)
    ensures outcome.Panic? <==> AllWeighted(endpoints) && Int32.Wrap(TotalWeight(endpoints)) <= 0
    ensures outcome.NoEndpoint? ==> Misses(Slots(endpoints), draw)
    ensures outcome.Destination? ==>
              && Hits(Slots(endpoints), draw, slot)
              && var s := Slots(endpoints)[slot];
                 && s.group < |endpoints| && s.index < |endpoints[s.group].endpoints|
                 && outcome.endpoint == endpoints[s.group].endpoints[s.index]
  {
    slot := 0;
    var totalWeight := SumWeights(endpoints);
    if totalWeight.None? {
      return WeightNotSet, 0;
    }
    if totalWeight.value <= 0 {
      return Panic, 0;
    }
    outcome, slot := ScanWeights(endpoints, draw);
  }

  /** The first loop: the total in int32 arithmetic, or the error for a missing weight. */
  method SumWeights(endpoints: seq<SidecarEndpoints>) returns (total: Option<int>)
    ensures total == if AllWeighted(endpoints) then Some(Int32.Wrap(TotalWeight(endpoints))) else None
  {
    var totalWeight := 0;
    for i := 0 to |endpoints|
      invariant AllWeighted(endpoints[..i])
      invariant totalWeight == Int32.Wrap(TotalWeight(endpoints[..i]))
    {
      if endpoints[i].weight.None? {
        return None;
      }
      TotalStep(endpoints, i);
      assert endpoints[..i + 1] == endpoints[..i] + [endpoints[i]];
      totalWeight := Int32.Wrap(totalWeight + Int32.Wrap(endpoints[i].weight.value * |endpoints[i].endpoints|));
    }
    assert endpoints[..|endpoints|] == endpoints;
    return Some(totalWeight);
  }

  lemma TotalStep(endpoints: seq<SidecarEndpoints>, i: nat)
    requires i < |endpoints|
    ensures Int32.Wrap(Int32.Wrap(TotalWeight(endpoints[..i])) + Int32.Wrap(WeightOf(endpoints[i]) * |endpoints[i].endpoints|)) ==
            Int32.Wrap(TotalWeight(endpoints[..i + 1]))
  {
    var more := WeightOf(endpoints[i]) * |endpoints[i].endpoints|;
    Int32.WrapSum(TotalWeight(endpoints[..i]), Int32.Wrap(more));
    Int32.WrapSum(TotalWeight(endpoints[..i]), more);
    assert endpoints[..i + 1][..i] == endpoints[..i];
  }

  /** The second loop. */
  method ScanWeights(endpoints: seq<SidecarEndpoints>, draw: int) returns (outcome: Outcome, ghost slot: nat)
    requires AllWeighted(endpoints)
    ensures outcome.NoEndpoint? || outcome.Destination?
    ensures outcome.NoEndpoint? ==> Misses(Slots(endpoints), draw)
    ensures outcome.Destination? ==>
              && Hits(Slots(endpoints), draw, slot)
              && var s := Slots(endpoints)[slot];
                 && s.group < |endpoints| && s.index < |endpoints[s.group].endpoints|
                 && outcome.endpoint == endpoints[s.group].endpoints[s.index]
  {
    var randWeight := draw;
    ghost var slots := Slots(endpoints);
    slot := 0;
    for i := 0 to |endpoints|
      invariant slot == |Slots(endpoints[..i])| <= |slots|
      invariant randWeight == Remaining(slots, draw, slot)
      invariant forall q :: 0 <= q < slot ==> Passes(slots, draw, q)
    {
      for k := 0 to |endpoints[i].endpoints|
        invariant slot == |Slots(endpoints[..i])| + k <= |slots|
        invariant randWeight == Remaining(slots, draw, slot)
        invariant forall q :: 0 <= q < slot ==> Passes(slots, draw, q)
      {
        SlotsAt(endpoints, i, k);
        assert endpoints[i] in endpoints;
        if randWeight < endpoints[i].weight.value {
          return Destination(endpoints[i].endpoints[k]), slot;
        }
        randWeight := Int32.Wrap(randWeight - endpoints[i].weight.value);
        slot := slot + 1;
      }
      assert endpoints[..i + 1][..i] == endpoints[..i];
      SlotsPrefix(endpoints, i + 1);
    }
    assert endpoints[..|endpoints|] == endpoints;
    return NoEndpoint, 0;
  }

  // ---------------------------------------------------------------------------
  // Which draws hit which slot
  // ---------------------------------------------------------------------------

  function Sum(slots: seq<Slot>, s: nat): int
    requires s <= |slots|
  {
    if s == 0 then 0 else Sum(slots, s - 1) + slots[s - 1].weight
  }

  predicate NonNegative(slots: seq<Slot>) {
    forall q :: 0 <= q < |slots| ==> slots[q].weight >= 0
  }

  lemma {:induction false} SumGrows(slots: seq<Slot>, a: nat, b: nat)
    requires NonNegative(slots) && a <= b <= |slots|
    ensures 0 <= Sum(slots, a) <= Sum(slots, b)
    decreases b
  {
    if a < b {
      SumGrows(slots, a, b - 1);
    } else if a > 0 {
      SumGrows(slots, a - 1, a - 1);
    }
  }

  /** While nothing was hit, what remains of the draw is the draw less the weights passed. */
  lemma {:induction false} RemainingIs(slots: seq<Slot>, draw: int, s: nat)
    requires NonNegative(slots) && s <= |slots| && 0 <= draw <= Int32.Max
    requires Sum(slots, s) <= draw
    ensures Remaining(slots, draw, s) == draw - Sum(slots, s)
    ensures forall q :: 0 <= q < s ==> Passes(slots, draw, q)
  {
    if s > 0 {
      SumGrows(slots, s - 1, s);
      RemainingIs(slots, draw, s - 1);
    }
  }

  /** A draw hits slot s exactly when it lies in that slot's interval. */
  lemma HitsIffInInterval(slots: seq<Slot>, draw: int, s: nat)
    requires NonNegative(slots) && s < |slots| && 0 <= draw <= Int32.Max
    ensures Hits(slots, draw, s) <==> Sum(slots, s) <= draw < Sum(slots, s + 1)
  {
    if Sum(slots, s) <= draw {
      RemainingIs(slots, draw, s);
    } else {
      var q := FirstPast(slots, draw, s);
      RemainingIs(slots, draw, q);
      assert !Passes(slots, draw, q);
    }
  }

  /** The slot before s whose interval ends past the draw while starting at or before it. */
  lemma {:induction false} FirstPast(slots: seq<Slot>, draw: int, s: nat) returns (q: nat)
    requires s <= |slots| && 0 <= draw < Sum(slots, s)
    ensures q < s && Sum(slots, q) <= draw < Sum(slots, q + 1)
  {
    if Sum(slots, s - 1) <= draw {
      q := s - 1;
    } else {
      q := FirstPast(slots, draw, s - 1);
    }
  }

  /** With a positive total every draw finds a destination. */
  lemma EveryDrawHits(slots: seq<Slot>, draw: int) returns (s: nat)
    requires NonNegative(slots) && 0 <= draw < Sum(slots, |slots|) <= Int32.Max
    ensures Hits(slots, draw, s) && !Misses(slots, draw)
  {
    s := FirstPast(slots, draw, |slots|);
    HitsIffInInterval(slots, draw, s);
  }

  function Interval(lo: int, hi: int): set<int>
    decreases hi - lo
  {
    if lo >= hi then {} else Interval(lo, hi - 1) + {hi - 1}
  }

  lemma {:induction false} IntervalIs(lo: int, hi: int)
    requires lo <= hi
    ensures forall d :: d in Interval(lo, hi) <==> lo <= d < hi
    ensures |Interval(lo, hi)| == hi - lo
    decreases hi - lo
  {
    if lo < hi { IntervalIs(lo, hi - 1); }
  }

  /** The draws below the total that land in one of the slots a, ..., b-1. */
  ghost function Landing(slots: seq<Slot>, a: nat, b: nat): set<int>
    requires a <= b <= |slots|
  {
    set d | d in Interval(0, Sum(slots, |slots|)) && LandsIn(slots, d, a, b)
  }

  ghost predicate LandsIn(slots: seq<Slot>, draw: int, a: nat, b: nat) {
    exists s :: a <= s < b && Hits(slots, draw, s)
  }

  lemma LandsIffInInterval(slots: seq<Slot>, d: int, a: nat, b: nat)
    requires NonNegative(slots) && a <= b <= |slots| && 0 <= d <= Int32.Max
    ensures LandsIn(slots, d, a, b) <==> Sum(slots, a) <= d < Sum(slots, b)
  {
    if Sum(slots, a) <= d < Sum(slots, b) {
      SumGrows(slots, a, b);
      var s := FirstPast(slots, d, b);
      if s < a { SumGrows(slots, s + 1, a); }
      HitsIffInInterval(slots, d, s);
    }
    if s :| a <= s < b && Hits(slots, d, s) {
      HitsIffInInterval(slots, d, s);
      SumGrows(slots, a, s);
      SumGrows(slots, s + 1, b);
    }
  }

  lemma LandingIsInterval(slots: seq<Slot>, a: nat, b: nat)
    requires NonNegative(slots) && a <= b <= |slots| && Sum(slots, |slots|) <= Int32.Max
    ensures Landing(slots, a, b) == Interval(Sum(slots, a), Sum(slots, b))
    ensures |Landing(slots, a, b)| == Sum(slots, b) - Sum(slots, a)
  {
    var total := Sum(slots, |slots|);
    SumGrows(slots, a, b);
    SumGrows(slots, b, |slots|);
    IntervalIs(0, total);
    IntervalIs(Sum(slots, a), Sum(slots, b));
    forall d ensures d in Landing(slots, a, b) <==> d in Interval(Sum(slots, a), Sum(slots, b)) {
      if 0 <= d < total { LandsIffInInterval(slots, d, a, b); }
    }
  }

  // ---------------------------------------------------------------------------
  // Pilot and envoy together
  // ---------------------------------------------------------------------------

  /** The listed pods of a subset, each with the endpoints it has for the port: none while it does not run. */
  type Group = seq<seq<SingleEndpoint>>

  /** How many endpoints the pods of a subset have together. */
  function Count(pods: Group): nat {
    if pods == [] then 0 else Count(pods[..|pods| - 1]) + |pods[|pods| - 1]|
  }

  /** How many pods each subset lists. */
  function Sizes(groups: seq<Group>): (r: seq<int>)
    ensures |r| == |groups| && forall i :: 0 <= i < |r| ==> r[i] == |groups[i]|
  {
    seq(|groups|, i requires 0 <= i < |groups| => |groups[i]|)
  }

  function PodEntries(weight: int, pods: Group): (r: seq<SidecarEndpoints>)
    ensures |r| == |pods| && forall k :: 0 <= k < |r| ==> r[k] == SidecarEndpoints(Some(weight), None, pods[k])
  {
    seq(|pods|, k requires 0 <= k < |pods| => SidecarEndpoints(Some(weight), None, pods[k]))
  }

  /** What pilot publishes: per subset, per listed pod, the subset's computed weight and the pod's endpoints. */
  function Published(realWeights: seq<int>, groups: seq<Group>, n: nat): seq<SidecarEndpoints>
    requires n <= |groups| && n <= |realWeights|
  {
    if n == 0 then [] else Published(realWeights, groups, n - 1) + PodEntries(realWeights[n - 1], groups[n - 1])
  }

  /** The number of pods the first n subsets list. */
  function ListedBefore(groups: seq<Group>, n: nat): nat
    requires n <= |groups|
  {
    if n == 0 then 0 else ListedBefore(groups, n - 1) + |groups[n - 1]|
  }

  /** The number of endpoints in the first n subsets. */
  function Offset(groups: seq<Group>, n: nat): nat
    requires n <= |groups|
  {
    if n == 0 then 0 else Offset(groups, n - 1) + Count(groups[n - 1])
  }

  /** The weights of the endpoints in the first n subsets, together. */
  function Given(realWeights: seq<int>, groups: seq<Group>, n: nat): int
    requires n <= |groups| && n <= |realWeights|
  {
    if n == 0 then 0 else Given(realWeights, groups, n - 1) + realWeights[n - 1] * Count(groups[n - 1])
  }

  lemma AppendOne(a: seq<SidecarEndpoints>, e: SidecarEndpoints)
    ensures TotalWeight(a + [e]) == TotalWeight(a) + WeightOf(e) * |e.endpoints|
    ensures Slots(a + [e]) == Slots(a) + GroupSlots(|a|, WeightOf(e), |e.endpoints|)
  {
    assert (a + [e])[..|a|] == a;
  }

  lemma {:induction false} EntriesTotals(a: seq<SidecarEndpoints>, weight: int, pods: Group)
    ensures TotalWeight(a + PodEntries(weight, pods)) == TotalWeight(a) + weight * Count(pods)
    ensures |Slots(a + PodEntries(weight, pods))| == |Slots(a)| + Count(pods)
  {
    if pods == [] {
      assert a + PodEntries(weight, pods) == a;
    } else {
      var n := |pods| - 1;
      EntriesTotals(a, weight, pods[..n]);
      OneMoreEntry(a, weight, pods);
      Distribute(weight, Count(pods[..n]), |pods[n]|);
    }
  }

  lemma OneMoreEntry(a: seq<SidecarEndpoints>, weight: int, pods: Group)
    requires pods != []
    ensures var n := |pods| - 1;
            && TotalWeight(a + PodEntries(weight, pods)) == TotalWeight(a + PodEntries(weight, pods[..n])) + weight * |pods[n]|
            && |Slots(a + PodEntries(weight, pods))| == |Slots(a + PodEntries(weight, pods[..n]))| + |pods[n]|
  {
    var n := |pods| - 1;
    EntriesLast(a, weight, pods);
    AppendOne(a + PodEntries(weight, pods[..n]), SidecarEndpoints(Some(weight), None, pods[n]));
  }

  lemma EntriesLast(a: seq<SidecarEndpoints>, weight: int, pods: Group)
    requires pods != []
    ensures var n := |pods| - 1;
            a + PodEntries(weight, pods) == a + PodEntries(weight, pods[..n]) + [SidecarEndpoints(Some(weight), None, pods[n])]
  {
  }

  lemma Distribute(w: int, a: int, b: int)
    ensures w * (a + b) == w * a + w * b
  {
  }

  lemma {:induction false} PublishedTotals(realWeights: seq<int>, groups: seq<Group>, n: nat)
    requires n <= |groups| && n <= |realWeights|
    ensures |Published(realWeights, groups, n)| == ListedBefore(groups, n)
    ensures |Slots(Published(realWeights, groups, n))| == Offset(groups, n)
    ensures TotalWeight(Published(realWeights, groups, n)) == Given(realWeights, groups, n)
  {
    if n > 0 {
      PublishedTotals(realWeights, groups, n - 1);
      EntriesTotals(Published(realWeights, groups, n - 1), realWeights[n - 1], groups[n - 1]);
    }
  }

  lemma {:induction false} PublishedWeighted(realWeights: seq<int>, groups: seq<Group>, n: nat)
    requires n <= |groups| && n <= |realWeights|
    ensures AllWeighted(Published(realWeights, groups, n))
  {
    if n > 0 { PublishedWeighted(realWeights, groups, n - 1); }
  }

  lemma {:induction false} PublishedPrefix(realWeights: seq<int>, groups: seq<Group>, i: nat, n: nat)
    requires i <= n <= |groups| && n <= |realWeights|
    ensures Published(realWeights, groups, i) <= Published(realWeights, groups, n)
    decreases n
  {
    if i < n { PublishedPrefix(realWeights, groups, i, n - 1); }
  }

  /** The weights before an entry's first endpoint are those of the entries before it. */
  lemma SumAtEntry(list: seq<SidecarEndpoints>, g: nat)
    requires g <= |list|
    ensures |Slots(list[..g])| <= |Slots(list)|
    ensures Sum(Slots(list), |Slots(list[..g])|) == TotalWeight(list[..g])
  {
    SlotsPrefix(list, g);
    TotalIsSum(list[..g]);
    var a, b := Slots(list[..g]), Slots(list);
    assert a[..|a|] == b[..|a|];
    SumPrefix(a, b, |a|);
  }

  lemma SumAtSubset(realWeights: seq<int>, groups: seq<Group>, n: nat)
    requires |groups| == |realWeights| && n <= |groups|
    ensures Offset(groups, n) <= |Slots(Published(realWeights, groups, |groups|))|
    ensures Sum(Slots(Published(realWeights, groups, |groups|)), Offset(groups, n)) == Given(realWeights, groups, n)
  {
    var list, part := Published(realWeights, groups, |groups|), Published(realWeights, groups, n);
    PublishedPrefix(realWeights, groups, n, |groups|);
    PublishedTotals(realWeights, groups, n);
    assert list[..|part|] == part;
    SumAtEntry(list, |part|);
  }

  /** Endpoint e of pod k of subset i has the slot after all endpoints before it, with its subset's weight. */
  predicate EndpointSlot(realWeights: seq<int>, groups: seq<Group>, i: nat, k: nat, e: nat)
    requires |groups| == |realWeights| && i < |groups| && k < |groups[i]| && e < |groups[i][k]|
  {
    var list := Published(realWeights, groups, |groups|);
    var g, s := ListedBefore(groups, i) + k, Offset(groups, i) + Count(groups[i][..k]) + e;
    && g < |list| && s < |Slots(list)|
    && list[g] == SidecarEndpoints(Some(realWeights[i]), None, groups[i][k])
    && Slots(list)[s] == Slot(g, e, realWeights[i])
  }

  lemma EndpointHasSlot(realWeights: seq<int>, groups: seq<Group>, i: nat, k: nat, e: nat)
    requires |groups| == |realWeights| && i < |groups| && k < |groups[i]| && e < |groups[i][k]|
    ensures EndpointSlot(realWeights, groups, i, k, e)
  {
    PodHasEntry(realWeights, groups, i, k);
    SlotsAt(Published(realWeights, groups, |groups|), ListedBefore(groups, i) + k, e);
  }

  lemma PodHasEntry(realWeights: seq<int>, groups: seq<Group>, i: nat, k: nat)
    requires |groups| == |realWeights| && i < |groups| && k < |groups[i]|
    ensures var list, g := Published(realWeights, groups, |groups|), ListedBefore(groups, i) + k;
            && g < |list| && list[g] == SidecarEndpoints(Some(realWeights[i]), None, groups[i][k])
            && |Slots(list[..g])| == Offset(groups, i) + Count(groups[i][..k])
  {
    var list, before := Published(realWeights, groups, |groups|), Published(realWeights, groups, i);
    PublishedPrefix(realWeights, groups, i + 1, |groups|);
    PublishedTotals(realWeights, groups, i);
    EntryBefore(list, before, realWeights[i], groups[i], k);
    EntriesTotals(before, realWeights[i], groups[i][..k]);
  }

  lemma EntryBefore(list: seq<SidecarEndpoints>, before: seq<SidecarEndpoints>, weight: int, pods: Group, k: nat)
    requires before + PodEntries(weight, pods) <= list && k < |pods|
    ensures |before| + k < |list| && list[|before| + k] == SidecarEndpoints(Some(weight), None, pods[k])
    ensures list[..|before| + k] == before + PodEntries(weight, pods[..k])
  {
    var more := before + PodEntries(weight, pods);
    assert list[|before| + k] == more[|before| + k];
    assert list[..|before| + k] == more[..|before| + k];
  }

  // ---------------------------------------------------------------------------
  // The traffic share
  // ---------------------------------------------------------------------------

  /** A subset's share: its configured weight, times the other subsets' listed sizes, per endpoint. */
  function Share(weights: seq<int>, groups: seq<Group>, i: nat): int
    requires i < |groups| && i < |weights|
  {
    RealWeight(weights, Sizes(groups), i) * Count(groups[i])
  }

  /** The draws there are. */
  function TotalShare(weights: seq<int>, groups: seq<Group>, n: nat): int
    requires n <= |groups| && n <= |weights|
  {
    if n == 0 then 0 else TotalShare(weights, groups, n - 1) + Share(weights, groups, n - 1)
  }

  /** The computed weights, as int32 arithmetic leaves them. */
  predicate Computed(weights: seq<int>, groups: seq<Group>, realWeights: seq<int>) {
    && |realWeights| == |weights| == |groups|
    && forall i :: 0 <= i < |weights| ==> realWeights[i] == Int32.Wrap(RealWeight(weights, Sizes(groups), i))
  }

  predicate NoneNegative(weights: seq<int>) {
    forall k :: 0 <= k < |weights| ==> weights[k] >= 0
  }

  lemma ShareNonNegative(weights: seq<int>, groups: seq<Group>, i: nat)
    requires |weights| == |groups| && i < |groups| && NoneNegative(weights)
    ensures RealWeight(weights, Sizes(groups), i) >= 0 && Share(weights, groups, i) >= 0
    ensures weights[i] > 0 ==> RealWeight(weights, Sizes(groups), i) > 0
  {
    ProductPositive(Sizes(groups), i, |groups|);
    var p := Product(Sizes(groups), i, |groups|);
    Int32.NonNegativeProduct(weights[i], p);
    AtMostTimes(weights[i], p);
    Int32.NonNegativeProduct(RealWeight(weights, Sizes(groups), i), Count(groups[i]));
  }

  lemma {:induction false} TotalShareBounds(weights: seq<int>, groups: seq<Group>, i: nat, n: nat)
    requires |weights| == |groups| && n <= |groups| && NoneNegative(weights)
    ensures 0 <= TotalShare(weights, groups, n)
    ensures i < n ==> Share(weights, groups, i) <= TotalShare(weights, groups, n)
  {
    if n > 0 {
      TotalShareBounds(weights, groups, i, n - 1);
      ShareNonNegative(weights, groups, n - 1);
    }
  }

  lemma AtMostTimes(a: int, n: int)
    requires a >= 0 && n >= 1
    ensures a <= a * n
  {
    Int32.NonNegativeProduct(a, n - 1);
  }

  /** When the total fits an int32, the weight of a subset with endpoints did not wrap. */
  lemma SubsetShare(weights: seq<int>, groups: seq<Group>, realWeights: seq<int>, i: nat)
    requires Computed(weights, groups, realWeights) && i < |groups| && NoneNegative(weights)
    requires TotalShare(weights, groups, |groups|) <= Int32.Max
    ensures Count(groups[i]) > 0 ==> realWeights[i] == RealWeight(weights, Sizes(groups), i) >= 0
    ensures realWeights[i] * Count(groups[i]) == Share(weights, groups, i)
  {
    ShareNonNegative(weights, groups, i);
    TotalShareBounds(weights, groups, i, |groups|);
    DoesNotWrap(RealWeight(weights, Sizes(groups), i), Count(groups[i]), realWeights[i]);
  }

  lemma DoesNotWrap(r: int, n: nat, w: int)
    requires r >= 0 && r * n <= Int32.Max && w == Int32.Wrap(r)
    ensures n > 0 ==> w == r
    ensures w * n == r * n
  {
    if n > 0 { AtMostTimes(r, n); }
  }

  lemma {:induction false} GivenIsTotalShare(weights: seq<int>, groups: seq<Group>, realWeights: seq<int>, n: nat)
    requires Computed(weights, groups, realWeights) && n <= |groups| && NoneNegative(weights)
    requires TotalShare(weights, groups, |groups|) <= Int32.Max
    ensures Given(realWeights, groups, n) == TotalShare(weights, groups, n)
  {
    if n > 0 {
      GivenIsTotalShare(weights, groups, realWeights, n - 1);
      SubsetShare(weights, groups, realWeights, n - 1);
    }
  }

  /** Whoever has an endpoint has a weight that is not negative. */
  predicate WeightsFine(list: seq<SidecarEndpoints>) {
    forall x :: x in list && x.endpoints != [] ==> WeightOf(x) >= 0
  }

  lemma {:induction false} SlotsNonNegative(list: seq<SidecarEndpoints>)
    requires WeightsFine(list)
    ensures NonNegative(Slots(list))
  {
    if list != [] {
      var n := |list| - 1;
      assert forall x :: x in list[..n] ==> x in list;
      SlotsNonNegative(list[..n]);
      assert list[n] in list;
    }
  }

  lemma {:induction false} HasEndpoints(pods: Group, k: nat)
    requires k < |pods|
    ensures |pods[k]| <= Count(pods)
  {
    if k < |pods| - 1 { HasEndpoints(pods[..|pods| - 1], k); }
  }

  lemma {:induction false} PublishedFine(weights: seq<int>, groups: seq<Group>, realWeights: seq<int>, n: nat)
    requires Computed(weights, groups, realWeights) && n <= |groups| && NoneNegative(weights)
    requires TotalShare(weights, groups, |groups|) <= Int32.Max
    ensures WeightsFine(Published(realWeights, groups, n))
  {
    if n > 0 {
      PublishedFine(weights, groups, realWeights, n - 1);
      SubsetShare(weights, groups, realWeights, n - 1);
      EntriesFine(realWeights[n - 1], groups[n - 1]);
      FineAppend(Published(realWeights, groups, n - 1), PodEntries(realWeights[n - 1], groups[n - 1]));
    }
  }

  lemma FineAppend(a: seq<SidecarEndpoints>, b: seq<SidecarEndpoints>)
    requires WeightsFine(a) && WeightsFine(b)
    ensures WeightsFine(a + b)
  {
  }

  lemma EntriesFine(weight: int, pods: Group)
    requires Count(pods) > 0 ==> weight >= 0
    ensures WeightsFine(PodEntries(weight, pods))
  {
    forall k | 0 <= k < |pods| && pods[k] != [] ensures weight >= 0 {
      HasEndpoints(pods, k);
    }
  }

  lemma WeightsFit(weights: seq<int>, groups: seq<Group>, realWeights: seq<int>)
    requires Computed(weights, groups, realWeights) && NoneNegative(weights)
    requires TotalShare(weights, groups, |groups|) <= Int32.Max
    ensures var list := Published(realWeights, groups, |groups|);
            && NonNegative(Slots(list))
            && Sum(Slots(list), |Slots(list)|) == TotalWeight(list) == TotalShare(weights, groups, |groups|)
  {
    var list := Published(realWeights, groups, |groups|);
    PublishedFine(weights, groups, realWeights, |groups|);
    SlotsNonNegative(list);
    PublishedTotals(realWeights, groups, |groups|);
    GivenIsTotalShare(weights, groups, realWeights, |groups|);
    TotalIsSum(list);
  }

  /** Of all draws below the total, `share` land in subset i, `each` at each of its endpoints. */
  ghost predicate Receives(groups: seq<Group>, realWeights: seq<int>, i: nat, share: int, each: int)
    requires |realWeights| == |groups| && i < |groups|
  {
    var slots := Slots(Published(realWeights, groups, |groups|));
    var first := Offset(groups, i);
    && first + Count(groups[i]) <= |slots|
    && |Landing(slots, first, first + Count(groups[i]))| == share
    && forall k, e :: 0 <= k < |groups[i]| && 0 <= e < |groups[i][k]| ==>
         && EndpointSlot(realWeights, groups, i, k, e)
         && |Landing(slots, first + Count(groups[i][..k]) + e, first + Count(groups[i][..k]) + e + 1)| == each
  }

  /**
   * Whichever listed pods have endpoints: of all possible draws, a subset gets its weight times the other listed
   * sizes for each of its endpoints, and every endpoint the same.
   */
  lemma TrafficShare(weights: seq<int>, groups: seq<Group>, realWeights: seq<int>, i: nat)
    requires Computed(weights, groups, realWeights) && i < |groups| && NoneNegative(weights)
    requires TotalShare(weights, groups, |groups|) <= Int32.Max
    ensures TotalWeight(Published(realWeights, groups, |groups|)) == TotalShare(weights, groups, |groups|)
    ensures Receives(groups, realWeights, i, Share(weights, groups, i), RealWeight(weights, Sizes(groups), i))
  {
    WeightsFit(weights, groups, realWeights);
    SubsetShare(weights, groups, realWeights, i);
    SubsetReceives(groups, realWeights, i);
    forall k | 0 <= k < |groups[i]| && groups[i][k] != [] ensures Count(groups[i]) > 0 { HasEndpoints(groups[i], k); }
  }

  lemma SubsetReceives(groups: seq<Group>, realWeights: seq<int>, i: nat)
    requires |realWeights| == |groups| && i < |groups|
    requires var slots := Slots(Published(realWeights, groups, |groups|));
             NonNegative(slots) && Sum(slots, |slots|) <= Int32.Max
    ensures Receives(groups, realWeights, i, realWeights[i] * Count(groups[i]), realWeights[i])
  {
    SubsetLanding(groups, realWeights, i);
    forall k, e | 0 <= k < |groups[i]| && 0 <= e < |groups[i][k]|
      ensures EndpointSlot(realWeights, groups, i, k, e)
      ensures |Landing(Slots(Published(realWeights, groups, |groups|)), Offset(groups, i) + Count(groups[i][..k]) + e,
                       Offset(groups, i) + Count(groups[i][..k]) + e + 1)| == realWeights[i]
    {
      EndpointHasSlot(realWeights, groups, i, k, e);
      LandingOnSlot(Slots(Published(realWeights, groups, |groups|)), Offset(groups, i) + Count(groups[i][..k]) + e);
    }
  }

  /**
   * The share is the configured weight in proportion to the part of the listed pods' number that are endpoints; with
   * one endpoint each it is the weight times the product of all sizes.
   */
  lemma ShareIsProportional(weights: seq<int>, groups: seq<Group>, i: nat)
    requires |weights| == |groups| && i < |groups| && groups[i] != []
    ensures Share(weights, groups, i) * |groups[i]| == weights[i] * Product(Sizes(groups), -1, |groups|) * Count(groups[i])
    ensures Count(groups[i]) == |groups[i]| ==> Share(weights, groups, i) == weights[i] * Product(Sizes(groups), -1, |groups|)
  {
    var sizes := Sizes(groups);
    var p := Product(sizes, i, |groups|);
    ProductSplits(sizes, i, |groups|);
    Reassociate(weights[i], p, sizes[i]);
    Swap(weights[i] * p, Count(groups[i]), sizes[i]);
  }

  lemma LandingOnSlot(slots: seq<Slot>, s: nat)
    requires NonNegative(slots) && s < |slots| && Sum(slots, |slots|) <= Int32.Max
    ensures |Landing(slots, s, s + 1)| == slots[s].weight
  {
    SumGrows(slots, s, s + 1);
    LandingSize(slots, s, s + 1, slots[s].weight);
  }

  lemma LandingSize(slots: seq<Slot>, a: nat, b: nat, size: int)
    requires NonNegative(slots) && a <= b <= |slots| && Sum(slots, |slots|) <= Int32.Max
    requires Sum(slots, b) == Sum(slots, a) + size
    ensures |Landing(slots, a, b)| == size
  {
    LandingIsInterval(slots, a, b);
  }

  lemma SubsetLanding(groups: seq<Group>, realWeights: seq<int>, i: nat)
    requires |realWeights| == |groups| && i < |groups|
    requires var slots := Slots(Published(realWeights, groups, |groups|));
             NonNegative(slots) && Sum(slots, |slots|) <= Int32.Max
    ensures Offset(groups, i) + Count(groups[i]) <= |Slots(Published(realWeights, groups, |groups|))|
    ensures |Landing(Slots(Published(realWeights, groups, |groups|)), Offset(groups, i), Offset(groups, i) + Count(groups[i]))| ==
              realWeights[i] * Count(groups[i])
  {
    SumAtSubset(realWeights, groups, i);
    SumAtSubset(realWeights, groups, i + 1);
    LandingSize(Slots(Published(realWeights, groups, |groups|)), Offset(groups, i), Offset(groups, i + 1),
                realWeights[i] * Count(groups[i]));
  }

  /** Every draw below the total lands at exactly one endpoint, and never at one of a zero-weight subset. */
  lemma DrainedSubsetsGetNothing(weights: seq<int>, groups: seq<Group>, realWeights: seq<int>, i: nat, draw: int)
    requires Computed(weights, groups, realWeights) && i < |groups| && weights[i] == 0 && NoneNegative(weights)
    requires 0 <= draw < TotalShare(weights, groups, |groups|) <= Int32.Max
    ensures var slots := Slots(Published(realWeights, groups, |groups|));
            && !Misses(slots, draw)
            && Offset(groups, i) + Count(groups[i]) <= |slots|
            && !LandsIn(slots, draw, Offset(groups, i), Offset(groups, i) + Count(groups[i]))
  {
    var slots := Slots(Published(realWeights, groups, |groups|));
    WeightsFit(weights, groups, realWeights);
    var s := EveryDrawHits(slots, draw);
    SubsetShare(weights, groups, realWeights, i);
    NoneLands(groups, realWeights, i, draw);
  }

  lemma NoneLands(groups: seq<Group>, realWeights: seq<int>, i: nat, draw: int)
    requires |realWeights| == |groups| && i < |groups| && realWeights[i] * Count(groups[i]) == 0 && 0 <= draw <= Int32.Max
    requires NonNegative(Slots(Published(realWeights, groups, |groups|)))
    ensures Offset(groups, i) + Count(groups[i]) <= |Slots(Published(realWeights, groups, |groups|))|
    ensures !LandsIn(Slots(Published(realWeights, groups, |groups|)), draw, Offset(groups, i), Offset(groups, i) + Count(groups[i]))
  {
    SumAtSubset(realWeights, groups, i);
    SumAtSubset(realWeights, groups, i + 1);
    LandsIffInInterval(Slots(Published(realWeights, groups, |groups|)), draw, Offset(groups, i), Offset(groups, i + 1));
  }

  /** There are draws to make if and only if some subset with a positive weight has an endpoint. */
  lemma {:induction false} AnyDrawIff(weights: seq<int>, groups: seq<Group>, n: nat)
    requires |weights| == |groups| && n <= |groups| && NoneNegative(weights)
    ensures TotalShare(weights, groups, n) > 0 <==> exists i :: 0 <= i < n && weights[i] > 0 && Count(groups[i]) > 0
  {
    if n > 0 {
      AnyDrawIff(weights, groups, n - 1);
      TotalShareBounds(weights, groups, 0, n - 1);
      ShareNonNegative(weights, groups, n - 1);
      var w, c := RealWeight(weights, Sizes(groups), n - 1), Count(groups[n - 1]);
      if weights[n - 1] > 0 && c > 0 { AtMostTimes(w, c); }
      if weights[n - 1] == 0 { assert 0 * Product(Sizes(groups), n - 1, |groups|) == 0; }
    }
  }

  /** The total envoy computes over a published list is the total of all slots. */
  lemma {:induction false} TotalIsSum(endpoints: seq<SidecarEndpoints>)
    ensures TotalWeight(endpoints) == Sum(Slots(endpoints), |Slots(endpoints)|)
  {
    if endpoints != [] {
      var n := |endpoints| - 1;
      TotalIsSum(endpoints[..n]);
      SumOfGroup(Slots(endpoints[..n]), n, WeightOf(endpoints[n]), |endpoints[n].endpoints|);
    }
  }

  lemma {:induction false} SumOfGroup(slots: seq<Slot>, group: nat, weight: int, n: nat)
    ensures Sum(slots + GroupSlots(group, weight, n), |slots| + n) == Sum(slots, |slots|) + weight * n
  {
    if n > 0 {
      SumOfGroup(slots, group, weight, n - 1);
      SumPrefix(slots + GroupSlots(group, weight, n - 1), slots + GroupSlots(group, weight, n), |slots| + n - 1);
      Distribute(weight, n - 1, 1);
    } else {
      SumPrefix(slots, slots + GroupSlots(group, weight, 0), |slots|);
    }
  }

  lemma {:induction false} SumPrefix(a: seq<Slot>, b: seq<Slot>, n: nat)
    requires n <= |a| && n <= |b| && a[..n] == b[..n]
    ensures Sum(a, n) == Sum(b, n)
  {
    if n > 0 {
      assert a[..n - 1] == a[..n][..n - 1] && b[..n - 1] == b[..n][..n - 1];
      assert a[n - 1] == a[..n][n - 1] && b[n - 1] == b[..n][n - 1];
      SumPrefix(a, b, n - 1);
    }
  }
}
